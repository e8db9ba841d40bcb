/** Tool calls on their way into a Responses request and back. Call IDs longer than the protocol allows
    get short fresh names; nothing else about the calls and their results changes. */
module CallIDs {
  import opened Wrappers
  import opened Sequences
  import opened Decimal

  const LIMIT := 64

  datatype Block =
    | Words(text: string)
    | Picture(data: string)
    | Calling(id: string, name: string, arguments: string)
    | Answering(callID: string, content: string, isError: bool)

  datatype Message = Message(role: string, blocks: seq<Block>)

  /** A raw JSON value as it arrives: absent, null, a string, or anything else. */
  datatype Raw = Absent | NullRaw | StringRaw(value: string) | OtherRaw(text: string)

  datatype Item =
    | CallItem(callID: string, name: string, arguments: Raw)
    | OutputItem(callID: string, output: string)
    | MessageItem(role: string, content: seq<Block>)
    | UnknownItem

  /** How JSON text is judged and quoted. */
  datatype Text = Text(valid: string -> bool, quote: string -> string)

  // ---- fresh names ----

  function Name(n: nat): string {
    "call_mc_" + Natural(n)
  }

  lemma NameInjective(a: nat, b: nat)
    requires Name(a) == Name(b)
    ensures a == b
  {
    assert Name(a)[8..] == Natural(a) && Name(b)[8..] == Natural(b);
    NaturalInjective(a, b);
  }

  ghost predicate NamedFrom(x: string, n: nat) {
    exists m: nat :: m >= n && x == Name(m)
  }

  /** The used IDs a search from `n` on can still run into. */
  ghost function Ahead(used: set<string>, n: nat): set<string> {
    set x | x in used && NamedFrom(x, n)
  }

  lemma AheadShrinks(used: set<string>, n: nat)
    requires Name(n) in used
    ensures |Ahead(used, n + 1)| < |Ahead(used, n)|
  {
    assert NamedFrom(Name(n), n);
    if NamedFrom(Name(n), n + 1) {
      var m: nat :| m >= n + 1 && Name(n) == Name(m);
      NameInjective(n, m);
      assert false;
    }
    forall x | x in Ahead(used, n + 1) ensures x in Ahead(used, n) {
      var m: nat :| m >= n + 1 && x == Name(m);
      assert m >= n && x == Name(m);
    }
    assert Ahead(used, n + 1) <= Ahead(used, n) - {Name(n)};
    Smaller(Ahead(used, n + 1), Ahead(used, n), Name(n));
  }

  lemma Smaller(a: set<string>, b: set<string>, x: string)
    requires a <= b - {x} && x in b
    ensures |a| < |b|
  {
    var rest := (b - {x}) - a;
    assert b == a + rest + {x};
  }

  // ---- the renaming ----

  predicate Numbered(x: string, n: nat) {
    exists m :: 1 <= m < n && x == Name(m)
  }

  predicate AllNumbered(renamed: map<string, string>, next: nat) {
    forall k | k in renamed :: Numbered(renamed[k], next)
  }

  /** Every number passed is used up. */
  ghost predicate Passed(used: set<string>, next: nat) {
    forall n: nat | 1 <= n < next :: Name(n) in used
  }

  /** Renamed IDs are long, their names are new and different, and every number passed is used up. */
  ghost predicate Sound(original: set<string>, used: set<string>, renamed: map<string, string>, next: nat) {
    && next >= 1 && used == original + renamed.Values && |used| == |original| + |renamed|
    && (forall k | k in renamed :: |k| > LIMIT && renamed[k] !in original)
    && AllNumbered(renamed, next)
    && (forall k, l | k in renamed && l in renamed && k != l :: renamed[k] != renamed[l])
    && Passed(used, next)
  }

  lemma SoundMore(original: set<string>, used: set<string>, renamed: map<string, string>, next: nat, id: string, n: nat)
    requires Sound(original, used, renamed, next) && next <= n && |id| > LIMIT && id !in renamed
    requires Name(n) !in used && Passed(used, n)
    ensures Sound(original, used + {Name(n)}, renamed[id := Name(n)], n + 1)
  {
    hide Name, Passed, AllNumbered;
    NumberedMore(renamed, next, id, n);
    PassedMore(used, n);
    ValuesMore(renamed, id, Name(n));
    forall k | k in renamed ensures renamed[k] in used { }
  }

  lemma NumberedMore(renamed: map<string, string>, next: nat, id: string, n: nat)
    requires AllNumbered(renamed, next) && 1 <= next <= n
    ensures AllNumbered(renamed[id := Name(n)], n + 1)
  {
    hide Name, Numbered;
    var more := renamed[id := Name(n)];
    forall k | k in more ensures Numbered(more[k], n + 1) {
      if k != id { NumberedLater(renamed[k], next, n + 1); } else { NumberedLast(n); }
    }
  }

  lemma NumberedLast(n: nat)
    requires n >= 1
    ensures Numbered(Name(n), n + 1)
  {
    hide Name;
  }

  lemma PassedMore(used: set<string>, n: nat)
    requires Passed(used, n)
    ensures Passed(used + {Name(n)}, n + 1)
  {
    hide Name;
  }

  lemma NumberedLater(x: string, n: nat, m: nat)
    requires Numbered(x, n) && n <= m
    ensures Numbered(x, m)
  {
  }

  lemma ValuesMore(renamed: map<string, string>, id: string, name: string)
    requires id !in renamed
    ensures renamed[id := name].Values == renamed.Values + {name}
    ensures |renamed[id := name]| == |renamed| + 1
  {
    var more := renamed[id := name];
    assert more.Keys == renamed.Keys + {id};
    forall v | v in renamed.Values ensures v in more.Values {
      var k :| k in renamed && renamed[k] == v;
      assert k in more && more[k] == v;
    }
    assert id in more && more[id] == name;
  }

  class Renamer {
    var usedIDs: set<string>
    var callIDs: map<string, string>
    var nextCallID: nat
    ghost const original: set<string>

    ghost predicate Valid()
      reads this
    {
      Sound(original, usedIDs, callIDs, nextCallID)
    }

    constructor (ids: set<string>)
      ensures Valid() && original == ids && callIDs == map[]
    {
      usedIDs, callIDs, nextCallID, original := ids, map[], 1, ids;
    }

    /** The search for an unused number ends, however many such names the history already holds. */
    method FreshNumber() returns (n: nat)
      requires Valid()
      ensures nextCallID <= n && Name(n) !in usedIDs && Passed(usedIDs, n)
    {
      hide Name, Ahead, Numbered;
      n := nextCallID;
      while Name(n) in usedIDs
        invariant nextCallID <= n && Passed(usedIDs, n)
        decreases |Ahead(usedIDs, n)|
      {
        AheadShrinks(usedIDs, n);
        n := n + 1;
      }
    }

    method CallID(id: string) returns (mapped: string)
      requires Valid()
      modifies this
      ensures Valid() && callIDs == if |id| <= LIMIT then old(callIDs) else old(callIDs)[id := mapped]
      ensures |id| <= LIMIT ==> mapped == id
      ensures id in old(callIDs) ==> mapped == (if |id| <= LIMIT then id else old(callIDs)[id])
    {
      hide Name, Sound, Passed;
      if |id| <= LIMIT {
        return id;
      }
      if id in callIDs {
        assert callIDs == callIDs[id := callIDs[id]];
        return callIDs[id];
      }
      var n := FreshNumber();
      SoundMore(original, usedIDs, callIDs, nextCallID, id, n);
      nextCallID := n + 1;
      mapped := Name(n);
      usedIDs := usedIDs + {mapped};
      callIDs := callIDs[id := mapped];
    }
  }

  // ---- what the renaming promises ----

  function Renamed(callIDs: map<string, string>, id: string): string {
    if id in callIDs then callIDs[id] else id
  }

  /** No two IDs of the request meet, and IDs within the limit stay as they are. */
  lemma RenamingInjective(original: set<string>, used: set<string>, callIDs: map<string, string>, next: nat, a: string, b: string)
    requires Sound(original, used, callIDs, next) && a in original && b in original
    ensures Renamed(callIDs, a) == Renamed(callIDs, b) ==> a == b
    ensures |a| <= LIMIT ==> Renamed(callIDs, a) == a
  {
  }

  /** A new name has at most 64 characters, unless the request holds some 10^56 IDs. */
  lemma RenamingShort(original: set<string>, used: set<string>, callIDs: map<string, string>, next: nat, id: string)
    requires Sound(original, used, callIDs, next) && id in callIDs && |used| < Power10(56) - 1
    ensures |Renamed(callIDs, id)| <= LIMIT
  {
    NumbersUsed(used, next);
    var m: nat :| 1 <= m < next && callIDs[id] == Name(m);
    NaturalLength(m, Power10(56), 56);
  }

  /** Numbers below `next` are all used, so there are not more of them than used IDs. */
  lemma {:induction false} NumbersUsed(used: set<string>, next: nat)
    requires next >= 1 && Passed(used, next)
    ensures next - 1 <= |used|
    decreases next
  {
    if next > 1 {
      var last := Name(next - 1);
      forall n: nat | 1 <= n < next - 1 ensures Name(n) in used - {last} {
        if Name(n) == last { NameInjective(n, next - 1); }
      }
      NumbersUsed(used - {last}, next - 1);
    }
  }

  // ---- encoding a request ----

  type Renaming = map<string, string>

  function ItemOf(f: Renaming): Block -> seq<Item> {
    (b: Block) =>
      match b
      case Calling(id, name, arguments) => [CallItem(Renamed(f, id), name, StringRaw(arguments))]
      case Answering(callID, content, _) => [OutputItem(Renamed(f, callID), content)]
      case _ => []
  }

  function ContentOf(b: Block): seq<Block> {
    if b.Words? || b.Picture? then [b] else []
  }

  function ContentItem(role: string, content: seq<Block>): seq<Item> {
    if content == [] then [] else [MessageItem(role, content)]
  }

  /** A message's calls and answers come first, in their order, then its text and images. */
  function ItemsOf(f: Renaming): Message -> seq<Item> {
    (m: Message) => FlatMap(ItemOf(f), m.blocks) + ContentItem(m.role, FlatMap(ContentOf, m.blocks))
  }

  function Encoded(f: Renaming, ms: seq<Message>): seq<Item> {
    FlatMap(ItemsOf(f), ms)
  }

  function IDOf(b: Block): set<string> {
    match b case Calling(id, _, _) => {id} case Answering(id, _, _) => {id} case _ => {}
  }

  function IDsIn(blocks: seq<Block>): set<string> {
    if blocks == [] then {} else IDsIn(blocks[..|blocks| - 1]) + IDOf(blocks[|blocks| - 1])
  }

  function IDs(ms: seq<Message>): set<string> {
    if ms == [] then {} else IDs(ms[..|ms| - 1]) + IDsIn(ms[|ms| - 1].blocks)
  }

  /** Every long ID among these has its name. */
  predicate Settled(f: Renaming, ids: set<string>) {
    forall id | id in ids && |id| > LIMIT :: id in f
  }

  /** A renaming that only gained names gives the same items for settled IDs. */
  predicate Extends(f: Renaming, g: Renaming) {
    && (forall k | k in f :: k in g && g[k] == f[k]) && (forall k | k in g :: |k| > LIMIT)
  }

  lemma ItemStable(f: Renaming, g: Renaming, b: Block)
    requires Extends(f, g) && Settled(f, IDOf(b))
    ensures ItemOf(f)(b) == ItemOf(g)(b)
  {
    assert forall id | id in IDOf(b) :: Renamed(f, id) == Renamed(g, id);
  }

  lemma {:induction false} BlocksStable(f: Renaming, g: Renaming, blocks: seq<Block>)
    requires Extends(f, g) && Settled(f, IDsIn(blocks))
    ensures FlatMap(ItemOf(f), blocks) == FlatMap(ItemOf(g), blocks)
  {
    if blocks != [] {
      hide ItemOf, Extends, IDOf;
      BlocksStable(f, g, blocks[..|blocks| - 1]);
      ItemStable(f, g, blocks[|blocks| - 1]);
    }
  }

  lemma {:induction false} EncodedStable(f: Renaming, g: Renaming, ms: seq<Message>)
    requires Extends(f, g) && Settled(f, IDs(ms))
    ensures Encoded(f, ms) == Encoded(g, ms)
  {
    if ms != [] {
      var front, last := ms[..|ms| - 1], ms[|ms| - 1];
      EncodedStable(f, g, front);
      BlocksStable(f, g, last.blocks);
    }
  }

  lemma {:induction false} IDsWithin(ms: seq<Message>, i: nat, j: nat)
    requires i < |ms| && j < |ms[i].blocks|
    ensures IDOf(ms[i].blocks[j]) <= IDs(ms)
  {
    if i < |ms| - 1 { IDsWithin(ms[..|ms| - 1], i, j); } else { BlockWithin(ms[i].blocks, j); }
  }

  lemma {:induction false} BlockWithin(blocks: seq<Block>, j: nat)
    requires j < |blocks|
    ensures IDOf(blocks[j]) <= IDsIn(blocks)
  {
    if j < |blocks| - 1 { BlockWithin(blocks[..|blocks| - 1], j); }
  }

  method EncodeBlock(renamer: Renamer, b: Block) returns (items: seq<Item>)
    requires renamer.Valid()
    modifies renamer
    ensures renamer.Valid() && Extends(old(renamer.callIDs), renamer.callIDs) && Settled(renamer.callIDs, IDOf(b))
    ensures items == ItemOf(renamer.callIDs)(b)
  {
    hide Sound;
    LongKeys(renamer);
    if b.Calling? {
      var id := renamer.CallID(b.id);
      items := [CallItem(id, b.name, StringRaw(b.arguments))];
    } else if b.Answering? {
      var id := renamer.CallID(b.callID);
      items := [OutputItem(id, b.content)];
    } else {
      items := [];
    }
    LongKeys(renamer);
  }

  lemma {:induction false} ItemsMore(e: Renaming, f: Renaming, g: Renaming, blocks: seq<Block>, b: Block)
    requires Extends(e, f) && Extends(f, g) && Settled(f, IDsIn(blocks)) && Settled(g, IDOf(b))
    ensures Extends(e, g) && Settled(g, IDsIn(blocks + [b]))
    ensures FlatMap(ItemOf(g), blocks + [b]) == FlatMap(ItemOf(f), blocks) + ItemOf(g)(b)
  {
    hide ItemOf, FlatMap;
    assert (blocks + [b])[..|blocks|] == blocks;
    BlocksStable(f, g, blocks);
    FlatMapMore(ItemOf(g), blocks, b);
  }

  method EncodeBlocks(renamer: Renamer, blocks: seq<Block>) returns (items: seq<Item>)
    requires renamer.Valid()
    modifies renamer
    ensures renamer.Valid() && Extends(old(renamer.callIDs), renamer.callIDs) && Settled(renamer.callIDs, IDsIn(blocks))
    ensures items == FlatMap(ItemOf(renamer.callIDs), blocks)
  {
    hide Sound, FlatMap, ItemOf, IDsIn, Extends, Settled;
    items := [];
    assert blocks[..0] == [];
    NoItems(renamer.callIDs);
    LongKeys(renamer);
    for i := 0 to |blocks|
      invariant renamer.Valid() && Extends(old(renamer.callIDs), renamer.callIDs)
      invariant Settled(renamer.callIDs, IDsIn(blocks[..i]))
      invariant items == FlatMap(ItemOf(renamer.callIDs), blocks[..i])
    {
      ghost var f := renamer.callIDs;
      var more := EncodeBlock(renamer, blocks[i]);
      items := items + more;
      ItemsMore(old(renamer.callIDs), f, renamer.callIDs, blocks[..i], blocks[i]);
      assert blocks[..i + 1] == blocks[..i] + [blocks[i]];
    }
    assert blocks[..|blocks|] == blocks;
  }

  lemma NoItems(f: Renaming)
    ensures FlatMap(ItemOf(f), []) == [] && Settled(f, IDsIn([]))
    ensures (forall k | k in f :: |k| > LIMIT) ==> Extends(f, f)
  {
  }

  lemma LongKeys(renamer: Renamer)
    requires renamer.Valid()
    ensures forall k | k in renamer.callIDs :: |k| > LIMIT
  {
  }

  /** All IDs of the request, calls and answers alike. */
  method CollectIDs(ms: seq<Message>) returns (used: set<string>)
    ensures used == IDs(ms)
  {
    used := {};
    assert ms[..0] == [];
    for i := 0 to |ms|
      invariant used == IDs(ms[..i])
    {
      var blocks := ms[i].blocks;
      assert ms[..i + 1][..i] == ms[..i] && blocks[..0] == [];
      for j := 0 to |blocks|
        invariant used == IDs(ms[..i]) + IDsIn(blocks[..j])
      {
        assert blocks[..j + 1][..j] == blocks[..j];
        match blocks[j] {
          case Calling(id, _, _) => used := used + {id};
          case Answering(id, _, _) => used := used + {id};
          case _ =>
        }
      }
      assert blocks[..|blocks|] == blocks;
    }
    assert ms[..|ms|] == ms;
  }

  /** Some renaming state stands behind this map: the IDs of the request were kept free. */
  ghost predicate Renames(ms: seq<Message>, f: Renaming) {
    exists used: set<string>, next: nat :: Sound(IDs(ms), used, f, next)
  }

  method EncodeMessage(renamer: Renamer, ghost front: seq<Message>, m: Message) returns (items: seq<Item>)
    requires renamer.Valid() && Settled(renamer.callIDs, IDs(front))
    modifies renamer
    ensures renamer.Valid() && Settled(renamer.callIDs, IDs(front + [m]))
    ensures Encoded(renamer.callIDs, front + [m]) == Encoded(old(renamer.callIDs), front) + items
  {
    hide Sound, FlatMap, IDs, Extends, Settled, Encoded;
    var content := Contents(m.blocks);
    items := EncodeBlocks(renamer, m.blocks);
    if content != [] {
      items := items + [MessageItem(m.role, content)];
    }
    EncodedMore(old(renamer.callIDs), renamer.callIDs, front, m);
  }

  /** Encodes a request; all IDs of the history are reserved before the first name is made up. */
  method EncodeRequest(ms: seq<Message>) returns (items: seq<Item>, f: Renaming)
    ensures Renames(ms, f) && Settled(f, IDs(ms)) && items == Encoded(f, ms)
  {
    hide Sound, FlatMap, IDs, Settled, Encoded;
    var used := CollectIDs(ms);
    var renamer := new Renamer(used);
    items := [];
    assert ms[..0] == [];
    NothingEncoded(renamer.callIDs);
    for i := 0 to |ms|
      invariant renamer.Valid() && renamer.original == IDs(ms)
      invariant Settled(renamer.callIDs, IDs(ms[..i])) && items == Encoded(renamer.callIDs, ms[..i])
    {
      assert ms[..i + 1] == ms[..i] + [ms[i]];
      var more := EncodeMessage(renamer, ms[..i], ms[i]);
      items := items + more;
    }
    assert ms[..|ms|] == ms;
    f := renamer.callIDs;
  }

  lemma NothingEncoded(f: Renaming)
    ensures Encoded(f, []) == [] && Settled(f, IDs([]))
  {
  }

  lemma EncodedMore(f: Renaming, g: Renaming, ms: seq<Message>, m: Message)
    requires Extends(f, g) && Settled(f, IDs(ms)) && Settled(g, IDsIn(m.blocks))
    ensures Settled(g, IDs(ms + [m]))
    ensures Encoded(g, ms + [m]) == Encoded(f, ms) + (FlatMap(ItemOf(g), m.blocks) + ContentItem(m.role, FlatMap(ContentOf, m.blocks)))
  {
    hide FlatMap, ItemOf;
    assert (ms + [m])[..|ms|] == ms;
    EncodedStable(f, g, ms);
    FlatMapMore(ItemsOf(g), ms, m);
  }

  method Contents(blocks: seq<Block>) returns (content: seq<Block>)
    ensures content == FlatMap(ContentOf, blocks)
  {
    content := [];
    assert blocks[..0] == [];
    for i := 0 to |blocks|
      invariant content == FlatMap(ContentOf, blocks[..i])
    {
      FlatMapMore(ContentOf, blocks[..i], blocks[i]);
      assert blocks[..i + 1] == blocks[..i] + [blocks[i]];
      if blocks[i].Words? || blocks[i].Picture? { content := content + [blocks[i]]; }
    }
    assert blocks[..|blocks|] == blocks;
  }

  /** Main result: over all IDs of the request the renaming is injective, leaves IDs within the limit
      alone and keeps within the limit, unless the request holds some 10^56 IDs. */
  lemma {:induction false} RequestRenaming(ms: seq<Message>, f: Renaming, a: string, b: string)
    requires Renames(ms, f) && Settled(f, IDs(ms)) && a in IDs(ms) && b in IDs(ms)
    ensures Renamed(f, a) == Renamed(f, b) ==> a == b
    ensures |a| <= LIMIT ==> Renamed(f, a) == a
    ensures |IDs(ms)| + |f| < Power10(56) - 1 ==> |Renamed(f, a)| <= LIMIT
  {
    hide IDs, Power10;
    var used: set<string>, next: nat :| Sound(IDs(ms), used, f, next);
    RenamingInjective(IDs(ms), used, f, next, a, b);
    if |a| > LIMIT && |used| < Power10(56) - 1 { RenamingShort(IDs(ms), used, f, next, a); }
  }

  // ---- decoding ----

  /** Arguments arrive as a JSON string or as JSON itself; none at all means an empty object. */
  function NormalizeArguments(t: Text, raw: Raw): string {
    match raw
    case Absent => "{}"
    case NullRaw => "{}"
    case StringRaw(v) => if t.valid(v) then v else t.quote(v)
    case OtherRaw(text) => text
  }

  function AppendBlock(ms: seq<Message>, role: string, b: Block): seq<Message> {
    if ms != [] && ms[|ms| - 1].role == role then
      ms[..|ms| - 1] + [Message(role, ms[|ms| - 1].blocks + [b])]
    else ms + [Message(role, [b])]
  }

  /** One input item; system and developer text becomes an instruction, which is not a message. */
  function DecodeItem(t: Text, ms: seq<Message>, item: Item): Result<seq<Message>> {
    match item
    case CallItem(id, name, arguments) => Ok(AppendBlock(ms, "assistant", Calling(id, name, NormalizeArguments(t, arguments))))
    case OutputItem(id, output) => Ok(AppendBlock(ms, "user", Answering(id, output, false)))
    case MessageItem(role, content) =>
      if role == "system" || role == "developer" then Ok(ms)
      else if role == "user" || role == "assistant" then Ok(ms + [Message(role, content)])
      else Err
    case UnknownItem => Err
  }

  function Decoded(t: Text, items: seq<Item>): Result<seq<Message>> {
    if items == [] then Ok([])
    else
      match Decoded(t, items[..|items| - 1])
      case Err => Err
      case Ok(ms) => DecodeItem(t, ms, items[|items| - 1])
  }

  method DecodeRequest(t: Text, items: seq<Item>) returns (r: Result<seq<Message>>)
    ensures r == Decoded(t, items)
  {
    hide DecodeItem;
    var ms: seq<Message> := [];
    assert items[..0] == [];
    for i := 0 to |items|
      invariant Decoded(t, items[..i]) == Ok(ms)
    {
      assert items[..i + 1][..i] == items[..i];
      var next := DecodeItem(t, ms, items[i]);
      if next.Err? {
        Spoiled(t, items, i + 1);
        return Err;
      }
      ms := next.value;
    }
    assert items[..|items|] == items;
    r := Ok(ms);
  }

  lemma {:induction false} Spoiled(t: Text, items: seq<Item>, n: nat)
    requires n <= |items| && Decoded(t, items[..n]).Err?
    ensures Decoded(t, items).Err?
  {
    hide DecodeItem;
    if n < |items| {
      assert items[..|items| - 1][..n] == items[..n];
      Spoiled(t, items[..|items| - 1], n);
    } else {
      assert items[..n] == items;
    }
  }

  // ---- the round trip ----

  /** A call or an answer; whether an answer is an error is not carried by the protocol. */
  datatype Piece = Call(id: string, name: string, arguments: string) | Answer(id: string, content: string)

  function PieceOf(b: Block): seq<Piece> {
    match b
    case Calling(id, name, arguments) => [Call(id, name, arguments)]
    case Answering(id, content, _) => [Answer(id, content)]
    case _ => []
  }

  function PiecesIn(m: Message): seq<Piece> {
    FlatMap(PieceOf, m.blocks)
  }

  function RenamedPiece(f: Renaming): Piece -> seq<Piece> {
    (p: Piece) => [p.(id := Renamed(f, p.id))]
  }

  /** The calls and answers of messages, in order. */
  function Pieces(ms: seq<Message>): seq<Piece> {
    FlatMap(PiecesIn, ms)
  }

  /** The calls and answers an item list carries. */
  function Carried(t: Text): Item -> seq<Piece> {
    (i: Item) =>
      match i
      case CallItem(id, name, arguments) => [Call(id, name, NormalizeArguments(t, arguments))]
      case OutputItem(id, output) => [Answer(id, output)]
      case _ => []
  }

  predicate Sendable(t: Text, m: Message) {
    && m.role in {"user", "assistant", "system", "developer"}
    && forall b | b in m.blocks && b.Calling? :: t.valid(b.arguments)
  }

  lemma AppendPieces(ms: seq<Message>, role: string, b: Block)
    ensures Pieces(AppendBlock(ms, role, b)) == Pieces(ms) + PieceOf(b)
  {
    if ms != [] && ms[|ms| - 1].role == role {
      var front, last := ms[..|ms| - 1], ms[|ms| - 1];
      FlatMapMore(PieceOf, last.blocks, b);
      FlatMapMore(PiecesIn, front, Message(role, last.blocks + [b]));
      assert ms == front + [last];
      FlatMapMore(PiecesIn, front, last);
    } else {
      FlatMapOne(PieceOf, b);
      FlatMapMore(PiecesIn, ms, Message(role, [b]));
    }
  }

  /** No content item holds a call, and every role is known. */
  predicate Readable(items: seq<Item>) {
    forall i | i in items ::
      !i.UnknownItem? && (i.MessageItem? ==> i.role in {"user", "assistant", "system", "developer"} && FlatMap(PieceOf, i.content) == [])
  }

  lemma {:induction false} DecodedPieces(t: Text, items: seq<Item>)
    requires Readable(items)
    ensures Decoded(t, items).Ok? && Pieces(Decoded(t, items).value) == FlatMap(Carried(t), items)
  {
    if items != [] {
      hide AppendBlock, NormalizeArguments;
      var front, last := items[..|items| - 1], items[|items| - 1];
      assert last in items;
      DecodedPieces(t, front);
      var ms := Decoded(t, front).value;
      match last
      case CallItem(id, name, arguments) => AppendPieces(ms, "assistant", Calling(id, name, NormalizeArguments(t, arguments)));
      case OutputItem(id, output) => AppendPieces(ms, "user", Answering(id, output, false));
      case MessageItem(role, content) =>
        FlatMapMore(PiecesIn, ms, Message(role, content));
        assert Pieces(ms) + [] == Pieces(ms);
    }
  }

  lemma {:induction false} ContentQuiet(blocks: seq<Block>)
    ensures FlatMap(PieceOf, FlatMap(ContentOf, blocks)) == []
  {
    if blocks != [] {
      ContentQuiet(blocks[..|blocks| - 1]);
      FlatMapConcat(PieceOf, FlatMap(ContentOf, blocks[..|blocks| - 1]), ContentOf(blocks[|blocks| - 1]));
      if ContentOf(blocks[|blocks| - 1]) != [] { FlatMapOne(PieceOf, blocks[|blocks| - 1]); }
    }
  }

  lemma {:induction false} BlocksCarry(t: Text, f: Renaming, blocks: seq<Block>)
    requires forall b | b in blocks && b.Calling? :: t.valid(b.arguments)
    ensures FlatMap(Carried(t), FlatMap(ItemOf(f), blocks)) == FlatMap(RenamedPiece(f), FlatMap(PieceOf, blocks))
    ensures forall i | i in FlatMap(ItemOf(f), blocks) :: i.CallItem? || i.OutputItem?
  {
    if blocks != [] {
      var front, last := blocks[..|blocks| - 1], blocks[|blocks| - 1];
      BlocksCarry(t, f, front);
      assert last in blocks;
      FlatMapConcat(Carried(t), FlatMap(ItemOf(f), front), ItemOf(f)(last));
      FlatMapConcat(RenamedPiece(f), FlatMap(PieceOf, front), PieceOf(last));
      OneCarries(t, f, last);
    }
  }

  lemma OneCarries(t: Text, f: Renaming, b: Block)
    requires b.Calling? ==> t.valid(b.arguments)
    ensures FlatMap(Carried(t), ItemOf(f)(b)) == FlatMap(RenamedPiece(f), PieceOf(b))
  {
    hide FlatMap, Renamed;
    if b.Calling? || b.Answering? {
      FlatMapOne(Carried(t), ItemOf(f)(b)[0]);
      FlatMapOne(RenamedPiece(f), PieceOf(b)[0]);
    } else {
      NothingCarried(t, f);
    }
  }

  lemma NothingCarried(t: Text, f: Renaming)
    ensures FlatMap(Carried(t), []) == [] && FlatMap(RenamedPiece(f), []) == []
  {
  }

  lemma MessageCarries(t: Text, f: Renaming, m: Message)
    requires Sendable(t, m)
    ensures FlatMap(Carried(t), ItemsOf(f)(m)) == FlatMap(RenamedPiece(f), PiecesIn(m)) && Readable(ItemsOf(f)(m))
  {
    hide ItemOf, RenamedPiece, PieceOf, ContentOf;
    BlocksCarry(t, f, m.blocks);
    ContentQuiet(m.blocks);
    var content := ContentItem(m.role, FlatMap(ContentOf, m.blocks));
    FlatMapConcat(Carried(t), FlatMap(ItemOf(f), m.blocks), content);
    if content != [] { FlatMapOne(Carried(t), content[0]); }
    assert FlatMap(Carried(t), content) == [];
  }

  lemma {:induction false} EncodedCarries(t: Text, f: Renaming, ms: seq<Message>)
    requires forall m | m in ms :: Sendable(t, m)
    ensures FlatMap(Carried(t), Encoded(f, ms)) == FlatMap(RenamedPiece(f), Pieces(ms)) && Readable(Encoded(f, ms))
  {
    if ms != [] {
      hide ItemsOf, Carried, RenamedPiece, PiecesIn, Sendable;
      var front, last := ms[..|ms| - 1], ms[|ms| - 1];
      assert last in ms;
      EncodedCarries(t, f, front);
      MessageCarries(t, f, last);
      FlatMapConcat(Carried(t), Encoded(f, front), ItemsOf(f)(last));
      FlatMapConcat(RenamedPiece(f), Pieces(front), PiecesIn(last));
    }
  }

  /** Main result: decoding an encoded request gives back its calls and answers in order, with the same
      names, arguments and contents, up to the renaming of IDs. */
  lemma RoundTrip(t: Text, f: Renaming, ms: seq<Message>)
    requires forall m | m in ms :: Sendable(t, m)
    ensures Decoded(t, Encoded(f, ms)).Ok?
    ensures Pieces(Decoded(t, Encoded(f, ms)).value) == FlatMap(RenamedPiece(f), Pieces(ms))
  {
    hide Encoded, Decoded, FlatMap;
    EncodedCarries(t, f, ms);
    DecodedPieces(t, Encoded(f, ms));
  }
}

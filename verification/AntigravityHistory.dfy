/** Sending a signed turn back: a client's echo of the turn is matched against the stored one and
    replaced by it, and the request then carries it unchanged. */
module AntigravityHistory {
  import opened Wrappers
  import opened Sequences
  import opened StreamTypes
  import opened Antigravity

  datatype Block =
    | Words(text: string)
    | Picture(inline: bool)
    | Calling(call: ToolCall, upstreamID: string)
    | Answering(callID: string, content: string, isError: bool)
    | Other

  datatype Message = Message(role: string, blocks: seq<Block>, restored: Option<Turn>)

  // ---- restoring ----

  function CallOf(b: Block): seq<ToolCall> {
    if b.Calling? then [b.call] else []
  }

  function TextIn(b: Block): string {
    if b.Words? then b.text else ""
  }

  function CallsIn(m: Message): seq<ToolCall> {
    FlatMap(CallOf, m.blocks)
  }

  /** The stored turn of the first call that has one. */
  function TurnOf(calls: seq<ToolCall>, history: map<string, Turn>): Option<Turn> {
    if calls == [] then None
    else if calls[0].id in history then Some(history[calls[0].id])
    else TurnOf(calls[1..], history)
  }

  /** Same ID, same name, and arguments that read as the same JSON value. */
  predicate SameCall(read: Parser, a: ToolCall, b: ToolCall) {
    a.id == b.id && a.name == b.name && read(a.arguments).Some? && read(a.arguments) == read(b.arguments)
  }

  /** The message repeats the turn: an assistant message of only text and calls, with the turn's calls in
      order and its text. */
  predicate Repeats(read: Parser, m: Message, turn: Turn) {
    && m.role == "assistant" && (forall b | b in m.blocks :: b.Words? || b.Calling?)
    && |CallsIn(m)| == |turn.calls|
    && (forall i | 0 <= i < |turn.calls| :: SameCall(read, CallsIn(m)[i], turn.calls[i]))
    && FlatMap(TextIn, m.blocks) == FlatMap(TextOf, turn.parts)
  }

  /** The message with the upstream IDs of its calls filled in, in order. */
  function WithIDs(blocks: seq<Block>, ids: seq<string>): (r: seq<Block>)
    requires |FlatMap(CallOf, blocks)| <= |ids|
    ensures |r| == |blocks|
  {
    if blocks == [] then []
    else
      var front, last := blocks[..|blocks| - 1], blocks[|blocks| - 1];
      WithIDs(front, ids) + [if last.Calling? then last.(upstreamID := ids[|FlatMap(CallOf, front)|]) else last]
  }

  /** Stored turns have an upstream ID for every call. */
  predicate Sized(history: map<string, Turn>) {
    forall k | k in history :: |history[k].upstreamIDs| == |history[k].calls|
  }

  /** What restoring makes of one message. `read` takes the first JSON value of a text, whatever follows it. */
  function Restore(read: Parser, history: map<string, Turn>, m: Message): Result<Message>
    requires Sized(history)
  {
    match TurnOf(CallsIn(m), history)
    case None => Ok(m)
    case Some(turn) =>
      if turn.calls == [] then Ok(m)
      else if !Repeats(read, m, turn) then Err
      else
        TurnFound(CallsIn(m), history);
        Ok(m.(blocks := WithIDs(m.blocks, turn.upstreamIDs), restored := Some(turn)))
  }

  /** The loops over one message's blocks and calls, with every check in its order. */
  method RestoreMessage(read: Parser, history: map<string, Turn>, m: Message) returns (r: Result<Message>)
    requires Sized(history)
    ensures r == Restore(read, history, m)
  {
    hide FlatMap, WithIDs;
    var calls: seq<ToolCall>, text := [], "";
    assert m.blocks[..0] == [];
    NoBlocks();
    for i := 0 to |m.blocks|
      invariant calls == FlatMap(CallOf, m.blocks[..i]) && text == FlatMap(TextIn, m.blocks[..i])
    {
      var b := m.blocks[i];
      assert m.blocks[..i + 1] == m.blocks[..i] + [b];
      FlatMapMore(CallOf, m.blocks[..i], b);
      FlatMapMore(TextIn, m.blocks[..i], b);
      if b.Calling? { calls := calls + [b.call]; }
      if b.Words? { text := text + b.text; }
    }
    assert m.blocks[..|m.blocks|] == m.blocks;
    var turn := FindTurn(calls, history);
    if turn == None || turn.value.calls == [] { return Ok(m); }
    if m.role != "assistant" { return Err; }
    var plain := OnlyTextAndCalls(m.blocks);
    if !plain || |calls| != |turn.value.calls| { return Err; }
    for i := 0 to |calls|
      invariant forall j | 0 <= j < i :: SameCall(read, calls[j], turn.value.calls[j])
    {
      var actual, original := read(calls[i].arguments), read(turn.value.calls[i].arguments);
      if actual == None || original == None { return Err; }
      if calls[i].id != turn.value.calls[i].id || calls[i].name != turn.value.calls[i].name || actual != original { return Err; }
    }
    var originalText := "";
    assert turn.value.parts[..0] == [];
    for i := 0 to |turn.value.parts|
      invariant originalText == FlatMap(TextOf, turn.value.parts[..i])
    {
      var p := turn.value.parts[i];
      assert turn.value.parts[..i + 1] == turn.value.parts[..i] + [p];
      FlatMapMore(TextOf, turn.value.parts[..i], p);
      if !p.thought { originalText := originalText + p.text; }
    }
    assert turn.value.parts[..|turn.value.parts|] == turn.value.parts;
    if text != originalText { return Err; }
    TurnFound(calls, history);
    r := Ok(m.(blocks := WithIDs(m.blocks, turn.value.upstreamIDs), restored := turn));
  }

  lemma NoBlocks()
    ensures FlatMap(CallOf, []) == [] && FlatMap(TextIn, []) == "" && FlatMap(TextOf, []) == ""
  {
  }

  lemma {:induction false} TurnFound(calls: seq<ToolCall>, history: map<string, Turn>)
    requires TurnOf(calls, history).Some?
    ensures exists k :: k in history && history[k] == TurnOf(calls, history).value
  {
    if calls[0].id !in history { TurnFound(calls[1..], history); }
  }

  method FindTurn(calls: seq<ToolCall>, history: map<string, Turn>) returns (turn: Option<Turn>)
    ensures turn == TurnOf(calls, history)
  {
    assert calls[0..] == calls;
    for i := 0 to |calls|
      invariant TurnOf(calls, history) == TurnOf(calls[i..], history)
    {
      if calls[i].id in history { return Some(history[calls[i].id]); }
      assert calls[i..][1..] == calls[i + 1..];
    }
    turn := None;
  }

  method OnlyTextAndCalls(blocks: seq<Block>) returns (plain: bool)
    ensures plain <==> forall b | b in blocks :: b.Words? || b.Calling?
  {
    for i := 0 to |blocks|
      invariant forall j | 0 <= j < i :: blocks[j].Words? || blocks[j].Calling?
    {
      if !blocks[i].Words? && !blocks[i].Calling? { return false; }
    }
    plain := true;
  }

  /** All messages of a request, or the failure of one. */
  function RestoreAll(read: Parser, history: map<string, Turn>, ms: seq<Message>): Result<seq<Message>>
    requires Sized(history)
  {
    if ms == [] then Ok([])
    else
      match RestoreAll(read, history, ms[..|ms| - 1])
      case Err => Err
      case Ok(front) =>
        match Restore(read, history, ms[|ms| - 1])
        case Err => Err
        case Ok(m) => Ok(front + [m])
  }

  /** The loop over the messages, each replaced at its place. */
  method RestoreHistory(read: Parser, history: map<string, Turn>, ms: seq<Message>) returns (r: Result<seq<Message>>)
    requires Sized(history)
    ensures r == RestoreAll(read, history, ms)
  {
    hide Restore;
    var messages := [];
    assert ms[..0] == [];
    for i := 0 to |ms|
      invariant RestoreAll(read, history, ms[..i]) == Ok(messages)
    {
      assert ms[..i + 1][..i] == ms[..i];
      var next := RestoreMessage(read, history, ms[i]);
      if next.Err? {
        RestoreSpoiled(read, history, ms, i + 1);
        return Err;
      }
      messages := messages + [next.value];
    }
    assert ms[..|ms|] == ms;
    r := Ok(messages);
  }

  lemma {:induction false} RestoreSpoiled(read: Parser, history: map<string, Turn>, ms: seq<Message>, n: nat)
    requires Sized(history) && n <= |ms| && RestoreAll(read, history, ms[..n]).Err?
    ensures RestoreAll(read, history, ms).Err?
  {
    hide Restore;
    if n < |ms| {
      assert ms[..|ms| - 1][..n] == ms[..n];
      RestoreSpoiled(read, history, ms[..|ms| - 1], n);
    } else {
      assert ms[..n] == ms;
    }
  }

  /** Each message of a restored request is restored on its own. */
  lemma {:induction false} RestoredEach(read: Parser, history: map<string, Turn>, ms: seq<Message>, k: nat)
    requires Sized(history) && RestoreAll(read, history, ms).Ok? && k < |ms|
    ensures var out := RestoreAll(read, history, ms).value; |out| == |ms| && Restore(read, history, ms[k]) == Ok(out[k])
  {
    hide Restore;
    var front := ms[..|ms| - 1];
    if k < |front| { RestoredEach(read, history, front, k); } else { RestoredLength(read, history, front); }
  }

  lemma {:induction false} RestoredLength(read: Parser, history: map<string, Turn>, ms: seq<Message>)
    requires Sized(history) && RestoreAll(read, history, ms).Ok?
    ensures |RestoreAll(read, history, ms).value| == |ms|
  {
    hide Restore;
    if ms != [] { RestoredLength(read, history, ms[..|ms| - 1]); }
  }

  // ---- encoding ----

  datatype OutPart =
    | TextOut(text: string)
    | ImageOut
    | CallOut(id: string, name: string, arguments: string)
    | ResponseOut(name: string, id: string, content: string, isError: bool)

  /** An entry of the request: a stored turn as it is, or parts under a role. */
  datatype Entry = Whole(turn: Turn) | Parts(role: string, parts: seq<OutPart>)

  datatype Known = Known(name: string, upstreamID: string)

  datatype Progress = Progress(entries: seq<Entry>, calls: map<string, Known>, previousResults: bool)

  datatype Blocks = Blocks(calls: map<string, Known>, parts: seq<OutPart>)

  const PREFIX := "call_ag_"

  /** The ID an answer carries upstream; IDs minted here are unknown there. */
  function AnswerID(k: Known, callID: string): string {
    if k.upstreamID != "" then k.upstreamID else if PREFIX <= callID then "" else callID
  }

  function EncodeBlock(parse: Parser, s: Blocks, b: Block): Result<Blocks> {
    match b
    case Words(text) => Ok(Blocks(s.calls, s.parts + [TextOut(text)]))
    case Picture(inline) => if inline then Ok(Blocks(s.calls, s.parts + [ImageOut])) else Err
    case Calling(call, upstreamID) =>
      if call.id == "" || call.name == "" || parse(call.arguments) == None || call.id in s.calls then Err
      else Ok(Blocks(s.calls[call.id := Known(call.name, upstreamID)], s.parts + [CallOut(call.id, call.name, call.arguments)]))
    case Answering(callID, content, isError) =>
      if callID !in s.calls then Err
      else Ok(Blocks(s.calls, s.parts + [ResponseOut(s.calls[callID].name, AnswerID(s.calls[callID], callID), content, isError)]))
    case Other => Err
  }

  function EncodeBlocks(parse: Parser, calls: map<string, Known>, blocks: seq<Block>): Result<Blocks> {
    if blocks == [] then Ok(Blocks(calls, []))
    else
      match EncodeBlocks(parse, calls, blocks[..|blocks| - 1])
      case Err => Err
      case Ok(s) => EncodeBlock(parse, s, blocks[|blocks| - 1])
  }

  /** Enters the calls of a restored message in the table; a repeated ID is refused. */
  function Enter(calls: map<string, Known>, blocks: seq<Block>): Result<map<string, Known>> {
    if blocks == [] then Ok(calls)
    else
      match Enter(calls, blocks[..|blocks| - 1])
      case Err => Err
      case Ok(c) =>
        var b := blocks[|blocks| - 1];
        if !b.Calling? then Ok(c) else if b.call.id in c then Err
        else Ok(c[b.call.id := Known(b.call.name, b.upstreamID)])
  }

  predicate OnlyResults(m: Message) {
    m.blocks != [] && forall b | b in m.blocks :: b.Answering?
  }

  function EncodeMessage(parse: Parser, s: Progress, m: Message): Result<Progress>
    requires s.previousResults ==> s.entries != [] && s.entries[|s.entries| - 1].Parts?
    ensures EncodeMessage(parse, s, m).Ok? && EncodeMessage(parse, s, m).value.previousResults ==>
      var e := EncodeMessage(parse, s, m).value.entries; e != [] && e[|e| - 1].Parts?
  {
    if m.restored.Some? then
      match Enter(s.calls, m.blocks)
      case Err => Err
      case Ok(calls) => Ok(Progress(s.entries + [Whole(m.restored.value)], calls, false))
    else
      match EncodeBlocks(parse, s.calls, m.blocks)
      case Err => Err
      case Ok(b) =>
        if OnlyResults(m) && s.previousResults then
          var last := s.entries[|s.entries| - 1];
          Ok(Progress(s.entries[..|s.entries| - 1] + [last.(parts := last.parts + b.parts)], b.calls, true))
        else
          Ok(Progress(s.entries + [Parts(if m.role == "assistant" then "model" else "user", b.parts)], b.calls, OnlyResults(m)))
  }

  function Encode(parse: Parser, ms: seq<Message>): (r: Result<Progress>)
    ensures r.Ok? && r.value.previousResults ==> r.value.entries != [] && r.value.entries[|r.value.entries| - 1].Parts?
  {
    if ms == [] then Ok(Progress([], map[], false))
    else
      match Encode(parse, ms[..|ms| - 1])
      case Err => Err
      case Ok(s) => EncodeMessage(parse, s, ms[|ms| - 1])
  }

  method EncodeBlockList(parse: Parser, calls: map<string, Known>, blocks: seq<Block>) returns (r: Result<Blocks>)
    ensures match EncodeBlocks(parse, calls, blocks) case Err => r.Err? case Ok(b) => r == Ok(b)
  {
    hide EncodeBlock;
    var s := Blocks(calls, []);
    assert blocks[..0] == [];
    for i := 0 to |blocks|
      invariant EncodeBlocks(parse, calls, blocks[..i]) == Ok(s)
    {
      assert blocks[..i + 1][..i] == blocks[..i];
      var next := EncodeBlock(parse, s, blocks[i]);
      if next.Err? {
        BlocksSpoiled(parse, calls, blocks, i + 1);
        return Err;
      }
      s := next.value;
    }
    assert blocks[..|blocks|] == blocks;
    r := Ok(s);
  }

  lemma {:induction false} BlocksSpoiled(parse: Parser, calls: map<string, Known>, blocks: seq<Block>, n: nat)
    requires n <= |blocks| && EncodeBlocks(parse, calls, blocks[..n]).Err?
    ensures EncodeBlocks(parse, calls, blocks).Err?
  {
    hide EncodeBlock;
    if n < |blocks| {
      assert blocks[..|blocks| - 1][..n] == blocks[..n];
      BlocksSpoiled(parse, calls, blocks[..|blocks| - 1], n);
    } else {
      assert blocks[..n] == blocks;
    }
  }

  method EnterCalls(calls: map<string, Known>, blocks: seq<Block>) returns (r: Result<map<string, Known>>)
    ensures match Enter(calls, blocks) case Err => r.Err? case Ok(c) => r == Ok(c)
  {
    var table := calls;
    assert blocks[..0] == [];
    for i := 0 to |blocks|
      invariant Enter(calls, blocks[..i]) == Ok(table)
    {
      assert blocks[..i + 1][..i] == blocks[..i];
      if blocks[i].Calling? {
        if blocks[i].call.id in table {
          EnterSpoiled(calls, blocks, i + 1);
          return Err;
        }
        table := table[blocks[i].call.id := Known(blocks[i].call.name, blocks[i].upstreamID)];
      }
    }
    assert blocks[..|blocks|] == blocks;
    r := Ok(table);
  }

  lemma {:induction false} EnterSpoiled(calls: map<string, Known>, blocks: seq<Block>, n: nat)
    requires n <= |blocks| && Enter(calls, blocks[..n]).Err?
    ensures Enter(calls, blocks).Err?
  {
    if n < |blocks| {
      assert blocks[..|blocks| - 1][..n] == blocks[..n];
      EnterSpoiled(calls, blocks[..|blocks| - 1], n);
    } else {
      assert blocks[..n] == blocks;
    }
  }

  method EncodeNext(parse: Parser, s: Progress, m: Message) returns (r: Result<Progress>)
    requires s.previousResults ==> s.entries != [] && s.entries[|s.entries| - 1].Parts?
    ensures match EncodeMessage(parse, s, m) case Err => r.Err? case Ok(t) => r == Ok(t)
  {
    hide EncodeBlocks, Enter;
    var contents := s.entries;
    if m.restored.Some? {
      var entered := EnterCalls(s.calls, m.blocks);
      if entered.Err? { return Err; }
      return Ok(Progress(contents + [Whole(m.restored.value)], entered.value, false));
    }
    var encoded := EncodeBlockList(parse, s.calls, m.blocks);
    if encoded.Err? { return Err; }
    var onlyResults := m.blocks != [] && forall b | b in m.blocks :: b.Answering?;
    if onlyResults && s.previousResults {
      var n := |contents| - 1;
      contents := contents[n := contents[n].(parts := contents[n].parts + encoded.value.parts)];
      assert contents == s.entries[..n] + [contents[n]];
    } else {
      contents := contents + [Parts(if m.role == "assistant" then "model" else "user", encoded.value.parts)];
    }
    r := Ok(Progress(contents, encoded.value.calls, onlyResults));
  }

  /** Builds the entries of a request message by message; a message of answers alone joins the one before. */
  method EncodeContents(parse: Parser, ms: seq<Message>) returns (r: Result<seq<Entry>>)
    ensures match Encode(parse, ms) case Err => r.Err? case Ok(s) => r == Ok(s.entries)
  {
    hide EncodeMessage;
    var s := Progress([], map[], false);
    assert ms[..0] == [];
    for i := 0 to |ms|
      invariant Encode(parse, ms[..i]) == Ok(s)
    {
      assert ms[..i + 1][..i] == ms[..i];
      var next := EncodeNext(parse, s, ms[i]);
      if next.Err? {
        EncodeSpoiled(parse, ms, i + 1);
        return Err;
      }
      s := next.value;
    }
    assert ms[..|ms|] == ms;
    r := Ok(s.entries);
  }

  lemma {:induction false} EncodeSpoiled(parse: Parser, ms: seq<Message>, n: nat)
    requires n <= |ms| && Encode(parse, ms[..n]).Err?
    ensures Encode(parse, ms).Err?
  {
    hide EncodeMessage;
    if n < |ms| {
      assert ms[..|ms| - 1][..n] == ms[..n];
      EncodeSpoiled(parse, ms[..|ms| - 1], n);
    } else {
      assert ms[..n] == ms;
    }
  }

  // ---- what the request carries ----

  function WholeOf(e: Entry): seq<Turn> {
    if e.Whole? then [e.turn] else []
  }

  function RestoredIn(m: Message): seq<Turn> {
    if m.restored.Some? then [m.restored.value] else []
  }

  /** A turn as one token, and every other part as its own, under its role. */
  datatype Token = Signed(turn: Turn) | Plain(part: OutPart, role: string)

  function TokensOf(e: Entry): seq<Token> {
    match e
    case Whole(turn) => [Signed(turn)]
    case Parts(role, parts) => seq(|parts|, i requires 0 <= i < |parts| => Plain(parts[i], role))
  }

  lemma TokensMore(role: string, a: seq<OutPart>, b: seq<OutPart>)
    ensures TokensOf(Parts(role, a + b)) == TokensOf(Parts(role, a)) + TokensOf(Parts(role, b))
  {
  }

  lemma LastEntry<T>(f: Entry -> seq<T>, entries: seq<Entry>)
    requires entries != []
    ensures FlatMap(f, entries) == FlatMap(f, entries[..|entries| - 1]) + f(entries[|entries| - 1])
  {
  }

  /** The role a message is sent under: that of the entry it joins, or its own. */
  function RoleFor(s: Progress, m: Message): string
    requires s.previousResults ==> s.entries != [] && s.entries[|s.entries| - 1].Parts?
  {
    if OnlyResults(m) && s.previousResults then s.entries[|s.entries| - 1].role
    else if m.role == "assistant" then "model" else "user"
  }

  /** One message adds its turn whole, or its parts in order; merging answers into the entry before
      loses and moves nothing. */
  lemma MessageTokens(parse: Parser, s: Progress, m: Message)
    requires s.previousResults ==> s.entries != [] && s.entries[|s.entries| - 1].Parts?
    requires EncodeMessage(parse, s, m).Ok?
    ensures var t := EncodeMessage(parse, s, m).value;
      && FlatMap(WholeOf, t.entries) == FlatMap(WholeOf, s.entries) + RestoredIn(m)
      && FlatMap(TokensOf, t.entries) == FlatMap(TokensOf, s.entries)
         + (if m.restored.Some? then [Signed(m.restored.value)]
            else TokensOf(Parts(RoleFor(s, m), EncodeBlocks(parse, s.calls, m.blocks).value.parts)))
  {
    hide EncodeBlocks, Enter, OnlyResults, FlatMap;
    var t := EncodeMessage(parse, s, m).value;
    if m.restored.Some? {
      FlatMapMore(WholeOf, s.entries, Whole(m.restored.value));
      FlatMapMore(TokensOf, s.entries, Whole(m.restored.value));
    } else {
      var b := EncodeBlocks(parse, s.calls, m.blocks).value;
      if OnlyResults(m) && s.previousResults {
        var front, last := s.entries[..|s.entries| - 1], s.entries[|s.entries| - 1];
        var merged := last.(parts := last.parts + b.parts);
        LastEntry(WholeOf, s.entries);
        LastEntry(TokensOf, s.entries);
        FlatMapMore(WholeOf, front, merged);
        FlatMapMore(TokensOf, front, merged);
        TokensMore(last.role, last.parts, b.parts);
      } else {
        var added := t.entries[|s.entries|];
        FlatMapMore(WholeOf, s.entries, added);
        FlatMapMore(TokensOf, s.entries, added);
        assert FlatMap(WholeOf, s.entries) + [] == FlatMap(WholeOf, s.entries);
      }
    }
  }

  /** The stored turns go upstream whole, unchanged, and in message order. */
  lemma {:induction false} TurnsSentWhole(parse: Parser, ms: seq<Message>)
    requires Encode(parse, ms).Ok?
    ensures FlatMap(WholeOf, Encode(parse, ms).value.entries) == FlatMap(RestoredIn, ms)
  {
    if ms != [] {
      hide EncodeMessage;
      TurnsSentWhole(parse, ms[..|ms| - 1]);
      MessageTokens(parse, Encode(parse, ms[..|ms| - 1]).value, ms[|ms| - 1]);
    }
  }

  // ---- what a request has to be, said about its messages alone ----

  /** A message of answers only, not restored. */
  predicate Answers(m: Message) {
    m.restored == None && m.blocks != [] && forall b | b in m.blocks :: b.Answering?
  }

  /** The message shares the entry of the one before it. */
  predicate Joins(ms: seq<Message>, i: nat)
    requires i < |ms|
  {
    i > 0 && Answers(ms[i - 1]) && Answers(ms[i])
  }

  /** The entry a message goes to. */
  function EntryAt(ms: seq<Message>, i: nat): nat
    requires i < |ms|
  {
    if i == 0 then 0 else EntryAt(ms, i - 1) + if Joins(ms, i) then 0 else 1
  }

  function OwnRole(m: Message): string {
    if m.role == "assistant" then "model" else "user"
  }

  /** The role it is sent under: its own, or that of the first of the answers it stands among. */
  function RoleAt(ms: seq<Message>, i: nat): string
    requires i < |ms|
  {
    if Joins(ms, i) then RoleAt(ms, i - 1) else OwnRole(ms[i])
  }

  /** What a block sends under a role, given the calls of the whole request. An answer goes under the
      upstream's own ID of the call; without one under the client's, unless that was minted here. */
  function BlockTokens(calls: map<string, Known>, role: string): Block -> seq<Token> {
    (b: Block) =>
      match b
      case Words(text) => [Plain(TextOut(text), role)]
      case Picture(_) => [Plain(ImageOut, role)]
      case Calling(call, _) => [Plain(CallOut(call.id, call.name, call.arguments), role)]
      case Answering(id, content, isError) =>
        if id !in calls then []
        else
          var sent := if calls[id].upstreamID != "" then calls[id].upstreamID
                      else if |id| >= 8 && id[..8] == "call_ag_" then "" else id;
          [Plain(ResponseOut(calls[id].name, sent, content, isError), role)]
      case Other => []
  }

  /** What a message sends: its turn, or block after block. */
  function SentAt(calls: map<string, Known>, ms: seq<Message>, i: nat): seq<Token>
    requires i < |ms|
  {
    if ms[i].restored.Some? then [Signed(ms[i].restored.value)]
    else FlatMap(BlockTokens(calls, RoleAt(ms, i)), ms[i].blocks)
  }

  /** What the messages from `a` up to `b` send. */
  function SentFrom(calls: map<string, Known>, ms: seq<Message>, a: nat, b: nat): seq<Token>
    requires b <= |ms|
  {
    if b <= a then [] else SentFrom(calls, ms, a, b - 1) + SentAt(calls, ms, b - 1)
  }

  /** What the first `n` messages send into entry `e`. */
  function SentInto(calls: map<string, Known>, ms: seq<Message>, n: nat, e: nat): seq<Token>
    requires n <= |ms|
  {
    if n == 0 then []
    else SentInto(calls, ms, n - 1, e) + if EntryAt(ms, n - 1) == e then SentAt(calls, ms, n - 1) else []
  }

  /** The table only grows, and what it says of a call stays. */
  predicate Extends(a: map<string, Known>, b: map<string, Known>) {
    forall id | id in a :: id in b && b[id] == a[id]
  }

  lemma {:induction false} BlocksExtend(parse: Parser, calls: map<string, Known>, blocks: seq<Block>)
    requires EncodeBlocks(parse, calls, blocks).Ok?
    ensures Extends(calls, EncodeBlocks(parse, calls, blocks).value.calls)
  {
    if blocks != [] { BlocksExtend(parse, calls, blocks[..|blocks| - 1]); }
  }

  lemma {:induction false} EnterExtends(calls: map<string, Known>, blocks: seq<Block>)
    requires Enter(calls, blocks).Ok?
    ensures Extends(calls, Enter(calls, blocks).value)
  {
    if blocks != [] { EnterExtends(calls, blocks[..|blocks| - 1]); }
  }

  /** The parts of a message are those its blocks send under any later table. */
  lemma {:induction false} BlocksSend(parse: Parser, calls: map<string, Known>, blocks: seq<Block>, later: map<string, Known>, role: string)
    requires EncodeBlocks(parse, calls, blocks).Ok? && Extends(EncodeBlocks(parse, calls, blocks).value.calls, later)
    ensures TokensOf(Parts(role, EncodeBlocks(parse, calls, blocks).value.parts)) == FlatMap(BlockTokens(later, role), blocks)
  {
    if blocks != [] {
      var front, last := blocks[..|blocks| - 1], blocks[|blocks| - 1];
      var s, t := EncodeBlocks(parse, calls, front).value, EncodeBlocks(parse, calls, blocks).value;
      BlockSends(parse, s, last, later, role);
      BlocksSend(parse, calls, front, later, role);
    }
  }

  lemma BlockSends(parse: Parser, s: Blocks, b: Block, later: map<string, Known>, role: string)
    requires EncodeBlock(parse, s, b).Ok? && Extends(EncodeBlock(parse, s, b).value.calls, later)
    ensures Extends(s.calls, later)
    ensures TokensOf(Parts(role, EncodeBlock(parse, s, b).value.parts)) == TokensOf(Parts(role, s.parts)) + BlockTokens(later, role)(b)
  {
    var t := EncodeBlock(parse, s, b).value;
    assert t.parts == s.parts + [t.parts[|s.parts|]];
    TokensMore(role, s.parts, [t.parts[|s.parts|]]);
  }

  /** An entry has the shape its message gives it. */
  predicate ShapedBy(e: Entry, ms: seq<Message>, i: nat)
    requires i < |ms|
  {
    (e.Whole? <==> ms[i].restored.Some?) && (e.Parts? ==> e.role == RoleAt(ms, i))
  }

  /** The entries made of the first `n` messages. */
  ghost predicate Laid(s: Progress, ms: seq<Message>, n: nat, later: map<string, Known>)
    requires n <= |ms|
  {
    && s.previousResults == (n > 0 && Answers(ms[n - 1]))
    && |s.entries| == (if n == 0 then 0 else EntryAt(ms, n - 1) + 1)
    && (forall e | 0 <= e < |s.entries| :: TokensOf(s.entries[e]) == SentInto(later, ms, n, e))
    && (forall i | 0 <= i < n :: EntryAt(ms, i) < |s.entries| && ShapedBy(s.entries[EntryAt(ms, i)], ms, i))
  }

  lemma {:induction false} NotYet(calls: map<string, Known>, ms: seq<Message>, n: nat, e: nat)
    requires n <= |ms| && (n > 0 ==> EntryAt(ms, n - 1) < e)
    ensures SentInto(calls, ms, n, e) == []
  {
    if n > 0 { NotYet(calls, ms, n - 1, e); }
  }

  lemma {:induction false} EntryGrows(ms: seq<Message>, i: nat, j: nat)
    requires i <= j < |ms|
    ensures EntryAt(ms, i) <= EntryAt(ms, j)
  {
    if i < j { EntryGrows(ms, i, j - 1); }
  }

  /** A message that makes an entry of its own. */
  lemma LaidAdded(s: Progress, t: Progress, ms: seq<Message>, n: nat, later: map<string, Known>, e: Entry)
    requires n < |ms| && Laid(s, ms, n, later) && !Joins(ms, n)
    requires t.entries == s.entries + [e] && TokensOf(e) == SentAt(later, ms, n) && ShapedBy(e, ms, n)
    requires t.previousResults == Answers(ms[n])
    ensures Laid(t, ms, n + 1, later)
  {
    assert EntryAt(ms, n) == |s.entries|;
    hide TokensOf, SentAt, Joins, ShapedBy, Answers, EntryAt, SentInto;
    AddedTokens(s, ms, n, later, e);
    AddedShapes(s, ms, n, e);
  }

  lemma AddedShapes(s: Progress, ms: seq<Message>, n: nat, e: Entry)
    requires n < |ms| && EntryAt(ms, n) == |s.entries| && ShapedBy(e, ms, n)
    requires forall i | 0 <= i < n :: EntryAt(ms, i) < |s.entries| && ShapedBy(s.entries[EntryAt(ms, i)], ms, i)
    ensures forall i | 0 <= i < n + 1 :: EntryAt(ms, i) < |s.entries + [e]| && ShapedBy((s.entries + [e])[EntryAt(ms, i)], ms, i)
  {
    hide EntryAt, ShapedBy;
    forall i | 0 <= i < n + 1
      ensures EntryAt(ms, i) < |s.entries + [e]| && ShapedBy((s.entries + [e])[EntryAt(ms, i)], ms, i) {
      if i < n { assert ShapedBy(s.entries[EntryAt(ms, i)], ms, i); }
    }
  }

  lemma AddedTokens(s: Progress, ms: seq<Message>, n: nat, later: map<string, Known>, e: Entry)
    requires n < |ms| && EntryAt(ms, n) == |s.entries| && TokensOf(e) == SentAt(later, ms, n)
    requires n > 0 ==> EntryAt(ms, n - 1) < |s.entries|
    requires forall k | 0 <= k < |s.entries| :: TokensOf(s.entries[k]) == SentInto(later, ms, n, k)
    ensures forall k | 0 <= k < |s.entries + [e]| :: TokensOf((s.entries + [e])[k]) == SentInto(later, ms, n + 1, k)
  {
    hide TokensOf, SentAt, EntryAt, SentInto;
    NotYet(later, ms, n, |s.entries|);
    forall k | 0 <= k < |s.entries + [e]| ensures TokensOf((s.entries + [e])[k]) == SentInto(later, ms, n + 1, k) {
      IntoMore(later, ms, n, k);
    }
  }

  lemma IntoMore(calls: map<string, Known>, ms: seq<Message>, n: nat, e: nat)
    requires n < |ms|
    ensures EntryAt(ms, n) != e ==> SentInto(calls, ms, n + 1, e) == SentInto(calls, ms, n, e)
    ensures EntryAt(ms, n) == e ==> SentInto(calls, ms, n + 1, e) == SentInto(calls, ms, n, e) + SentAt(calls, ms, n)
    ensures EntryAt(ms, n) == e && SentInto(calls, ms, n, e) == [] ==> SentInto(calls, ms, n + 1, e) == SentAt(calls, ms, n)
  {
    hide SentAt;
  }

  /** Answers that join the entry before them. */
  lemma LaidJoined(s: Progress, t: Progress, ms: seq<Message>, n: nat, later: map<string, Known>, e: Entry)
    requires n < |ms| && Laid(s, ms, n, later) && Joins(ms, n) && s.entries != []
    requires var last := s.entries[|s.entries| - 1];
      && last.Parts? && e.Parts? && e.role == last.role && TokensOf(e) == TokensOf(last) + SentAt(later, ms, n)
      && t.entries == s.entries[..|s.entries| - 1] + [e]
    requires t.previousResults == Answers(ms[n])
    ensures Laid(t, ms, n + 1, later)
  {
    hide TokensOf, SentAt;
    var m := |s.entries| - 1;
    assert EntryAt(ms, n) == m;
    assert ShapedBy(s.entries[EntryAt(ms, n - 1)], ms, n - 1);
    forall k | 0 <= k < |t.entries| ensures TokensOf(t.entries[k]) == SentInto(later, ms, n + 1, k) {
      IntoMore(later, ms, n, k);
      if k < m { assert SentInto(later, ms, n, k) + [] == SentInto(later, ms, n, k); }
    }
    forall i | 0 <= i < n + 1 ensures EntryAt(ms, i) < |t.entries| && ShapedBy(t.entries[EntryAt(ms, i)], ms, i) {
      if i < n {
        assert ShapedBy(s.entries[EntryAt(ms, i)], ms, i);
        EntryGrows(ms, i, n);
      }
    }
  }

  /** One more message is laid where it belongs, and its tokens come last. */
  lemma LaidMore(parse: Parser, s: Progress, ms: seq<Message>, n: nat, later: map<string, Known>)
    requires n < |ms| && Laid(s, ms, n, later)
    requires s.previousResults ==> s.entries != [] && s.entries[|s.entries| - 1].Parts?
    requires EncodeMessage(parse, s, ms[n]).Ok? && Extends(EncodeMessage(parse, s, ms[n]).value.calls, later)
    ensures var t := EncodeMessage(parse, s, ms[n]).value;
      && Laid(t, ms, n + 1, later) && Extends(s.calls, later)
      && FlatMap(TokensOf, t.entries) == FlatMap(TokensOf, s.entries) + SentAt(later, ms, n)
  {
    var m, t := ms[n], EncodeMessage(parse, s, ms[n]).value;
    MessageTokens(parse, s, m);
    if m.restored.Some? {
      EnterExtends(s.calls, m.blocks);
      LaidAdded(s, t, ms, n, later, Whole(m.restored.value));
    } else {
      var parts := EncodeBlocks(parse, s.calls, m.blocks).value.parts;
      BlocksExtend(parse, s.calls, m.blocks);
      RoleKept(s, ms, n, later);
      BlocksSend(parse, s.calls, m.blocks, later, RoleAt(ms, n));
      hide EncodeBlocks, FlatMap, SentInto, EntryAt, BlockTokens, TokensOf, Laid;
      if OnlyResults(m) && s.previousResults {
        var last := s.entries[|s.entries| - 1];
        TokensMore(last.role, last.parts, parts);
        LaidJoined(s, t, ms, n, later, last.(parts := last.parts + parts));
      } else {
        LaidAdded(s, t, ms, n, later, Parts(OwnRole(m), parts));
      }
    }
  }

  lemma RoleKept(s: Progress, ms: seq<Message>, n: nat, later: map<string, Known>)
    requires n < |ms| && Laid(s, ms, n, later) && ms[n].restored == None
    requires s.previousResults ==> s.entries != [] && s.entries[|s.entries| - 1].Parts?
    ensures RoleFor(s, ms[n]) == RoleAt(ms, n) && (Joins(ms, n) <==> OnlyResults(ms[n]) && s.previousResults)
    ensures Answers(ms[n]) == OnlyResults(ms[n])
  {
    hide TokensOf, SentAt, SentInto;
    if Joins(ms, n) { assert ShapedBy(s.entries[EntryAt(ms, n - 1)], ms, n - 1); }
  }

  lemma {:induction false} LaidAll(parse: Parser, ms: seq<Message>, n: nat, later: map<string, Known>)
    requires n <= |ms| && Encode(parse, ms[..n]).Ok? && Extends(Encode(parse, ms[..n]).value.calls, later)
    ensures var s := Encode(parse, ms[..n]).value;
      Laid(s, ms, n, later) && FlatMap(TokensOf, s.entries) == SentFrom(later, ms, 0, n)
  {
    hide Laid, TokensOf, SentAt, EncodeMessage;
    if n == 0 {
      LaidNothing(ms, later);
    } else {
      assert ms[..n][..n - 1] == ms[..n - 1];
      var s := Encode(parse, ms[..n - 1]).value;
      StepExtends(parse, s, ms[n - 1], later);
      LaidAll(parse, ms, n - 1, later);
      LaidMore(parse, s, ms, n - 1, later);
    }
  }

  lemma StepExtends(parse: Parser, s: Progress, m: Message, later: map<string, Known>)
    requires s.previousResults ==> s.entries != [] && s.entries[|s.entries| - 1].Parts?
    requires EncodeMessage(parse, s, m).Ok? && Extends(EncodeMessage(parse, s, m).value.calls, later)
    ensures Extends(s.calls, later)
  {
    hide EncodeBlocks, Enter;
    if m.restored.Some? { EnterExtends(s.calls, m.blocks); } else { BlocksExtend(parse, s.calls, m.blocks); }
  }

  lemma LaidNothing(ms: seq<Message>, later: map<string, Known>)
    ensures Laid(Progress([], map[], false), ms, 0, later)
  {
  }

  /** Main result: an accepted request has one entry for each message, except that consecutive messages of
      answers only share one; each entry holds what its messages send, in order, whole if restored and under
      the role of the first of them otherwise. All entries together hold what all messages send. */
  lemma RequestExactly(parse: Parser, ms: seq<Message>)
    requires Encode(parse, ms).Ok?
    ensures var s := Encode(parse, ms).value;
      && |s.entries| == (if ms == [] then 0 else EntryAt(ms, |ms| - 1) + 1)
      && (forall e | 0 <= e < |s.entries| :: TokensOf(s.entries[e]) == SentInto(s.calls, ms, |ms|, e))
      && (forall i | 0 <= i < |ms| :: EntryAt(ms, i) < |s.entries| && ShapedBy(s.entries[EntryAt(ms, i)], ms, i))
      && FlatMap(TokensOf, s.entries) == SentFrom(s.calls, ms, 0, |ms|)
  {
    assert ms[..|ms|] == ms;
    LaidAll(parse, ms, |ms|, Encode(parse, ms).value.calls);
    hide TokensOf, SentInto, SentFrom;
  }

  // ---- when roles are kept ----

  /** Every message is sent under its own role if and only if answers that stand together agree on whether
      they are the assistant's. */
  lemma RolesKeptIff(ms: seq<Message>)
    ensures (forall i | 0 <= i < |ms| :: RoleAt(ms, i) == OwnRole(ms[i])) <==>
      (forall i | 0 <= i < |ms| && Joins(ms, i) :: (ms[i].role == "assistant" <==> ms[i - 1].role == "assistant"))
  {
    if forall i | 0 <= i < |ms| && Joins(ms, i) :: (ms[i].role == "assistant" <==> ms[i - 1].role == "assistant") {
      forall i | 0 <= i < |ms| ensures RoleAt(ms, i) == OwnRole(ms[i]) { RoleKeptAt(ms, i); }
    } else {
      var i :| 0 <= i < |ms| && Joins(ms, i) && !(ms[i].role == "assistant" <==> ms[i - 1].role == "assistant");
      assert RoleAt(ms, i) == RoleAt(ms, i - 1) && OwnRole(ms[i]) != OwnRole(ms[i - 1]);
    }
  }

  lemma {:induction false} RoleKeptAt(ms: seq<Message>, i: nat)
    requires i < |ms|
    requires forall k | 0 <= k < |ms| && Joins(ms, k) :: (ms[k].role == "assistant" <==> ms[k - 1].role == "assistant")
    ensures RoleAt(ms, i) == OwnRole(ms[i])
  {
    if Joins(ms, i) { RoleKeptAt(ms, i - 1); }
  }

  /** An assistant's answers right after a user's answers leave under `user`. */
  lemma AnswerRoleLost()
    ensures var answer := [Answering("a", "", false)];
      var ms := [Message("user", answer, None), Message("assistant", answer, None)];
      RoleAt(ms, 1) == "user" && OwnRole(ms[1]) == "model"
  {
    var answer := [Answering("a", "", false)];
    var ms := [Message("user", answer, None), Message("assistant", answer, None)];
    assert Answers(ms[0]) && Answers(ms[1]);
    assert Joins(ms, 1);
  }

  // ---- the call table ----

  function IDOf(b: Block): seq<string> {
    if b.Calling? then [b.call.id] else []
  }

  function IDsIn(m: Message): seq<string> {
    FlatMap(IDOf, m.blocks)
  }

  predicate Distinct(ids: seq<string>) {
    forall i, j | 0 <= i < j < |ids| :: ids[i] != ids[j]
  }

  /** The table grew by exactly these new IDs. */
  ghost predicate Entered(before: map<string, Known>, ids: seq<string>, after: map<string, Known>) {
    && Distinct(ids) && (forall id | id in ids :: id !in before)
    && (forall id :: id in after <==> id in before || id in ids)
  }

  lemma EnteredMore(before: map<string, Known>, ids: seq<string>, mid: map<string, Known>, more: seq<string>, after: map<string, Known>)
    requires Entered(before, ids, mid) && Entered(mid, more, after)
    ensures Entered(before, ids + more, after)
  {
    forall i, j | 0 <= i < j < |ids + more| ensures (ids + more)[i] != (ids + more)[j] {
      if i < |ids| <= j { assert ids[i] in ids && more[j - |ids|] in more; }
    }
  }

  lemma {:induction false} BlocksEntered(parse: Parser, calls: map<string, Known>, blocks: seq<Block>)
    requires EncodeBlocks(parse, calls, blocks).Ok?
    ensures Entered(calls, FlatMap(IDOf, blocks), EncodeBlocks(parse, calls, blocks).value.calls)
  {
    if blocks != [] {
      var front, last := blocks[..|blocks| - 1], blocks[|blocks| - 1];
      BlocksEntered(parse, calls, front);
      var s := EncodeBlocks(parse, calls, front).value;
      EnteredMore(calls, FlatMap(IDOf, front), s.calls, IDOf(last), EncodeBlock(parse, s, last).value.calls);
    }
  }

  lemma {:induction false} EnterEntered(calls: map<string, Known>, blocks: seq<Block>)
    requires Enter(calls, blocks).Ok?
    ensures Entered(calls, FlatMap(IDOf, blocks), Enter(calls, blocks).value)
  {
    if blocks != [] {
      var front, last := blocks[..|blocks| - 1], blocks[|blocks| - 1];
      EnterEntered(calls, front);
      EnteredMore(calls, FlatMap(IDOf, front), Enter(calls, front).value, IDOf(last), Enter(calls, blocks).value);
    }
  }

  /** An accepted request names every call once, over all its messages, restored or not. */
  lemma {:induction false} CallsDistinct(parse: Parser, ms: seq<Message>)
    requires Encode(parse, ms).Ok?
    ensures Entered(map[], FlatMap(IDsIn, ms), Encode(parse, ms).value.calls)
    ensures Distinct(FlatMap(IDsIn, ms))
  {
    if ms != [] {
      var front, m := ms[..|ms| - 1], ms[|ms| - 1];
      CallsDistinct(parse, front);
      var s := Encode(parse, front).value;
      if m.restored.Some? { EnterEntered(s.calls, m.blocks); } else { BlocksEntered(parse, s.calls, m.blocks); }
      EnteredMore(map[], FlatMap(IDsIn, front), s.calls, IDsIn(m), Encode(parse, ms).value.calls);
    }
  }

  /** The table knows each call by the name and upstream ID its block gives. */
  predicate Tabled(calls: map<string, Known>, blocks: seq<Block>) {
    forall b | b in blocks && b.Calling? :: b.call.id in calls && calls[b.call.id] == Known(b.call.name, b.upstreamID)
  }

  lemma {:induction false} BlocksTabled(parse: Parser, calls: map<string, Known>, blocks: seq<Block>)
    requires EncodeBlocks(parse, calls, blocks).Ok?
    ensures Tabled(EncodeBlocks(parse, calls, blocks).value.calls, blocks)
  {
    if blocks != [] {
      var front, last := blocks[..|blocks| - 1], blocks[|blocks| - 1];
      BlocksTabled(parse, calls, front);
      assert blocks == front + [last];
    }
  }

  lemma {:induction false} EnterTabled(calls: map<string, Known>, blocks: seq<Block>)
    requires Enter(calls, blocks).Ok?
    ensures Tabled(Enter(calls, blocks).value, blocks)
  {
    if blocks != [] {
      var front, last := blocks[..|blocks| - 1], blocks[|blocks| - 1];
      EnterTabled(calls, front);
      assert blocks == front + [last];
    }
  }

  /** The calls of an accepted request are known by what their own blocks say. */
  lemma {:induction false} CallsTabled(parse: Parser, ms: seq<Message>)
    requires Encode(parse, ms).Ok?
    ensures forall m | m in ms :: Tabled(Encode(parse, ms).value.calls, m.blocks)
  {
    if ms != [] {
      hide EncodeBlocks, Enter;
      var front, m := ms[..|ms| - 1], ms[|ms| - 1];
      var s, t := Encode(parse, front).value, Encode(parse, ms).value;
      CallsTabled(parse, front);
      if m.restored.Some? { EnterTabled(s.calls, m.blocks); } else { BlocksTabled(parse, s.calls, m.blocks); }
      StepExtends(parse, s, m, t.calls);
      assert ms == front + [m];
    }
  }

  // ---- which requests are accepted ----

  ghost predicate HoldsIDs(calls: map<string, Known>, ids: seq<string>) {
    forall id :: id in calls <==> id in ids
  }

  /** A block that can be sent after the calls before it; a restored message only must not repeat an ID. */
  predicate BlockFits(parse: Parser, restored: bool, before: seq<string>, b: Block) {
    match b
    case Words(_) => true
    case Picture(inline) => restored || inline
    case Calling(call, _) =>
      call.id !in before && (restored || (call.id != "" && call.name != "" && parse(call.arguments).Some?))
    case Answering(id, _, _) => restored || id in before
    case Other => restored
  }

  predicate BlocksFit(parse: Parser, restored: bool, before: seq<string>, blocks: seq<Block>) {
    forall j | 0 <= j < |blocks| :: BlockFits(parse, restored, before + FlatMap(IDOf, blocks[..j]), blocks[j])
  }

  lemma BlocksFitMore(parse: Parser, restored: bool, before: seq<string>, front: seq<Block>, b: Block)
    ensures BlocksFit(parse, restored, before, front + [b]) <==>
      BlocksFit(parse, restored, before, front) && BlockFits(parse, restored, before + FlatMap(IDOf, front), b)
  {
    var blocks := front + [b];
    forall j | 0 <= j < |front| ensures blocks[..j] == front[..j] { }
    assert blocks[..|front|] == front;
    if BlocksFit(parse, restored, before, blocks) {
      assert BlockFits(parse, restored, before + FlatMap(IDOf, blocks[..|front|]), blocks[|front|]);
      forall j | 0 <= j < |front| ensures BlockFits(parse, restored, before + FlatMap(IDOf, front[..j]), front[j]) {
        assert BlockFits(parse, restored, before + FlatMap(IDOf, blocks[..j]), blocks[j]);
      }
    }
    hide BlockFits, FlatMap;
  }

  lemma BlockAccepted(parse: Parser, s: Blocks, before: seq<string>, b: Block)
    requires HoldsIDs(s.calls, before)
    ensures EncodeBlock(parse, s, b).Ok? <==> BlockFits(parse, false, before, b)
    ensures EncodeBlock(parse, s, b).Ok? ==> HoldsIDs(EncodeBlock(parse, s, b).value.calls, before + IDOf(b))
  {
  }

  lemma {:induction false} BlocksAccepted(parse: Parser, calls: map<string, Known>, before: seq<string>, blocks: seq<Block>)
    requires HoldsIDs(calls, before)
    ensures EncodeBlocks(parse, calls, blocks).Ok? <==> BlocksFit(parse, false, before, blocks)
    ensures EncodeBlocks(parse, calls, blocks).Ok? ==>
      HoldsIDs(EncodeBlocks(parse, calls, blocks).value.calls, before + FlatMap(IDOf, blocks))
  {
    hide HoldsIDs, BlockFits, EncodeBlock;
    if blocks == [] {
      assert before + [] == before;
    } else {
      var front, b := blocks[..|blocks| - 1], blocks[|blocks| - 1];
      assert blocks == front + [b] && before + FlatMap(IDOf, blocks) == before + FlatMap(IDOf, front) + IDOf(b);
      BlocksAccepted(parse, calls, before, front);
      BlocksFitMore(parse, false, before, front, b);
      if EncodeBlocks(parse, calls, front).Ok? {
        BlockAccepted(parse, EncodeBlocks(parse, calls, front).value, before + FlatMap(IDOf, front), b);
      }
      hide BlocksFit, FlatMap;
    }
  }

  lemma {:induction false} EnterAccepted(parse: Parser, calls: map<string, Known>, before: seq<string>, blocks: seq<Block>)
    requires HoldsIDs(calls, before)
    ensures Enter(calls, blocks).Ok? <==> BlocksFit(parse, true, before, blocks)
    ensures Enter(calls, blocks).Ok? ==> HoldsIDs(Enter(calls, blocks).value, before + FlatMap(IDOf, blocks))
  {
    if blocks == [] {
      assert before + [] == before;
    } else {
      var front, b := blocks[..|blocks| - 1], blocks[|blocks| - 1];
      assert blocks == front + [b] && before + FlatMap(IDOf, blocks) == before + FlatMap(IDOf, front) + IDOf(b);
      EnterAccepted(parse, calls, before, front);
      BlocksFitMore(parse, true, before, front, b);
      hide BlocksFit, FlatMap;
    }
  }

  /** The message can be sent after those before it. */
  predicate MessageFits(parse: Parser, ms: seq<Message>, i: nat)
    requires i < |ms|
  {
    BlocksFit(parse, ms[i].restored.Some?, FlatMap(IDsIn, ms[..i]), ms[i].blocks)
  }

  lemma MessageAccepted(parse: Parser, s: Progress, before: seq<string>, m: Message)
    requires s.previousResults ==> s.entries != [] && s.entries[|s.entries| - 1].Parts?
    requires HoldsIDs(s.calls, before)
    ensures EncodeMessage(parse, s, m).Ok? <==> BlocksFit(parse, m.restored.Some?, before, m.blocks)
    ensures EncodeMessage(parse, s, m).Ok? ==> HoldsIDs(EncodeMessage(parse, s, m).value.calls, before + IDsIn(m))
  {
    hide EncodeBlocks, Enter, BlocksFit, HoldsIDs, FlatMap;
    if m.restored.Some? { EnterAccepted(parse, s.calls, before, m.blocks); } else { BlocksAccepted(parse, s.calls, before, m.blocks); }
  }

  /** Main result: a request is accepted exactly if no call ID stands in it twice and every message that is
      not a restored turn has only text, inline pictures, complete calls with JSON arguments, and answers to
      calls before them. */
  lemma {:induction false} RequestAccepted(parse: Parser, ms: seq<Message>)
    ensures Encode(parse, ms).Ok? <==> forall i | 0 <= i < |ms| :: MessageFits(parse, ms, i)
    ensures Encode(parse, ms).Ok? ==> HoldsIDs(Encode(parse, ms).value.calls, FlatMap(IDsIn, ms))
  {
    hide BlocksFit, HoldsIDs, EncodeMessage, IDsIn;
    if ms == [] {
      NoIDs();
    } else {
      var front, m := ms[..|ms| - 1], ms[|ms| - 1];
      assert ms == front + [m];
      RequestAccepted(parse, front);
      FitsMore(parse, front, m);
      if Encode(parse, front).Ok? { MessageAccepted(parse, Encode(parse, front).value, FlatMap(IDsIn, front), m); }
      hide FlatMap, MessageFits;
    }
  }

  lemma FitsMore(parse: Parser, front: seq<Message>, m: Message)
    ensures (forall i | 0 <= i < |front + [m]| :: MessageFits(parse, front + [m], i)) <==>
      (forall i | 0 <= i < |front| :: MessageFits(parse, front, i))
      && BlocksFit(parse, m.restored.Some?, FlatMap(IDsIn, front), m.blocks)
    ensures FlatMap(IDsIn, front + [m]) == FlatMap(IDsIn, front) + IDsIn(m)
  {
    hide BlocksFit;
    var ms := front + [m];
    FlatMapMore(IDsIn, front, m);
    forall i | 0 <= i < |front| ensures MessageFits(parse, ms, i) == MessageFits(parse, front, i) {
      assert ms[..i] == front[..i];
    }
    assert ms[..|front|] == front;
    assert MessageFits(parse, ms, |front|) == BlocksFit(parse, m.restored.Some?, FlatMap(IDsIn, front), m.blocks);
    hide MessageFits, FlatMap;
  }

  lemma NoIDs()
    ensures HoldsIDs(map[], FlatMap(IDsIn, []))
  {
  }

  /** Every answer that is sent answers a call that stands before it. */
  lemma {:induction false} AnswersKnown(parse: Parser, calls: map<string, Known>, blocks: seq<Block>, j: nat)
    requires EncodeBlocks(parse, calls, blocks).Ok? && j < |blocks| && blocks[j].Answering?
    ensures blocks[j].callID in calls || blocks[j].callID in FlatMap(IDOf, blocks[..j])
  {
    var front := blocks[..|blocks| - 1];
    if j < |blocks| - 1 {
      AnswersKnown(parse, calls, front, j);
      assert front[..j] == blocks[..j];
    } else {
      BlocksEntered(parse, calls, front);
    }
  }

  // ---- the signed round trip ----

  function UpstreamIDOf(b: Block): seq<string> {
    if b.Calling? then [b.upstreamID] else []
  }

  lemma {:induction false} WithIDsFilled(blocks: seq<Block>, ids: seq<string>)
    requires |FlatMap(CallOf, blocks)| <= |ids|
    ensures FlatMap(CallOf, WithIDs(blocks, ids)) == FlatMap(CallOf, blocks)
    ensures FlatMap(UpstreamIDOf, WithIDs(blocks, ids)) == ids[..|FlatMap(CallOf, blocks)|]
    ensures FlatMap(TextIn, WithIDs(blocks, ids)) == FlatMap(TextIn, blocks)
  {
    if blocks != [] {
      var front, last := blocks[..|blocks| - 1], blocks[|blocks| - 1];
      WithIDsFilled(front, ids);
      var r := WithIDs(blocks, ids);
      assert r[..|r| - 1] == WithIDs(front, ids);
    }
  }

  /** A message that is given stored content repeats the stored turn: count, order, IDs, names, arguments
      as JSON, and text; and its calls carry the turn's upstream IDs. */
  lemma RestoredRepeats(read: Parser, history: map<string, Turn>, m: Message)
    requires Sized(history) && m.restored == None && Restore(read, history, m).Ok?
    requires Restore(read, history, m).value.restored.Some?
    ensures var r := Restore(read, history, m).value;
      && (exists k :: k in history && history[k] == r.restored.value)
      && Repeats(read, m, r.restored.value) && CallsIn(r) == CallsIn(m)
      && FlatMap(UpstreamIDOf, r.blocks) == r.restored.value.upstreamIDs
  {
    hide FlatMap;
    var turn := TurnOf(CallsIn(m), history).value;
    TurnFound(CallsIn(m), history);
    WithIDsFilled(m.blocks, turn.upstreamIDs);
    assert turn.upstreamIDs[..|turn.upstreamIDs|] == turn.upstreamIDs;
  }

  /** The message a client sends back after hearing `es`: its text and its calls, arguments possibly
      written differently but reading as the same JSON. */
  ghost predicate Echoes(read: Parser, m: Message, es: seq<Event>) {
    && m.role == "assistant" && (forall b | b in m.blocks :: b.Words? || b.Calling?)
    && |CallsIn(m)| == |Assembled(es)|
    && (forall i | 0 <= i < |CallsIn(m)| ::
          var a, b := CallsIn(m)[i], Assembled(es)[i];
          a.id == b.id && a.name == b.name && read(a.arguments) == read(b.arguments))
    && FlatMap(TextIn, m.blocks) == FlatMap(SaidBy, es)
  }

  /** Reading a text that is one JSON value gives that value. */
  ghost predicate Agrees(read: Parser, parse: Parser) {
    forall s | parse(s).Some? :: read(s) == parse(s)
  }

  /** The turn of a finished run is stored under each of its calls. */
  predicate StoredIn(s: Antigravity.State, history: map<string, Turn>) {
    s.calls != [] && forall call | call in s.calls ::
      call.id in history && history[call.id].parts == s.parts && history[call.id].calls == s.calls
  }

  /** Main result: an echo of what any accepted run returned is accepted and stands for the stored turn,
      which holds every part the upstream sent. */
  lemma {:induction false} EchoRestored(g: Settings, fed: seq<Fed>, read: Parser, m: Message, history: map<string, Turn>)
    requires Run(g, fed).Ok? && g.storing && Run(g, fed).value.state.done && Agrees(read, g.parse)
    requires Echoes(read, m, Run(g, fed).value.events) && m.restored == None && Sized(history)
    requires StoredIn(Run(g, fed).value.state, history)
    ensures var r := Restore(read, history, m);
      r.Ok? && r.value.restored.Some? && r.value.restored.value.parts == FlatMap(FedParts, fed)
  {
    RunKept(g, fed);
    NothingLost(g, fed);
    RunHeard(g, fed);
    hide FlatMap, Run, Meant, Assembled;
    var s := Run(g, fed).value.state;
    var calls := CallsIn(m);
    assert calls[0].id == s.calls[0].id && s.calls[0] in s.calls;
    var turn := history[calls[0].id];
    assert TurnOf(calls, history) == Some(turn);
    assert Repeats(read, m, turn);
  }

  /** Main result: whatever stands around it in the conversation, the echoed message leaves as the stored
      turn with every part the upstream sent, at its place among what the other messages send. */
  lemma {:induction false} EchoLeaves(g: Settings, fed: seq<Fed>, read: Parser, parse: Parser,
                                      ms: seq<Message>, k: nat, history: map<string, Turn>)
    requires Run(g, fed).Ok? && g.storing && Run(g, fed).value.state.done && Agrees(read, g.parse)
    requires k < |ms| && Echoes(read, ms[k], Run(g, fed).value.events) && ms[k].restored == None && Sized(history)
    requires StoredIn(Run(g, fed).value.state, history)
    requires RestoreAll(read, history, ms).Ok? && Encode(parse, RestoreAll(read, history, ms).value).Ok?
    ensures var out := RestoreAll(read, history, ms).value;
      var s := Encode(parse, out).value;
      && |out| == |ms| && out[k].restored.Some? && out[k].restored.value.parts == FlatMap(FedParts, fed)
      && FlatMap(TokensOf, s.entries)
         == SentFrom(s.calls, out, 0, k) + [Signed(out[k].restored.value)] + SentFrom(s.calls, out, k + 1, |out|)
  {
    RestoredEach(read, history, ms, k);
    EchoRestored(g, fed, read, ms[k], history);
    hide *;
    var out := RestoreAll(read, history, ms).value;
    RequestExactly(parse, out);
    SentAround(Encode(parse, out).value.calls, out, k, |out|);
  }

  lemma {:induction false} SentAround(calls: map<string, Known>, ms: seq<Message>, k: nat, n: nat)
    requires k < n <= |ms| && ms[k].restored.Some?
    ensures SentFrom(calls, ms, 0, n) == SentFrom(calls, ms, 0, k) + [Signed(ms[k].restored.value)] + SentFrom(calls, ms, k + 1, n)
  {
    if n > k + 1 { SentAround(calls, ms, k, n - 1); }
  }
}

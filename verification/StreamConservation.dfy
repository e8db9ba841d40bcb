/** Nothing that was fed is lost, invented or moved: for every event sequence and every target, the
    emitted deltas concatenate to exactly what arrived before done, and the completed response
    carries the same strings whole. No precondition on the sequence. */
module StreamConservation {
  import opened Wrappers
  import opened StreamTypes
  import opened StreamSpec
  import opened StreamGrammar
  import opened StreamWireGrammar
  import opened Sequences

  // ---- what was fed ----

  function FedText(ev: Event): string {
    if ev.Text? then ev.delta else ""
  }

  function FedThinking(ev: Event): string {
    if ev.Reasoning? then ev.delta else ""
  }

  function FedArguments(key: string): Event -> string {
    (ev: Event) => if ev.ToolDelta? && KeyOf(ev.index, ev.callID) == key then ev.delta else ""
  }

  /** What an event feeds to the block with this tag and key. */
  function FedTo(tag: Tag, key: string): Event -> string {
    match tag
    case Say => FedText
    case Think => FedThinking
    case Call => FedArguments(key)
  }

  // ---- what was emitted ----

  function Uttered(tag: Tag): Op -> string {
    (op: Op) => if op.Delta? && op.tag == tag then op.text else ""
  }

  function Arguments(n: int): Op -> string {
    (op: Op) => if op.Delta? && op.tag == Call && op.slot == n then op.text else ""
  }

  function SpokenChoice(c: Choice): string {
    if c.content.Some? then c.content.value else ""
  }

  function ThoughtChoice(c: Choice): string {
    if c.reasoning.Some? then c.reasoning.value else ""
  }

  function PieceArguments(n: int): ToolPiece -> string {
    (p: ToolPiece) => if p.index == n then p.arguments else ""
  }

  function PassedChoice(n: int): Choice -> string {
    (c: Choice) => FlatMap(PieceArguments(n), c.tools)
  }

  /** The text carried by a frame. */
  function Spoken(f: Frame): string {
    match f
    case C(Chunk(choices, _)) => FlatMap(SpokenChoice, choices)
    case M(BlockDelta(_, TextChange(t))) => t
    case R(ResponsesFrame(_, TextDelta(_, d))) => d
    case _ => ""
  }

  /** The reasoning carried by a frame. */
  function Thoughts(f: Frame): string {
    match f
    case C(Chunk(choices, _)) => FlatMap(ThoughtChoice, choices)
    case M(BlockDelta(_, ThinkingChange(t))) => t
    case R(ResponsesFrame(_, SummaryDelta(_, d))) => d
    case _ => ""
  }

  /** The arguments a frame carries for the tool at index `n`. */
  function Passed(n: int): Frame -> string {
    (f: Frame) =>
      match f
      case C(Chunk(choices, _)) => FlatMap(PassedChoice(n), choices)
      case M(BlockDelta(i, InputChange(j))) => if i == n then j else ""
      case R(ResponsesFrame(_, ArgsDelta(i, d))) => if i == n then d else ""
      case _ => ""
  }

  // ---- operations ----

  lemma EmittedMore(ops: seq<Op>, more: seq<Op>, f: Op -> string)
    ensures FlatMap(f, ops + more) == FlatMap(f, ops) + FlatMap(f, more)
    ensures more == [] ==> FlatMap(f, more) == ""
    ensures |more| == 1 ==> FlatMap(f, more) == f(more[0])
  {
    FlatMapConcat(f, ops, more);
    if |more| == 1 {
      FlatMapOne(f, more[0]);
      assert more == [more[0]];
    }
  }

  /** Operations without deltas emit nothing. */
  lemma Silent(ops: seq<Op>, f: Op -> string)
    requires forall op | op in ops :: !op.Delta?
    requires forall op: Op | !op.Delta? :: f(op) == ""
    ensures FlatMap(f, ops) == ""
  {
    FlatMapNone(f, ops);
  }

  predicate Holds(blocks: seq<Blk>, tag: Tag, key: string) {
    exists i | 0 <= i < |blocks| :: blocks[i].tag == tag && blocks[i].key == key
  }

  /** From `a` to `b` the block at `n` gained `d`, or was filed with content `d`; all others are as before. */
  predicate Gained(a: seq<Blk>, b: seq<Blk>, n: nat, d: string) {
    && n < |b| && |a| <= |b| && (|b| > |a| ==> n == |a| && |b| == n + 1)
    && (forall i | 0 <= i < |a| && i != n :: b[i] == a[i])
    && (n < |a| ==> b[n].tag == a[n].tag && b[n].key == a[n].key && b[n].content == a[n].content + d)
    && (n == |a| ==> b[n].content == d)
  }

  lemma ProseGained(e: Enc, tag: Tag, d: string)
    requires Keyed(e.blocks) && tag != Call && d != "" && e.protocol != Chat
    ensures var f, n := Prose(e, tag, d).enc, Find(e.blocks, tag, "");
      && Gained(e.blocks, f.blocks, n, d) && Keyed(f.blocks) && f.blocks[n].tag == tag && f.blocks[n].key == ""
      && n <= |e.blocks|
    ensures Prose(e, tag, d).ops[|Prose(e, tag, d).ops| - 1] == Delta(Find(e.blocks, tag, ""), tag, d)
    ensures forall op | op in Prose(e, tag, d).ops[..|Prose(e, tag, d).ops| - 1] :: !op.Delta?
    ensures Prose(e, tag, d).ops != []
  {
    hide Find;
    if Find(e.blocks, tag, "") == |e.blocks| { GrownUnique(e.blocks, Blk(tag, "", "", "", "", false)); }
  }

  lemma CallGained(e: Enc, k: string, id: string, name: string)
    requires Keyed(e.blocks)
    ensures var f, n := Lookup(e, k, id, name), Find(e.blocks, Call, k);
      Gained(e.blocks, f.blocks, n, "") && Keyed(f.blocks) && f.blocks[n].tag == Call && f.blocks[n].key == k
  {
    hide Find, Calls;
    var f, n := Lookup(e, k, id, name), Find(e.blocks, Call, k);
    if n == |e.blocks| { GrownUnique(e.blocks, f.blocks[n]); }
  }

  /** Which block an event feeds, and with what. */
  datatype Feed = Feed(tag: Tag, key: string, text: string)

  function Target(ev: Event): Feed
    requires IsContent(ev)
  {
    match ev
    case Text(_, d) => Feed(Say, "", d)
    case Reasoning(_, d) => Feed(Think, "", d)
    case ToolStart(i, id, _) => Feed(Call, KeyOf(i, id), "")
    case ToolDelta(i, id, d) => Feed(Call, KeyOf(i, id), d)
    case ToolEnd(i, id) => Feed(Call, KeyOf(i, id), "")
  }

  /** The operations carry exactly `d`, for the prose of `tag` or the arguments of the tool at `n`. */
  ghost predicate Carries(ops: seq<Op>, tag: Tag, n: int, d: string) {
    && FlatMap(Uttered(Say), ops) == (if tag == Say then d else "")
    && FlatMap(Uttered(Think), ops) == (if tag == Think then d else "")
    && forall m: int :: FlatMap(Arguments(m), ops) == if tag == Call && m == n then d else ""
  }

  lemma CarriesOne(front: seq<Op>, op: Op)
    requires op.Delta? && forall x | x in front :: !x.Delta?
    ensures Carries(front + [op], op.tag, op.slot, op.text)
  {
    forall f: Op -> string | forall x: Op | !x.Delta? :: f(x) == "" ensures FlatMap(f, front + [op]) == f(op) {
      Silent(front, f);
      EmittedMore(front, [op], f);
    }
  }

  lemma CarriesNone(ops: seq<Op>, tag: Tag, n: int)
    requires forall x | x in ops :: !x.Delta?
    ensures Carries(ops, tag, n, "")
  {
    forall f: Op -> string | forall x: Op | !x.Delta? :: f(x) == "" ensures FlatMap(f, ops) == "" {
      Silent(ops, f);
    }
  }

  predicate Chatty(e: Enc) {
    e.protocol == Chat ==> forall i | 0 <= i < |e.blocks| :: e.blocks[i].tag == Call
  }

  /** One content event feeds its target at `n` and nothing else. */
  ghost predicate Feeds(e: Enc, ev: Event, n: int)
    requires IsContent(ev)
  {
    var t, f := Target(ev), Act(e, ev);
    && Carries(f.ops, t.tag, n, t.text) && Keyed(f.enc.blocks) && Chatty(f.enc)
    && if n < 0 then f.enc.blocks == e.blocks && (t.text == "" || e.protocol == Chat) && t.tag != Call
       else Gained(e.blocks, f.enc.blocks, n, t.text) && f.enc.blocks[n].tag == t.tag && f.enc.blocks[n].key == t.key
  }

  lemma ToolFeeds(e: Enc, ev: Event)
    requires ToolEvent(ev) && Keyed(e.blocks) && Chatty(e)
    ensures Feeds(e, ev, Find(e.blocks, Call, EventKey(ev)))
  {
    hide Find, KeyOf, Calls, Carries, Lookup;
    ActKeeps(e, ev);
    var key := EventKey(ev);
    var n, f := Find(e.blocks, Call, key), Act(e, ev);
    CallGained(e, key, ev.callID, if ev.ToolStart? then ev.name else "");
    if ev.ToolDelta? && ev.delta != "" {
      assert f.ops == [] + [Delta(n, Call, ev.delta)];
      CarriesOne([], Delta(n, Call, ev.delta));
    } else {
      CarriesNone(f.ops, Call, n);
    }
  }

  lemma ChatFeeds(e: Enc, ev: Event, tag: Tag)
    requires (ev.Text? && tag == Say) || (ev.Reasoning? && tag == Think)
    requires Keyed(e.blocks) && Chatty(e) && (ev.delta == "" || e.protocol == Chat)
    ensures Feeds(e, ev, -1)
  {
    hide Find, Carries;
    var f := Act(e, ev);
    if ev.delta == "" {
      CarriesNone(f.ops, tag, -1);
    } else {
      assert Find(e.blocks, tag, "") == |e.blocks|;
      assert f.ops == [] + [Delta(-1, tag, ev.delta)];
      CarriesOne([], Delta(-1, tag, ev.delta));
    }
  }

  lemma BlockFeeds(e: Enc, ev: Event, tag: Tag)
    requires (ev.Text? && tag == Say) || (ev.Reasoning? && tag == Think)
    requires Keyed(e.blocks) && ev.delta != "" && e.protocol != Chat
    ensures Feeds(e, ev, Find(e.blocks, tag, ""))
  {
    hide Find, Carries, Prose;
    ActKeeps(e, ev);
    ProseGained(e, tag, ev.delta);
    var n, f := Find(e.blocks, tag, ""), Act(e, ev);
    var front := f.ops[..|f.ops| - 1];
    assert f.ops == front + [Delta(n, tag, ev.delta)];
    CarriesOne(front, Delta(n, tag, ev.delta));
  }

  lemma ActFeeds(e: Enc, ev: Event) returns (n: int)
    requires IsContent(ev) && Keyed(e.blocks) && Chatty(e)
    ensures Feeds(e, ev, n)
  {
    hide Feeds, Find, KeyOf;
    if ToolEvent(ev) {
      n := Find(e.blocks, Call, EventKey(ev));
      ToolFeeds(e, ev);
    } else {
      var tag := if ev.Text? then Say else Think;
      if ev.delta == "" || e.protocol == Chat {
        n := -1;
        ChatFeeds(e, ev, tag);
      } else {
        n := Find(e.blocks, tag, "");
        BlockFeeds(e, ev, tag);
      }
    }
  }

  /** Every block holds what was fed to it. */
  ghost predicate Stored(e: Enc, es: seq<Event>) {
    && Keyed(e.blocks) && Chatty(e)
    && (forall n | 0 <= n < |e.blocks| :: e.blocks[n].content == FlatMap(FedTo(e.blocks[n].tag, e.blocks[n].key), es))
    && (forall tag, key | (tag == Call || (e.protocol != Chat && key == "")) && !Holds(e.blocks, tag, key) ::
          FlatMap(FedTo(tag, key), es) == "")
  }

  function ContentAt(blocks: seq<Blk>, n: int): string {
    if 0 <= n < |blocks| && blocks[n].tag == Call then blocks[n].content else ""
  }

  /** The operations carried what was fed. */
  ghost predicate Carried(e: Enc, es: seq<Event>, ops: seq<Op>) {
    && FlatMap(Uttered(Say), ops) == FlatMap(FedText, es)
    && FlatMap(Uttered(Think), ops) == FlatMap(FedThinking, es)
    && forall n: int :: FlatMap(Arguments(n), ops) == ContentAt(e.blocks, n)
  }

  ghost predicate Conserved(e: Enc, es: seq<Event>, ops: seq<Op>) {
    Stored(e, es) && Carried(e, es, ops)
  }

  lemma FedMore(f: Event -> string, es: seq<Event>, ev: Event)
    ensures FlatMap(f, es + [ev]) == FlatMap(f, es) + f(ev)
  {
    FlatMapMore(f, es, ev);
  }

  lemma TargetFed(ev: Event, tag: Tag, key: string)
    ensures FedTo(tag, key)(ev)
         == if IsContent(ev) && Target(ev).tag == tag && (tag == Call ==> Target(ev).key == key) then Target(ev).text else ""
  {
  }

  lemma StillHeld(a: seq<Blk>, b: seq<Blk>, tag: Tag, key: string)
    requires |a| <= |b| && forall i | 0 <= i < |a| :: a[i].tag == b[i].tag && a[i].key == b[i].key
    requires !Holds(b, tag, key)
    ensures !Holds(a, tag, key)
  {
  }

  lemma StoredMore(e: Enc, f: Enc, es: seq<Event>, ev: Event, n: int)
    requires Stored(e, es) && IsContent(ev) && Keyed(f.blocks) && Chatty(f) && f.protocol == e.protocol
    requires var t := Target(ev);
      if n < 0 then f.blocks == e.blocks && (t.text == "" || e.protocol == Chat) && t.tag != Call
      else Gained(e.blocks, f.blocks, n, t.text) && f.blocks[n].tag == t.tag && f.blocks[n].key == t.key
    ensures Stored(f, es + [ev])
  {
    hide FlatMap, FedTo, Holds, Target;
    var t := Target(ev);
    forall i | 0 <= i < |f.blocks|
      ensures f.blocks[i].content == FlatMap(FedTo(f.blocks[i].tag, f.blocks[i].key), es + [ev])
    {
      var tag, key := f.blocks[i].tag, f.blocks[i].key;
      FedMore(FedTo(tag, key), es, ev);
      TargetFed(ev, tag, key);
      if i == |e.blocks| {
        Absent(f.blocks, i);
      }
    }
    forall tag, key | (tag == Call || (e.protocol != Chat && key == "")) && !Holds(f.blocks, tag, key)
      ensures FlatMap(FedTo(tag, key), es + [ev]) == ""
    {
      FedMore(FedTo(tag, key), es, ev);
      TargetFed(ev, tag, key);
      StillHeld(e.blocks, f.blocks, tag, key);
      if n >= 0 { NotHeld(f.blocks, n, tag, key); }
    }
  }

  lemma Absent(blocks: seq<Blk>, i: nat)
    requires Unique(blocks) && i == |blocks| - 1
    ensures forall a: seq<Blk> | |a| == i && (forall j | 0 <= j < i :: a[j].tag == blocks[j].tag && a[j].key == blocks[j].key) ::
      !Holds(a, blocks[i].tag, blocks[i].key)
  {
  }

  lemma NotHeld(blocks: seq<Blk>, n: nat, tag: Tag, key: string)
    requires n < |blocks| && !Holds(blocks, tag, key)
    ensures !(blocks[n].tag == tag && blocks[n].key == key)
  {
  }

  lemma CarriedMore(e: Enc, f: Enc, es: seq<Event>, ops: seq<Op>, ev: Event, n: int, more: seq<Op>)
    requires Carried(e, es, ops) && IsContent(ev)
    requires Carries(more, Target(ev).tag, n, Target(ev).text)
    requires var t := Target(ev);
      if n < 0 then f.blocks == e.blocks && t.tag != Call
      else Gained(e.blocks, f.blocks, n, t.text) && f.blocks[n].tag == t.tag
    ensures Carried(f, es + [ev], ops + more)
  {
    hide FlatMap;
    FedMore(FedText, es, ev);
    FedMore(FedThinking, es, ev);
    EmittedMore(ops, more, Uttered(Say));
    EmittedMore(ops, more, Uttered(Think));
    forall m: int ensures FlatMap(Arguments(m), ops + more) == ContentAt(f.blocks, m) {
      EmittedMore(ops, more, Arguments(m));
    }
  }

  lemma ContentConserved(e: Enc, es: seq<Event>, ops: seq<Op>, ev: Event)
    requires Conserved(e, es, ops) && !e.done && IsContent(ev)
    ensures Conserved(Act(e, ev).enc, es + [ev], ops + Act(e, ev).ops)
  {
    var n := ActFeeds(e, ev);
    ActKeeps(e, ev);
    hide Act, FlatMap, Carries, Carried, Stored, Target;
    StoredMore(e, Act(e, ev).enc, es, ev, n);
    CarriedMore(e, Act(e, ev).enc, es, ops, ev, n, Act(e, ev).ops);
  }

  /** Operations without deltas, and block states that only close, conserve. */
  lemma SilentConserved(e: Enc, f: Enc, es: seq<Event>, ops: seq<Op>, more: seq<Op>)
    requires Conserved(e, es, ops) && f.protocol == e.protocol && |f.blocks| == |e.blocks|
    requires forall op | op in more :: !op.Delta?
    requires forall i | 0 <= i < |e.blocks| :: f.blocks[i] == e.blocks[i].(closed := f.blocks[i].closed)
    ensures Conserved(f, es, ops + more)
  {
    SilentCarried(e, f, es, ops, more);
    SilentStored(e, f, es);
  }

  lemma SilentCarried(e: Enc, f: Enc, es: seq<Event>, ops: seq<Op>, more: seq<Op>)
    requires Carried(e, es, ops) && |f.blocks| == |e.blocks| && forall op | op in more :: !op.Delta?
    requires forall i | 0 <= i < |e.blocks| :: f.blocks[i] == e.blocks[i].(closed := f.blocks[i].closed)
    ensures Carried(f, es, ops + more)
  {
    CarriesNone(more, Say, 0);
    hide FlatMap;
    EmittedMore(ops, more, Uttered(Say));
    EmittedMore(ops, more, Uttered(Think));
    forall m: int ensures FlatMap(Arguments(m), ops + more) == ContentAt(f.blocks, m) {
      EmittedMore(ops, more, Arguments(m));
      assert ContentAt(f.blocks, m) == ContentAt(e.blocks, m);
    }
  }

  lemma SilentStored(e: Enc, f: Enc, es: seq<Event>)
    requires Stored(e, es) && f.protocol == e.protocol && |f.blocks| == |e.blocks|
    requires forall i | 0 <= i < |e.blocks| :: f.blocks[i] == e.blocks[i].(closed := f.blocks[i].closed)
    ensures Stored(f, es)
  {
    hide FlatMap, FedTo, Holds;
    forall tag, key | (tag == Call || (e.protocol != Chat && key == "")) && !Holds(f.blocks, tag, key)
      ensures FlatMap(FedTo(tag, key), es) == ""
    {
      StillHeld(e.blocks, f.blocks, tag, key);
    }
  }

  lemma PrepareConserved(e: Enc, es: seq<Event>, ops: seq<Op>, ev: Event)
    requires Conserved(e, es, ops)
    ensures Conserved(Prepare(e, ev).enc, es, ops + Prepare(e, ev).ops)
  {
    var s, p := EnsureStarted(e), Prepare(e, ev);
    hide Conserved;
    assert Keyed(e.blocks) by { ConservedKeyed(e, es, ops); }
    if !ev.Reasoning? { CloseProseLane(s.enc, Think, [], 0); }
    hide CloseProse;
    SilentConserved(e, p.enc, es, ops, p.ops);
  }

  lemma ConservedKeyed(e: Enc, es: seq<Event>, ops: seq<Op>)
    requires Conserved(e, es, ops)
    ensures Keyed(e.blocks)
  {
  }

  lemma StepConserved(e: Enc, es: seq<Event>, ops: seq<Op>, ev: Event)
    requires Conserved(e, es, ops) && !e.done && !ev.Done?
    ensures Conserved(Step(e, ev).enc, es + [ev], ops + Step(e, ev).ops)
  {
    hide Conserved;
    if IsContent(ev) {
      var p := Prepare(e, ev);
      PrepareConserved(e, es, ops, ev);
      PrepareKeeps(e, ev);
      ContentConserved(p.enc, es, ops + p.ops, ev);
      assert (ops + p.ops) + Act(p.enc, ev).ops == ops + Step(e, ev).ops;
    } else {
      QuietConserved(e, Step(e, ev).enc, es, ops, ev);
      assert ops + [] == ops;
    }
  }

  lemma QuietConserved(e: Enc, f: Enc, es: seq<Event>, ops: seq<Op>, ev: Event)
    requires Conserved(e, es, ops) && !IsContent(ev) && f.protocol == e.protocol && f.blocks == e.blocks
    ensures Conserved(f, es + [ev], ops)
  {
    hide FlatMap, FedTo, Holds;
    forall tag, key ensures FlatMap(FedTo(tag, key), es + [ev]) == FlatMap(FedTo(tag, key), es) {
      FedMore(FedTo(tag, key), es, ev);
      TargetFed(ev, tag, key);
    }
    FedMore(FedText, es, ev);
    FedMore(FedThinking, es, ev);
  }

  lemma {:induction false} RunConserved(protocol: Protocol, omitUsage: bool, es: seq<Event>)
    requires Undone(es)
    ensures var r := Run(protocol, omitUsage, es); Conserved(r.enc, es, r.ops)
  {
    hide Step, Conserved, Led;
    if es == [] {
      FreshConserved(protocol, omitUsage);
    } else {
      var front, last := es[..|es| - 1], es[|es| - 1];
      RunConserved(protocol, omitUsage, front);
      RunLed(protocol, omitUsage, front);
      var r := Run(protocol, omitUsage, front);
      StepConserved(r.enc, front, r.ops, last);
      assert es == front + [last];
    }
  }

  lemma FreshConserved(protocol: Protocol, omitUsage: bool)
    ensures Conserved(Fresh(protocol, omitUsage), [], [])
  {
  }

  // ---- on the wire ----

  lemma {:induction false} Rendered(protocol: Protocol, n: nat, ops: seq<Op>, f: Frame -> string, g: Op -> string)
    requires forall m: nat, op :: FlatMap(f, Render(protocol, m, [op])) == g(op)
    ensures FlatMap(f, Render(protocol, n, ops)) == FlatMap(g, ops)
  {
    if ops == [] {
      assert Render(protocol, n, ops) == [];
    } else {
      hide Render;
      var front, last := ops[..|ops| - 1], ops[|ops| - 1];
      assert ops == front + [last];
      Rendered(protocol, n, front, f, g);
      RenderConcat(protocol, n, front, [last]);
      FlatMapConcat(f, Render(protocol, n, front), Render(protocol, n + |Render(protocol, n, front)|, [last]));
    }
  }

  lemma Small<A>(f: A -> string, s: seq<A>)
    requires |s| <= 3
    ensures s == [] ==> FlatMap(f, s) == ""
    ensures |s| == 1 ==> FlatMap(f, s) == f(s[0])
    ensures |s| == 2 ==> FlatMap(f, s) == f(s[0]) + f(s[1])
    ensures |s| == 3 ==> FlatMap(f, s) == f(s[0]) + f(s[1]) + f(s[2])
  {
    if |s| == 1 { FlatMapOne(f, s[0]); assert s == [s[0]]; }
    if |s| >= 2 { FlatMapOne(f, s[0]); FlatMapMore(f, [s[0]], s[1]); assert s[..2] == [s[0]] + [s[1]]; assert |s| == 2 ==> s == s[..2]; }
    if |s| == 3 { FlatMapMore(f, s[..2], s[2]); assert s == s[..2] + [s[2]]; }
  }

  lemma ChatCarries(f: ChatFrame, n: int)
    requires f.Chunk? && |f.choices| == 1 && |f.choices[0].tools| <= 1
    ensures Spoken(C(f)) == SpokenChoice(f.choices[0])
    ensures Thoughts(C(f)) == ThoughtChoice(f.choices[0])
    ensures Passed(n)(C(f)) == if f.choices[0].tools == [] then "" else PieceArguments(n)(f.choices[0].tools[0])
  {
    Small(SpokenChoice, f.choices);
    Small(ThoughtChoice, f.choices);
    Small(PassedChoice(n), f.choices);
    Small(PieceArguments(n), f.choices[0].tools);
  }

  lemma FrameCarries(protocol: Protocol, m: nat, op: Op, n: int)
    ensures FlatMap(Spoken, Render(protocol, m, [op])) == Uttered(Say)(op)
    ensures FlatMap(Thoughts, Render(protocol, m, [op])) == Uttered(Think)(op)
    ensures FlatMap(Passed(n), Render(protocol, m, [op])) == Arguments(n)(op)
  {
    match protocol
    case Chat => ChatFramesCarry(m, op, n);
    case Messages => MessagesFramesCarry(m, op, n);
    case Responses => ResponsesFramesCarry(m, op, n);
  }

  lemma ChatFramesCarry(m: nat, op: Op, n: int)
    ensures FlatMap(Spoken, Render(Chat, m, [op])) == Uttered(Say)(op)
    ensures FlatMap(Thoughts, Render(Chat, m, [op])) == Uttered(Think)(op)
    ensures FlatMap(Passed(n), Render(Chat, m, [op])) == Arguments(n)(op)
  {
    RenderOne(Chat, m, op);
    var frames := Render(Chat, m, [op]);
    hide Render, FlatMap;
    if frames != [] { ChatCarries(ChatFrames(op)[0], n); }
    Small(Spoken, frames);
    Small(Thoughts, frames);
    Small(Passed(n), frames);
  }

  lemma MessagesFramesCarry(m: nat, op: Op, n: int)
    ensures FlatMap(Spoken, Render(Messages, m, [op])) == Uttered(Say)(op)
    ensures FlatMap(Thoughts, Render(Messages, m, [op])) == Uttered(Think)(op)
    ensures FlatMap(Passed(n), Render(Messages, m, [op])) == Arguments(n)(op)
  {
    RenderOne(Messages, m, op);
    var frames := Render(Messages, m, [op]);
    hide Render, FlatMap;
    Small(Spoken, frames);
    Small(Thoughts, frames);
    Small(Passed(n), frames);
  }

  lemma ResponsesFramesCarry(m: nat, op: Op, n: int)
    ensures FlatMap(Spoken, Render(Responses, m, [op])) == Uttered(Say)(op)
    ensures FlatMap(Thoughts, Render(Responses, m, [op])) == Uttered(Think)(op)
    ensures FlatMap(Passed(n), Render(Responses, m, [op])) == Arguments(n)(op)
  {
    RenderOne(Responses, m, op);
    var frames := Render(Responses, m, [op]);
    hide Render, FlatMap;
    Small(Spoken, frames);
    Small(Thoughts, frames);
    Small(Passed(n), frames);
  }

  /** Main result: the text and the reasoning the client receives are exactly what was fed. */
  lemma {:induction false} ProseArrives(protocol: Protocol, omitUsage: bool, es: seq<Event>)
    requires Undone(es)
    ensures FlatMap(Spoken, Encode(protocol, omitUsage, es + [Done])) == FlatMap(FedText, es)
    ensures FlatMap(Thoughts, Encode(protocol, omitUsage, es + [Done])) == FlatMap(FedThinking, es)
  {
    AllCarried(protocol, omitUsage, es);
    hide Run, FlatMap, Find, Render;
    var ops := Run(protocol, omitUsage, es + [Done]).ops;
    forall m: nat, op { FrameCarries(protocol, m, op, 0); }
    Rendered(protocol, 0, ops, Spoken, Uttered(Say));
    Rendered(protocol, 0, ops, Thoughts, Uttered(Think));
  }

  /** Main result: the arguments received at a tool's index are exactly what was fed under its key. */
  lemma {:induction false} ArgumentsArrive(protocol: Protocol, omitUsage: bool, es: seq<Event>, key: string)
    requires Undone(es)
    ensures var blocks := Run(protocol, omitUsage, es).enc.blocks;
      var n := Find(blocks, Call, key);
      if n < |blocks| then FlatMap(Passed(n), Encode(protocol, omitUsage, es + [Done])) == FlatMap(FedArguments(key), es)
      else FlatMap(FedArguments(key), es) == ""
  {
    RunConserved(protocol, omitUsage, es);
    AllCarried(protocol, omitUsage, es);
    hide Run, FlatMap, Find, Render;
    var e := Run(protocol, omitUsage, es).enc;
    var n := Find(e.blocks, Call, key);
    assert FedTo(Call, key) == FedArguments(key);
    if n < |e.blocks| {
      forall m: nat, op { FrameCarries(protocol, m, op, n); }
      Rendered(protocol, 0, Run(protocol, omitUsage, es + [Done]).ops, Passed(n), Arguments(n));
    } else {
      assert !Holds(e.blocks, Call, key);
    }
  }

  /** Finishing carries nothing more. */
  lemma AllCarried(protocol: Protocol, omitUsage: bool, es: seq<Event>)
    requires Undone(es)
    ensures Carried(Run(protocol, omitUsage, es).enc, es, Run(protocol, omitUsage, es + [Done]).ops)
    ensures Run(protocol, omitUsage, es + [Done]).enc.blocks == Shut(Run(protocol, omitUsage, es).enc.blocks)
  {
    hide Run, CloseAll, Carried, Stored, Led, Lane, Closing;
    RunConserved(protocol, omitUsage, es);
    RunLed(protocol, omitUsage, es);
    RunDone(protocol, omitUsage, es);
    var r := Run(protocol, omitUsage, es);
    var s := EnsureStarted(r.enc.(done := true));
    ConservedKeyed(r.enc, es, r.ops);
    CloseAllLane(s.enc, 0);
    SilentCarried(r.enc, r.enc, es, r.ops, FinishStream(r.enc).ops);
  }

  lemma LastOp(protocol: Protocol, omitUsage: bool, es: seq<Event>) returns (front: seq<Op>, last: Op)
    requires Undone(es)
    ensures Run(protocol, omitUsage, es + [Done]).ops == front + [last]
    ensures var e := Run(protocol, omitUsage, es).enc;
      last == End(if e.stop == "" then "stop" else e.stop, e.usage, e.omitUsage,
                  if e.protocol == Responses then Output(Shut(e.blocks)) else [])
  {
    RunLed(protocol, omitUsage, es);
    RunConserved(protocol, omitUsage, es);
    RunDone(protocol, omitUsage, es);
    var r := Run(protocol, omitUsage, es);
    var s := EnsureStarted(r.enc.(done := true));
    CloseAllLane(s.enc, 0);
    hide Run, CloseAll, FlatMap, Inv, Conserved;
    var c := CloseAll(s.enc);
    front, last := r.ops + (s.ops + c.ops), Conclude(c.enc).ops[0];
    assert FinishStream(r.enc).ops == s.ops + c.ops + [last];
  }

  lemma LastRendered(front: seq<Op>, last: Op)
    requires last.End?
    ensures var frames := Render(Responses, 0, front + [last]);
      && frames != [] && frames[|frames| - 1].R?
      && frames[|frames| - 1].response.body == Completed("completed", "", last.output, ResponsesUsage(last.usage))
  {
    hide Render;
    RenderConcat(Responses, 0, front, [last]);
    RenderOne(Responses, |Render(Responses, 0, front)|, last);
  }

  lemma LastFrame(omitUsage: bool, es: seq<Event>)
    requires Undone(es)
    ensures var frames, blocks := Encode(Responses, omitUsage, es + [Done]), Run(Responses, omitUsage, es).enc.blocks;
      && frames != [] && frames[|frames| - 1].R? && frames[|frames| - 1].response.body.Completed?
      && frames[|frames| - 1].response.body.output == Output(Shut(blocks))
  {
    hide Run, Inv, Render, Output;
    RunInv(Responses, omitUsage, es);
    var front, last := LastOp(Responses, omitUsage, es);
    LastRendered(front, last);
  }

  /** The completed response carries, at each index, the whole of what was fed to that block. */
  lemma {:induction false} CompletedWhole(omitUsage: bool, es: seq<Event>)
    requires Undone(es)
    ensures var frames, blocks := Encode(Responses, omitUsage, es + [Done]), Run(Responses, omitUsage, es).enc.blocks;
      && frames != [] && frames[|frames| - 1].R? && frames[|frames| - 1].response.body.Completed?
      && var output := frames[|frames| - 1].response.body.output;
      && |output| == |blocks|
      && forall n | 0 <= n < |blocks| ::
           output[n] == Some(ItemOf(blocks[n].(content := FlatMap(FedTo(blocks[n].tag, blocks[n].key), es))))
  {
    RunConserved(Responses, omitUsage, es);
    hide Run, FlatMap, Encode, FedTo;
    LastFrame(omitUsage, es);
    var blocks := Run(Responses, omitUsage, es).enc.blocks;
    forall n | 0 <= n < |blocks|
      ensures Output(Shut(blocks))[n] == Some(ItemOf(blocks[n].(content := FlatMap(FedTo(blocks[n].tag, blocks[n].key), es))))
    {
      assert blocks[n].content == FlatMap(FedTo(blocks[n].tag, blocks[n].key), es);
    }
  }

  /** Nothing is emitted after done, whatever still arrives. */
  lemma {:induction false} SilentAfterDone(protocol: Protocol, omitUsage: bool, es: seq<Event>, rest: seq<Event>)
    ensures Encode(protocol, omitUsage, es + [Done] + rest) == Encode(protocol, omitUsage, es + [Done])
  {
    AfterDone(protocol, omitUsage, es, rest);
  }

  lemma {:induction false} AfterDone(protocol: Protocol, omitUsage: bool, es: seq<Event>, rest: seq<Event>)
    ensures Run(protocol, omitUsage, es + [Done] + rest) == Run(protocol, omitUsage, es + [Done])
    ensures Run(protocol, omitUsage, es + [Done]).enc.done
  {
    if rest == [] {
      hide FinishStream;
      assert es + [Done] + rest == es + [Done];
      RunDone(protocol, omitUsage, es);
      DoneStays(Run(protocol, omitUsage, es).enc);
    } else {
      var front, last := rest[..|rest| - 1], rest[|rest| - 1];
      assert es + [Done] + rest == (es + [Done] + front) + [last];
      AfterDone(protocol, omitUsage, es, front);
      StillDone(protocol, omitUsage, es + [Done] + front, last);
    }
  }

  lemma StillDone(protocol: Protocol, omitUsage: bool, es: seq<Event>, ev: Event)
    requires Run(protocol, omitUsage, es).enc.done
    ensures Run(protocol, omitUsage, es + [ev]) == Run(protocol, omitUsage, es)
  {
    hide FinishStream, Prepare, Act;
    assert (es + [ev])[..|es|] == es;
    assert Run(protocol, omitUsage, es).ops + [] == Run(protocol, omitUsage, es).ops;
  }

  lemma DoneStays(e: Enc)
    ensures FinishStream(e).enc.done
  {
    if !e.done {
      var s := EnsureStarted(e.(done := true)).enc;
      CloseCallsBlocks(s, |s.blocks|);
    }
  }
}

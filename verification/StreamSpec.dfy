/** The stream encoder as a function: every canonical event turns the encoder state into the next one
    and yields operations on numbered blocks, and `Render` prints an operation as wire frames. */
module StreamSpec {
  import opened Wrappers
  import opened StreamTypes
  import Decimal
  import opened Sequences

  datatype Tag = Think | Say | Call

  /** Operations on blocks. `slot` is the block index (Messages), the output index (Responses) or the
      tool index (Chat); Chat text and reasoning have no block and use -1. */
  datatype Op =
    | Begin(usage: Usage)
    | Open(slot: int, tag: Tag, callID: string, name: string)
    | Delta(slot: int, tag: Tag, text: string)
    | Close(slot: int, tag: Tag, callID: string, name: string, whole: string)
    | End(stop: string, usage: Usage, omitUsage: bool, output: seq<Option<Item>>)

  /** A block in the order it was allocated: its index is its position. Text and reasoning have the empty key. */
  datatype Blk = Blk(tag: Tag, key: string, callID: string, name: string, content: string, closed: bool)

  datatype Enc = Enc(
    protocol: Protocol, omitUsage: bool,
    started: bool, done: bool, stop: string, usage: Usage, blocks: seq<Blk>)

  datatype Stepped = Stepped(enc: Enc, ops: seq<Op>)

  function Fresh(protocol: Protocol, omitUsage: bool): Enc {
    Enc(protocol, omitUsage, false, false, "", NO_USAGE, [])
  }

  /** The key a tool event is filed under. */
  function KeyOf(index: int, callID: string): string {
    if callID == "" then "index:" + Decimal.Text(index) else callID
  }

  /** Position of the block with this tag and key, or the number of blocks. */
  function Find(blocks: seq<Blk>, tag: Tag, key: string): (n: nat)
    ensures n <= |blocks|
    ensures n < |blocks| ==> blocks[n].tag == tag && blocks[n].key == key
    ensures forall i | 0 <= i < n :: !(blocks[i].tag == tag && blocks[i].key == key)
  {
    if blocks == [] then 0
    else if blocks[|blocks| - 1].tag == tag && blocks[|blocks| - 1].key == key
         && Find(blocks[..|blocks| - 1], tag, key) == |blocks| - 1 then |blocks| - 1
    else
      var n := Find(blocks[..|blocks| - 1], tag, key);
      if n == |blocks| - 1 then |blocks| else n
  }

  function Calls(blocks: seq<Blk>): nat {
    if blocks == [] then 0
    else Calls(blocks[..|blocks| - 1]) + if blocks[|blocks| - 1].tag == Call then 1 else 0
  }

  function NewCall(blocks: seq<Blk>, key: string, callID: string, name: string): Blk {
    Blk(Call, key, if callID == "" then "call_" + Decimal.Text(Calls(blocks)) else callID, name, "", false)
  }

  function Recall(b: Blk, callID: string, name: string): Blk {
    b.(callID := if b.callID == "" then callID else b.callID, name := if b.name == "" then name else b.name)
  }

  /** The encoder after looking a tool up: found and completed, or filed as a new block. */
  function Lookup(e: Enc, key: string, callID: string, name: string): (r: Enc)
    ensures Find(e.blocks, Call, key) < |r.blocks|
  {
    var n := Find(e.blocks, Call, key);
    if n < |e.blocks| then
      e.(blocks := e.blocks[n := Recall(e.blocks[n], callID, name)])
    else
      e.(blocks := e.blocks + [NewCall(e.blocks, key, callID, name)])
  }

  function EnsureStarted(e: Enc): Stepped {
    if e.started then Stepped(e, []) else Stepped(e.(started := true), [Begin(e.usage)])
  }

  /** Opens the text or reasoning block on first use. Chat has no such block. */
  function OpenProse(e: Enc, tag: Tag): Stepped {
    if e.protocol == Chat || Find(e.blocks, tag, "") < |e.blocks| then Stepped(e, [])
    else Stepped(e.(blocks := e.blocks + [Blk(tag, "", "", "", "", false)]), [Open(|e.blocks|, tag, "", "")])
  }

  function OpenCall(e: Enc, n: nat): Stepped
    requires n < |e.blocks|
  {
    Stepped(e, [Open(n, Call, e.blocks[n].callID, e.blocks[n].name)])
  }

  function Append(e: Enc, n: nat, d: string): Stepped
    requires n < |e.blocks|
  {
    var b := e.blocks[n];
    Stepped(e.(blocks := e.blocks[n := b.(content := b.content + d)]), [Delta(n, b.tag, d)])
  }

  function AppendProse(e: Enc, tag: Tag, d: string): Stepped {
    var n := Find(e.blocks, tag, "");
    if n < |e.blocks| then Append(e, n, d) else Stepped(e, [Delta(-1, tag, d)])
  }

  function CloseBlock(e: Enc, n: nat): Stepped
    requires n < |e.blocks|
  {
    var b := e.blocks[n];
    if b.closed then Stepped(e, [])
    else Stepped(e.(blocks := e.blocks[n := b.(closed := true)]), [Close(n, b.tag, b.callID, b.name, b.content)])
  }

  function CloseProse(e: Enc, tag: Tag): Stepped {
    var n := Find(e.blocks, tag, "");
    if n < |e.blocks| then CloseBlock(e, n) else Stepped(e, [])
  }

  /** Closes the tool blocks below position `n`, in order. */
  function CloseCalls(e: Enc, n: nat): (r: Stepped)
    requires n <= |e.blocks|
    ensures |r.enc.blocks| == |e.blocks|
  {
    if n == 0 then Stepped(e, [])
    else
      var s := CloseCalls(e, n - 1);
      if s.enc.blocks[n - 1].tag == Call then
        var t := CloseBlock(s.enc, n - 1);
        Stepped(t.enc, s.ops + t.ops)
      else s
  }

  /** Runs `f` after `s`. */
  function Then(s: Stepped, f: Enc -> Stepped): Stepped {
    var t := f(s.enc);
    Stepped(t.enc, s.ops + t.ops)
  }

  function ItemOf(b: Blk): Item {
    match b.tag
    case Think => ReasoningItem(if b.content == "" then [] else [b.content])
    case Say => MessageItem(true, [b.content])
    case Call => CallItem(true, b.callID, b.name, b.content)
  }

  /** The output of the completed response: one item for each block, at its index. */
  function Output(blocks: seq<Blk>): seq<Option<Item>> {
    seq(|blocks|, i requires 0 <= i < |blocks| => Some(ItemOf(blocks[i])))
  }

  function Conclude(e: Enc): Stepped {
    var stop := if e.stop == "" then "stop" else e.stop;
    Stepped(e.(stop := stop),
            [End(stop, e.usage, e.omitUsage, if e.protocol == Responses then Output(e.blocks) else [])])
  }

  function CloseAll(e: Enc): Stepped {
    var s := CloseCalls(e, |e.blocks|);
    var t := Then(s, (e: Enc) => CloseProse(e, Think));
    Then(t, (e: Enc) => CloseProse(e, Say))
  }

  function FinishStream(e: Enc): Stepped {
    if e.done then Stepped(e, [])
    else
      var s := EnsureStarted(e.(done := true));
      var t := Then(s, CloseAll);
      Then(t, Conclude)
  }

  predicate IsContent(ev: Event) {
    ev.Text? || ev.Reasoning? || ev.ToolStart? || ev.ToolDelta? || ev.ToolEnd?
  }

  /** What every content event does before its own block operations. */
  function Prepare(e: Enc, ev: Event): Stepped {
    var s := EnsureStarted(e);
    if ev.Reasoning? then s else Then(s, (e: Enc) => CloseProse(e, Think))
  }

  function Prose(e: Enc, tag: Tag, d: string): Stepped {
    if d == "" then Stepped(e, []) else Then(OpenProse(e, tag), (e: Enc) => AppendProse(e, tag, d))
  }

  function Act(e: Enc, ev: Event): Stepped
    requires IsContent(ev)
  {
    match ev
    case Text(_, d) => Prose(e, Say, d)
    case Reasoning(_, d) => Prose(e, Think, d)
    case ToolStart(i, id, name) =>
      OpenCall(Lookup(e, KeyOf(i, id), id, name), Find(e.blocks, Call, KeyOf(i, id)))
    case ToolDelta(i, id, d) =>
      var f := Lookup(e, KeyOf(i, id), id, "");
      if d == "" then Stepped(f, []) else Append(f, Find(e.blocks, Call, KeyOf(i, id)), d)
    case ToolEnd(i, id) =>
      CloseBlock(Lookup(e, KeyOf(i, id), id, ""), Find(e.blocks, Call, KeyOf(i, id)))
  }

  function Step(e: Enc, ev: Event): Stepped {
    if e.done then Stepped(e, [])
    else match ev
      case Start => Stepped(e, [])
      case UsageSeen(u) => Stepped(e.(usage := MergeUsage(e.usage, u)), [])
      case Finish(stop) => Stepped(e.(stop := stop), [])
      case Done => FinishStream(e)
      case _ => Then(Prepare(e, ev), (e: Enc) => Act(e, ev))
  }

  /** Feeding a whole sequence to a fresh encoder. */
  function Run(protocol: Protocol, omitUsage: bool, es: seq<Event>): Stepped {
    if es == [] then Stepped(Fresh(protocol, omitUsage), [])
    else Then(Run(protocol, omitUsage, es[..|es| - 1]), (e: Enc) => Step(e, es[|es| - 1]))
  }

  // Printing operations as frames.
  function ChatFrames(op: Op): seq<ChatFrame> {
    match op
    case Begin(_) => [Chunk([Choice(None, Some(""), [], None)], NO_USAGE)]
    case Open(n, _, id, name) => [Chunk([Choice(None, None, [ToolPiece(n, id, name, "")], None)], NO_USAGE)]
    case Delta(_, Think, d) => [Chunk([Choice(Some(d), None, [], None)], NO_USAGE)]
    case Delta(_, Say, d) => [Chunk([Choice(None, Some(d), [], None)], NO_USAGE)]
    case Delta(n, Call, d) => [Chunk([Choice(None, None, [ToolPiece(n, "", "", d)], None)], NO_USAGE)]
    case Close(_, _, _, _, _) => []
    case End(stop, u, omit, _) =>
      [Chunk([Choice(None, None, [], Some(ChatStop(stop)))],
             if UsagePresent(u) && !omit then ChatUsage(u) else NO_USAGE),
       DoneMarker]
  }

  function MessagesFrames(op: Op): seq<MessagesFrame> {
    match op
    case Begin(u) => [MessageStart(MessagesUsage(u))]
    case Open(n, Think, _, _) => [BlockStart(n, ThinkingBlock(""))]
    case Open(n, Say, _, _) => [BlockStart(n, TextBlock(""))]
    case Open(n, Call, id, name) => [BlockStart(n, ToolUseBlock(id, name, "{}"))]
    case Delta(n, Think, d) => [BlockDelta(n, ThinkingChange(d))]
    case Delta(n, Say, d) => [BlockDelta(n, TextChange(d))]
    case Delta(n, Call, d) => [BlockDelta(n, InputChange(d))]
    case Close(n, _, _, _, _) => [BlockStop(n)]
    case End(stop, u, _, _) => [MessageDelta(MessagesStop(stop), MessagesUsage(u)), MessageStop]
  }

  function ResponsesBodies(op: Op): seq<ResponsesBody> {
    match op
    case Begin(_) => [Created, InProgress]
    case Open(n, Think, _, _) => [ItemAdded(n, ReasoningItem([])), SummaryPartAdded(n)]
    case Open(n, Say, _, _) => [ItemAdded(n, MessageItem(false, [])), PartAdded(n)]
    case Open(n, Call, id, name) => [ItemAdded(n, CallItem(false, id, name, ""))]
    case Delta(n, Think, d) => [SummaryDelta(n, d)]
    case Delta(n, Say, d) => [TextDelta(n, d)]
    case Delta(n, Call, d) => [ArgsDelta(n, d)]
    case Close(n, Think, _, _, whole) => [SummaryDone(n, whole), SummaryPartDone(n, whole), ItemDone(n, ReasoningItem(if whole == "" then [] else [whole]))]
    case Close(n, Say, _, _, whole) => [TextDone(n, whole), PartDone(n, whole), ItemDone(n, MessageItem(true, [whole]))]
    case Close(n, Call, id, name, whole) => [ArgsDone(n, whole), ItemDone(n, CallItem(true, id, name, whole))]
    case End(_, u, _, output) => [Completed("completed", "", output, ResponsesUsage(u))]
  }

  function Number(n: nat, bodies: seq<ResponsesBody>): (r: seq<Frame>)
    ensures |r| == |bodies|
    ensures forall i | 0 <= i < |r| :: r[i] == R(ResponsesFrame(n + i, bodies[i]))
  {
    seq(|bodies|, i requires 0 <= i < |bodies| => R(ResponsesFrame(n + i, bodies[i])))
  }

  function AsMessages(frames: seq<MessagesFrame>): (r: seq<Frame>)
    ensures |r| == |frames|
    ensures forall i | 0 <= i < |r| :: r[i] == M(frames[i])
  {
    seq(|frames|, i requires 0 <= i < |frames| => M(frames[i]))
  }

  function AsChat(frames: seq<ChatFrame>): (r: seq<Frame>)
    ensures |r| == |frames|
    ensures forall i | 0 <= i < |r| :: r[i] == C(frames[i])
  {
    seq(|frames|, i requires 0 <= i < |frames| => C(frames[i]))
  }

  /** The frames of a run of operations; Responses frames are numbered from `n`. */
  function Render(protocol: Protocol, n: nat, ops: seq<Op>): seq<Frame> {
    match protocol
    case Chat => AsChat(FlatMap(ChatFrames, ops))
    case Messages => AsMessages(FlatMap(MessagesFrames, ops))
    case Responses => Number(n, FlatMap(ResponsesBodies, ops))
  }

  /** Everything a fresh encoder writes for a sequence of canonical events. */
  function Encode(protocol: Protocol, omitUsage: bool, es: seq<Event>): seq<Frame> {
    Render(protocol, 0, Run(protocol, omitUsage, es).ops)
  }

  /** Over every sequence the Responses frames are numbered 0, 1, 2, ..., without gaps. */
  lemma Numbered(omitUsage: bool, es: seq<Event>)
    ensures forall i | 0 <= i < |Encode(Responses, omitUsage, es)| ::
      Encode(Responses, omitUsage, es)[i].R? && Encode(Responses, omitUsage, es)[i].response.sequence == i
  {
  }

  lemma RenderConcat(protocol: Protocol, n: nat, a: seq<Op>, b: seq<Op>)
    ensures Render(protocol, n, a + b)
         == Render(protocol, n, a) + Render(protocol, n + |Render(protocol, n, a)|, b)
  {
    match protocol
    case Chat => FlatMapConcat(ChatFrames, a, b);
    case Messages => FlatMapConcat(MessagesFrames, a, b);
    case Responses => FlatMapConcat(ResponsesBodies, a, b);
  }

  lemma RenderOne(protocol: Protocol, m: nat, op: Op)
    ensures Render(protocol, m, [op]) ==
      match protocol
      case Chat => AsChat(ChatFrames(op))
      case Messages => AsMessages(MessagesFrames(op))
      case Responses => Number(m, ResponsesBodies(op))
  {
    FlatMapOne(ChatFrames, op);
    FlatMapOne(MessagesFrames, op);
    FlatMapOne(ResponsesBodies, op);
  }
}

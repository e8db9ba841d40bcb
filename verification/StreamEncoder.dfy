/** The stream encoder as the program keeps it: flags, counters, accumulated strings, a table of tools
    and their order. It refines the encoder of `StreamSpec` step by step, frame by frame. */
module StreamEncoder {
  import opened Wrappers
  import opened StreamTypes
  import opened StreamSpec
  import opened StreamGrammar

  datatype EncodedTool = EncodedTool(
    callID: string, name: string, targetIndex: nat, blockIndex: nat, arguments: string, closed: bool)

  /** Text or reasoning: one block, opened at most once. */
  datatype ProseState = ProseState(started: bool, closed: bool, index: int, text: string)

  datatype Fields = Fields(
    sequence: nat, text: ProseState, reasoning: ProseState,
    nextBlockIndex: nat, nextOutputIndex: nat,
    tools: map<string, EncodedTool>, toolOrder: seq<string>)

  // ---- how the fields represent the blocks ----

  function WireIndex(protocol: Protocol, t: EncodedTool): nat {
    if protocol == Messages then t.blockIndex else t.targetIndex
  }

  function CallKeys(blocks: seq<Blk>): (keys: seq<string>)
    ensures |keys| == Calls(blocks)
  {
    if blocks == [] then []
    else
      var last := blocks[|blocks| - 1];
      CallKeys(blocks[..|blocks| - 1]) + if last.tag == Call then [last.key] else []
  }

  predicate ProseOk(e: Enc, tag: Tag, p: ProseState) {
    var n := Find(e.blocks, tag, "");
    if p.started then
      n < |e.blocks| && p.index == n && p.text == e.blocks[n].content && p.closed == e.blocks[n].closed
    else
      n == |e.blocks| && !p.closed && (e.protocol != Chat ==> p.text == "")
  }

  predicate ToolOk(e: Enc, key: string, t: EncodedTool) {
    var n := Find(e.blocks, Call, key);
    && n < |e.blocks| && WireIndex(e.protocol, t) == n
    && t.callID == e.blocks[n].callID && t.name == e.blocks[n].name
    && t.arguments == e.blocks[n].content && t.closed == e.blocks[n].closed
  }

  ghost predicate ToolsOk(e: Enc, tools: map<string, EncodedTool>, order: seq<string>) {
    && (forall k :: k in tools <==> Find(e.blocks, Call, k) < |e.blocks|)
    && (forall k | k in tools :: ToolOk(e, k, tools[k]))
    && order == CallKeys(e.blocks)
  }

  predicate CountersOk(e: Enc, f: Fields) {
    && f.nextBlockIndex == (if e.protocol == Messages then |e.blocks| else 0)
    && f.nextOutputIndex == (if e.protocol == Responses then |e.blocks| else 0)
    && (e.protocol == Chat ==> forall i | 0 <= i < |e.blocks| :: e.blocks[i].tag == Call)
  }

  ghost predicate Represents(f: Fields, e: Enc) {
    && Keyed(e.blocks) && CountersOk(e, f)
    && ProseOk(e, Say, f.text) && ProseOk(e, Think, f.reasoning)
    && ToolsOk(e, f.tools, f.toolOrder)
  }

  // ---- index allocation ----

  /** The indexes handed out for blocks (Messages), output items (Responses) or tools (Chat). */
  function Indexes(protocol: Protocol, f: Fields): set<int> {
    (if f.text.started then {f.text.index} else {})
    + (if f.reasoning.started then {f.reasoning.index} else {})
    + (set k | k in f.tools :: WireIndex(protocol, f.tools[k]) as int)
  }

  function Allocated(protocol: Protocol, f: Fields): nat {
    match protocol
    case Chat => |f.toolOrder|
    case Messages => f.nextBlockIndex
    case Responses => f.nextOutputIndex
  }

  lemma {:induction false} AllCalls(blocks: seq<Blk>)
    requires forall i | 0 <= i < |blocks| :: blocks[i].tag == Call
    ensures Calls(blocks) == |blocks|
  {
    if blocks != [] { AllCalls(blocks[..|blocks| - 1]); }
  }

  /** Every index below the counter is handed out, none beyond it, and no two owners share one. */
  ghost predicate DistinctAndDense(protocol: Protocol, f: Fields) {
    && (forall i: int :: i in Indexes(protocol, f) <==> 0 <= i < Allocated(protocol, f))
    && (f.text.started && f.reasoning.started ==> f.text.index != f.reasoning.index)
    && (forall k | k in f.tools :: var i := WireIndex(protocol, f.tools[k]);
          (f.text.started ==> i != f.text.index) && (f.reasoning.started ==> i != f.reasoning.index))
    && (forall k, l | k in f.tools && l in f.tools && k != l :: WireIndex(protocol, f.tools[k]) != WireIndex(protocol, f.tools[l]))
  }

  lemma IndexesDistinctAndDense(f: Fields, e: Enc)
    requires Represents(f, e)
    ensures DistinctAndDense(e.protocol, f)
  {
    hide Find;
    if e.protocol == Chat { AllCalls(e.blocks); }
    assert Allocated(e.protocol, f) == |e.blocks|;
    forall i | 0 <= i < |e.blocks| ensures i in Indexes(e.protocol, f) {
      FindUnique(e.blocks, i);
      if e.blocks[i].tag == Call {
        var k := e.blocks[i].key;
        assert k in f.tools && ToolOk(e, k, f.tools[k]);
      }
    }
    forall k | k in f.tools ensures ToolOk(e, k, f.tools[k]) { }
    forall i | i in Indexes(e.protocol, f) ensures 0 <= i < |e.blocks| { }
  }

  // ---- one block changes or is added ----

  /** The fields that mirror a block, brought up to date with it. */
  predicate Mirrors(protocol: Protocol, f: Fields, n: nat, b: Blk) {
    match b.tag
    case Say => f.text == ProseState(true, b.closed, n, b.content)
    case Think => f.reasoning == ProseState(true, b.closed, n, b.content)
    case Call =>
      && b.key in f.tools && WireIndex(protocol, f.tools[b.key]) == n
      && f.tools[b.key].callID == b.callID && f.tools[b.key].name == b.name
      && f.tools[b.key].arguments == b.content && f.tools[b.key].closed == b.closed
  }

  predicate Else(f: Fields, g: Fields, b: Blk) {
    && (b.tag != Say ==> g.text == f.text)
    && (b.tag != Think ==> g.reasoning == f.reasoning)
    && (b.tag != Call ==> g.tools == f.tools && g.toolOrder == f.toolOrder)
    && (b.tag == Call && b.key in g.tools ==> g.tools == f.tools[b.key := g.tools[b.key]])
  }

  lemma {:induction false} CallKeysSame(a: seq<Blk>, b: seq<Blk>)
    requires |a| == |b| && forall i | 0 <= i < |a| :: a[i].tag == b[i].tag && a[i].key == b[i].key
    ensures CallKeys(a) == CallKeys(b)
  {
    if a != [] { CallKeysSame(a[..|a| - 1], b[..|b| - 1]); }
  }

  predicate SameNames(a: seq<Blk>, b: seq<Blk>) {
    |a| == |b| && forall i | 0 <= i < |a| :: a[i].tag == b[i].tag && a[i].key == b[i].key
  }

  lemma FindSame(a: seq<Blk>, b: seq<Blk>, tag: Tag, key: string)
    requires SameNames(a, b)
    ensures Find(a, tag, key) == Find(b, tag, key)
  {
    hide Find;
    if Find(a, tag, key) < |a| {
      FindKept(a, b, tag, key);
    } else if Find(b, tag, key) < |b| {
      FindKept(b, a, tag, key);
    }
  }

  lemma FindNew(blocks: seq<Blk>, b: Blk, tag: Tag, key: string)
    requires Find(blocks, b.tag, b.key) == |blocks|
    ensures Find(blocks + [b], tag, key) ==
      if b.tag == tag && b.key == key then |blocks|
      else if Find(blocks, tag, key) < |blocks| then Find(blocks, tag, key) else |blocks| + 1
  {
    hide Find;
    var m := Find(blocks + [b], tag, key);
    assert forall i | 0 <= i < |blocks| :: (blocks + [b])[i] == blocks[i];
    if m < |blocks| + 1 { assert (blocks + [b])[m].tag == tag; }
    if Find(blocks, tag, key) < |blocks| { FindKept(blocks, blocks + [b], tag, key); }
    else { assert (blocks + [b])[|blocks|] == b; }
  }

  lemma ProseChanged(e: Enc, n: nat, b: Blk, tag: Tag, p: ProseState, q: ProseState)
    requires Keyed(e.blocks) && n < |e.blocks| && b.tag == e.blocks[n].tag && b.key == e.blocks[n].key && tag != Call
    requires ProseOk(e, tag, p)
    requires if b.tag == tag then q == ProseState(true, b.closed, n, b.content) else q == p
    ensures ProseOk(e.(blocks := e.blocks[n := b]), tag, q)
  {
    hide Find;
    FindUnique(e.blocks, n);
    FindSame(e.blocks, e.blocks[n := b], tag, "");
  }

  lemma ToolChanged(e: Enc, n: nat, b: Blk, k: string, t: EncodedTool)
    requires n < |e.blocks| && b.tag == e.blocks[n].tag && b.key == e.blocks[n].key
    requires ToolOk(e, k, t) && !(b.tag == Call && b.key == k)
    ensures ToolOk(e.(blocks := e.blocks[n := b]), k, t)
  {
    hide Find;
    FindSame(e.blocks, e.blocks[n := b], Call, k);
  }

  lemma ToolMirrored(e: Enc, n: nat, b: Blk, g: Fields)
    requires Keyed(e.blocks) && n < |e.blocks| && b.tag == e.blocks[n].tag && b.key == e.blocks[n].key
    requires b.tag == Call && Mirrors(e.protocol, g, n, b)
    ensures ToolOk(e.(blocks := e.blocks[n := b]), b.key, g.tools[b.key])
  {
    hide Find;
    FindUnique(e.blocks, n);
    FindSame(e.blocks, e.blocks[n := b], Call, b.key);
  }

  lemma ToolsChanged(e: Enc, n: nat, b: Blk, f: Fields, g: Fields)
    requires Keyed(e.blocks) && n < |e.blocks| && b.tag == e.blocks[n].tag && b.key == e.blocks[n].key
    requires ToolsOk(e, f.tools, f.toolOrder) && Mirrors(e.protocol, g, n, b) && Else(f, g, b) && g.toolOrder == f.toolOrder
    ensures ToolsOk(e.(blocks := e.blocks[n := b]), g.tools, g.toolOrder)
  {
    hide Find;
    hide ToolOk, CallKeys;
    var blocks := e.blocks[n := b];
    FindUnique(e.blocks, n);
    forall k ensures Find(blocks, Call, k) == Find(e.blocks, Call, k) {
      FindSame(e.blocks, blocks, Call, k);
    }
    CallKeysSame(e.blocks, blocks);
    forall k | k in g.tools ensures ToolOk(e.(blocks := blocks), k, g.tools[k]) {
      if b.tag == Call && k == b.key { ToolMirrored(e, n, b, g); } else { ToolChanged(e, n, b, k, f.tools[k]); }
    }
  }

  lemma Changed(f: Fields, g: Fields, e: Enc, n: nat, b: Blk)
    requires Represents(f, e) && n < |e.blocks| && b.tag == e.blocks[n].tag && b.key == e.blocks[n].key
    requires Mirrors(e.protocol, g, n, b) && Else(f, g, b) && g.toolOrder == f.toolOrder
    requires g.nextBlockIndex == f.nextBlockIndex && g.nextOutputIndex == f.nextOutputIndex
    ensures Represents(g, e.(blocks := e.blocks[n := b]))
  {
    hide Find, ProseOk, ToolsOk;
    ProseChanged(e, n, b, Say, f.text, g.text);
    ProseChanged(e, n, b, Think, f.reasoning, g.reasoning);
    ToolsChanged(e, n, b, f, g);
  }

  lemma ProseGrown(e: Enc, b: Blk, tag: Tag, p: ProseState, q: ProseState)
    requires Find(e.blocks, b.tag, b.key) == |e.blocks| && tag != Call && ProseOk(e, tag, p)
    requires b.tag != Call ==> b.key == ""
    requires if b.tag == tag then q == ProseState(true, b.closed, |e.blocks|, b.content) else q == p
    ensures ProseOk(e.(blocks := e.blocks + [b]), tag, q)
  {
    hide Find;
    FindNew(e.blocks, b, tag, "");
  }

  lemma ToolGrown(e: Enc, b: Blk, k: string, t: EncodedTool)
    requires Find(e.blocks, b.tag, b.key) == |e.blocks| && ToolOk(e, k, t)
    ensures ToolOk(e.(blocks := e.blocks + [b]), k, t)
  {
    hide Find;
    FindNew(e.blocks, b, Call, k);
  }

  lemma ToolsGrown(e: Enc, b: Blk, f: Fields, g: Fields)
    requires ToolsOk(e, f.tools, f.toolOrder) && Find(e.blocks, b.tag, b.key) == |e.blocks|
    requires Mirrors(e.protocol, g, |e.blocks|, b) && Else(f, g, b)
    requires g.toolOrder == f.toolOrder + (if b.tag == Call then [b.key] else [])
    ensures ToolsOk(e.(blocks := e.blocks + [b]), g.tools, g.toolOrder)
  {
    hide Find;
    var blocks := e.blocks + [b];
    CallKeysMore(e.blocks, b);
    forall k { FindNew(e.blocks, b, Call, k); }
    if b.tag == Call { ToolAdded(e, b, g); }
    hide ToolOk, CallKeys;
    forall k | k in g.tools ensures ToolOk(e.(blocks := blocks), k, g.tools[k]) {
      if !(b.tag == Call && k == b.key) { ToolGrown(e, b, k, f.tools[k]); }
    }
  }

  lemma CallKeysMore(blocks: seq<Blk>, b: Blk)
    ensures CallKeys(blocks + [b]) == CallKeys(blocks) + if b.tag == Call then [b.key] else []
  {
    assert (blocks + [b])[..|blocks|] == blocks;
  }

  lemma ToolAdded(e: Enc, b: Blk, g: Fields)
    requires b.tag == Call && Find(e.blocks, Call, b.key) == |e.blocks| && Mirrors(e.protocol, g, |e.blocks|, b)
    ensures ToolOk(e.(blocks := e.blocks + [b]), b.key, g.tools[b.key])
  {
    hide Find;
    FindNew(e.blocks, b, Call, b.key);
  }

  lemma Grown(f: Fields, g: Fields, e: Enc, b: Blk)
    requires Represents(f, e) && Find(e.blocks, b.tag, b.key) == |e.blocks|
    requires if b.tag == Call then true else b.key == "" && e.protocol != Chat
    requires Mirrors(e.protocol, g, |e.blocks|, b) && Else(f, g, b)
    requires g.toolOrder == f.toolOrder + (if b.tag == Call then [b.key] else [])
    requires g.nextBlockIndex == f.nextBlockIndex + (if e.protocol == Messages then 1 else 0)
    requires g.nextOutputIndex == f.nextOutputIndex + (if e.protocol == Responses then 1 else 0)
    ensures Represents(g, e.(blocks := e.blocks + [b]))
  {
    hide Find, ProseOk, ToolsOk;
    GrownUnique(e.blocks, b);
    ProseGrown(e, b, Say, f.text, g.text);
    ProseGrown(e, b, Think, f.reasoning, g.reasoning);
    ToolsGrown(e, b, f, g);
  }

  // ---- text and reasoning ----

  function ProseField(f: Fields, tag: Tag): ProseState
    requires tag != Call
  {
    if tag == Say then f.text else f.reasoning
  }

  function WithProse(f: Fields, tag: Tag, p: ProseState): Fields
    requires tag != Call
  {
    if tag == Say then f.(text := p) else f.(reasoning := p)
  }

  /** The fields after a block was opened on first use. */
  function OpenedFields(f: Fields, e: Enc, tag: Tag): Fields
    requires tag != Call
  {
    if ProseField(f, tag).started then f
    else
      WithProse(f.(nextBlockIndex := f.nextBlockIndex + (if e.protocol == Messages then 1 else 0),
                   nextOutputIndex := f.nextOutputIndex + (if e.protocol == Responses then 1 else 0)),
                tag, ProseState(true, false, |e.blocks|, ""))
  }

  lemma OpenedOk(f: Fields, e: Enc, tag: Tag)
    requires Represents(f, e) && tag != Call && e.protocol != Chat
    ensures Represents(OpenedFields(f, e, tag), OpenProse(e, tag).enc)
    ensures OpenProse(e, tag).ops == if ProseField(f, tag).started then [] else [Open(|e.blocks|, tag, "", "")]
    ensures OpenedFields(f, e, tag).sequence == f.sequence
    ensures Find(OpenProse(e, tag).enc.blocks, tag, "") == ProseField(OpenedFields(f, e, tag), tag).index < |OpenProse(e, tag).enc.blocks|
  {
    hide Find, ToolsOk;
    if !ProseField(f, tag).started {
      Grown(f, OpenedFields(f, e, tag), e, Blk(tag, "", "", "", "", false));
      GrownUnique(e.blocks, Blk(tag, "", "", "", "", false));
    }
  }

  lemma ExtendedOk(f: Fields, e: Enc, tag: Tag, d: string)
    requires Represents(f, e) && tag != Call && ProseField(f, tag).started
    ensures var p := ProseField(f, tag);
      && Represents(WithProse(f, tag, p.(text := p.text + d)), AppendProse(e, tag, d).enc)
      && AppendProse(e, tag, d).ops == [Delta(p.index, tag, d)]
  {
    hide Find, ToolsOk;
    var p, n := ProseField(f, tag), Find(e.blocks, tag, "");
    Changed(f, WithProse(f, tag, p.(text := p.text + d)), e, n, e.blocks[n].(content := e.blocks[n].content + d));
  }

  /** Feeding a delta: open the block on first use, extend it, and write both. */
  lemma ProseStep(f: Fields, e: Enc, tag: Tag, d: string)
    requires Represents(f, e) && tag != Call && d != "" && e.protocol != Chat
    ensures var o := OpenedFields(f, e, tag);
      var p := ProseField(o, tag);
      && Represents(WithProse(o, tag, p.(text := p.text + d)), Prose(e, tag, d).enc)
      && Prose(e, tag, d).ops
         == (if ProseField(f, tag).started then [] else [Open(|e.blocks|, tag, "", "")]) + [Delta(p.index, tag, d)]
      && Prose(e, tag, d).enc == e.(blocks := Prose(e, tag, d).enc.blocks)
  {
    hide Find, Represents, AppendProse, OpenProse;
    OpenedOk(f, e, tag);
    var o, m := OpenedFields(f, e, tag), OpenProse(e, tag).enc;
    OpenKeeps(e, tag);
    ExtendedOk(o, m, tag, d);
    ActKeeps(e, if tag == Say then Text(0, d) else Reasoning(0, d));
  }

  lemma OpenKeeps(e: Enc, tag: Tag)
    ensures OpenProse(e, tag).enc == e.(blocks := OpenProse(e, tag).enc.blocks)
  {
    hide Find;
  }

  lemma ChatProse(f: Fields, e: Enc, tag: Tag, d: string, p: ProseState)
    requires Represents(f, e) && tag != Call && e.protocol == Chat && p == ProseField(f, tag).(text := p.text)
    ensures Represents(WithProse(f, tag, p), e)
    ensures d != "" ==> Prose(e, tag, d) == Stepped(e, [Delta(-1, tag, d)])
  {
    hide Find;
    assert Find(e.blocks, tag, "") == |e.blocks|;
    assert [] + [Delta(-1, tag, d)] == [Delta(-1, tag, d)];
  }

  function OpeningFrames(protocol: Protocol, tag: Tag, m: nat, n: int): seq<Frame> {
    if protocol == Messages then [M(BlockStart(n, if tag == Say then TextBlock("") else ThinkingBlock("")))]
    else [R(ResponsesFrame(m, ItemAdded(n, if tag == Say then MessageItem(false, []) else ReasoningItem([])))),
          R(ResponsesFrame(m + 1, if tag == Say then PartAdded(n) else SummaryPartAdded(n)))]
  }

  function DeltaFrame(protocol: Protocol, tag: Tag, m: nat, n: int, d: string): Frame {
    if protocol == Messages then M(BlockDelta(n, if tag == Say then TextChange(d) else ThinkingChange(d)))
    else R(ResponsesFrame(m, if tag == Say then TextDelta(n, d) else SummaryDelta(n, d)))
  }

  lemma RenderProse(protocol: Protocol, tag: Tag, m: nat, opens: bool, n: int, d: string)
    requires protocol != Chat && tag != Call
    ensures var lead := if opens then OpeningFrames(protocol, tag, m, n) else [];
      Render(protocol, m, (if opens then [Open(n, tag, "", "")] else []) + [Delta(n, tag, d)])
      == lead + [DeltaFrame(protocol, tag, m + |lead|, n, d)]
  {
    hide Render;
    var ops := if opens then [Open(n, tag, "", "")] else [];
    RenderConcat(protocol, m, ops, [Delta(n, tag, d)]);
    if opens { RenderOne(protocol, m, ops[0]); } else { RenderNone(protocol, m); }
    RenderOne(protocol, m + |Render(protocol, m, ops)|, Delta(n, tag, d));
  }

  /** The fields, the operations and the frames of one text or reasoning delta. */
  lemma {:induction false} ProseWritten(f: Fields, e: Enc, tag: Tag, d: string)
    requires Represents(f, e) && tag != Call && d != "" && e.protocol != Chat
    ensures var p := ProseField(f, tag);
      var n := if p.started then p.index else if e.protocol == Messages then f.nextBlockIndex else f.nextOutputIndex;
      var lead := if p.started then [] else OpeningFrames(e.protocol, tag, f.sequence, n);
      var counted := if p.started then f else
        f.(nextBlockIndex := f.nextBlockIndex + (if e.protocol == Messages then 1 else 0),
           nextOutputIndex := f.nextOutputIndex + (if e.protocol == Responses then 1 else 0));
      && (!p.started ==> p.text == "" && !p.closed)
      && Represents(WithProse(counted, tag, ProseState(true, p.closed, n, p.text + d)), Prose(e, tag, d).enc)
      && Prose(e, tag, d).enc == e.(blocks := Prose(e, tag, d).enc.blocks)
      && Render(e.protocol, f.sequence, Prose(e, tag, d).ops) == lead + [DeltaFrame(e.protocol, tag, f.sequence + |lead|, n, d)]
  {
    hide Find, Render, Prose, ToolsOk, OpeningFrames, DeltaFrame;
    ProseStep(f, e, tag, d);
    var p := ProseField(f, tag);
    var n := if p.started then p.index else |e.blocks|;
    assert |e.blocks| == if e.protocol == Messages then f.nextBlockIndex else f.nextOutputIndex;
    RenderProse(e.protocol, tag, f.sequence, !p.started, n, d);
  }

  lemma ProseClosed(f: Fields, e: Enc, tag: Tag)
    requires Represents(f, e) && tag != Call
    ensures var p, c := ProseField(f, tag), CloseProse(e, tag);
      if !p.started || p.closed then c == Stepped(e, [])
      else
        && Represents(WithProse(f, tag, p.(closed := true)), c.enc)
        && c.enc == e.(blocks := c.enc.blocks) && |c.ops| == 1 && c.ops[0].Close?
        && c.ops[0].slot == p.index && c.ops[0].tag == tag && c.ops[0].whole == p.text
  {
    hide Find, ToolsOk;
    var p, n := ProseField(f, tag), Find(e.blocks, tag, "");
    if p.started && !p.closed {
      Changed(f, WithProse(f, tag, p.(closed := true)), e, n, e.blocks[n].(closed := true));
    }
  }

  // ---- tools ----

  /** A tool as the table holds it before its first event. */
  function NewTool(f: Fields, callID: string, name: string): EncodedTool {
    EncodedTool(if callID == "" then "call_" + Decimal.Text(|f.toolOrder|) else callID, name,
                |f.toolOrder|, f.nextBlockIndex, "", false)
  }

  function LookedUp(f: Fields, protocol: Protocol, key: string, callID: string, name: string): Fields {
    if key in f.tools then
      var t := f.tools[key];
      f.(tools := f.tools[key := t.(callID := if t.callID == "" then callID else t.callID,
                                    name := if t.name == "" then name else t.name)])
    else
      var t := NewTool(f, callID, name);
      f.(tools := f.tools[key := if protocol == Responses then t.(targetIndex := f.nextOutputIndex) else t],
         toolOrder := f.toolOrder + [key],
         nextBlockIndex := f.nextBlockIndex + (if protocol == Messages then 1 else 0),
         nextOutputIndex := f.nextOutputIndex + (if protocol == Responses then 1 else 0))
  }

  lemma {:induction false} LookupOk(f: Fields, e: Enc, key: string, callID: string, name: string)
    requires Represents(f, e)
    ensures Represents(LookedUp(f, e.protocol, key, callID, name), Lookup(e, key, callID, name))
    ensures Lookup(e, key, callID, name) == e.(blocks := Lookup(e, key, callID, name).blocks)
  {
    if Find(e.blocks, Call, key) < |e.blocks| {
      LookupFound(f, e, key, callID, name);
    } else {
      LookupFiled(f, e, key, callID, name);
    }
    hide Find, Represents, LookedUp;
  }

  lemma {:induction false} LookupFound(f: Fields, e: Enc, key: string, callID: string, name: string)
    requires Represents(f, e) && Find(e.blocks, Call, key) < |e.blocks|
    ensures Represents(LookedUp(f, e.protocol, key, callID, name), Lookup(e, key, callID, name))
  {
    var n, g := Find(e.blocks, Call, key), LookedUp(f, e.protocol, key, callID, name);
    assert ToolOk(e, key, f.tools[key]);
    hide Find, ProseOk, ToolsOk, CountersOk;
    Changed(f, g, e, n, Recall(e.blocks[n], callID, name));
  }

  lemma {:induction false} LookupFiled(f: Fields, e: Enc, key: string, callID: string, name: string)
    requires Represents(f, e) && Find(e.blocks, Call, key) == |e.blocks|
    ensures Represents(LookedUp(f, e.protocol, key, callID, name), Lookup(e, key, callID, name))
  {
    if e.protocol == Chat { AllCalls(e.blocks); }
    hide Find, ProseOk;
    Grown(f, LookedUp(f, e.protocol, key, callID, name), e, NewCall(e.blocks, key, callID, name));
  }

  /** What the table says about a filed tool. */
  lemma Tabled(f: Fields, e: Enc, key: string)
    requires Represents(f, e)
    ensures key in f.tools <==> Find(e.blocks, Call, key) < |e.blocks|
    ensures key in f.tools ==> ToolOk(e, key, f.tools[key]) && e.blocks[Find(e.blocks, Call, key)].tag == Call
  {
  }

  lemma ToolExtended(f: Fields, e: Enc, key: string, d: string)
    requires Represents(f, e) && key in f.tools
    ensures var n, t := Find(e.blocks, Call, key), f.tools[key];
      && n < |e.blocks|
      && Represents(f.(tools := f.tools[key := t.(arguments := t.arguments + d)]), Append(e, n, d).enc)
      && Append(e, n, d).ops == [Delta(WireIndex(e.protocol, t), Call, d)]
      && Append(e, n, d).enc == e.(blocks := Append(e, n, d).enc.blocks)
  {
    hide Find, Represents;
    Tabled(f, e, key);
    var n, t := Find(e.blocks, Call, key), f.tools[key];
    Changed(f, f.(tools := f.tools[key := t.(arguments := t.arguments + d)]), e, n,
            e.blocks[n].(content := e.blocks[n].content + d));
  }

  lemma ToolClosed(f: Fields, e: Enc, key: string)
    requires Represents(f, e) && key in f.tools
    ensures var n, t := Find(e.blocks, Call, key), f.tools[key];
      && n < |e.blocks|
      && Represents(f.(tools := f.tools[key := t.(closed := true)]), CloseBlock(e, n).enc)
      && CloseBlock(e, n).ops ==
           (if t.closed then [] else [Close(WireIndex(e.protocol, t), Call, t.callID, t.name, t.arguments)])
      && CloseBlock(e, n).enc == e.(blocks := CloseBlock(e, n).enc.blocks)
      && (t.closed ==> CloseBlock(e, n).enc == e)
  {
    hide Find, Represents;
    Tabled(f, e, key);
    var n, t := Find(e.blocks, Call, key), f.tools[key];
    var g := f.(tools := f.tools[key := t.(closed := true)]);
    if t.closed {
      assert g.tools == f.tools;
    } else {
      Changed(f, g, e, n, e.blocks[n].(closed := true));
    }
  }

  // ---- the order of tools ----

  lemma {:induction false} CallKeysPrefix(blocks: seq<Blk>, p: nat)
    requires p <= |blocks|
    ensures CallKeys(blocks[..p]) <= CallKeys(blocks)
  {
    if p < |blocks| {
      assert blocks[..|blocks| - 1][..p] == blocks[..p];
      CallKeysPrefix(blocks[..|blocks| - 1], p);
    } else {
      assert blocks[..p] == blocks;
    }
  }

  lemma {:induction false} KeyListed(blocks: seq<Blk>, n: nat)
    requires n < |blocks| && blocks[n].tag == Call
    ensures blocks[n].key in CallKeys(blocks)
  {
    if n < |blocks| - 1 { KeyListed(blocks[..|blocks| - 1], n); }
  }

  predicate NoCall(blocks: seq<Blk>, p: nat, q: nat) {
    p <= q <= |blocks| && forall i | p <= i < q :: blocks[i].tag != Call
  }

  /** The position of the next tool block at or after `p`, or the number of blocks. */
  lemma {:induction false} NextCall(blocks: seq<Blk>, p: nat) returns (n: nat)
    requires p <= |blocks|
    ensures NoCall(blocks, p, n) && (n < |blocks| ==> blocks[n].tag == Call)
    ensures CallKeys(blocks[..n]) == CallKeys(blocks[..p])
    ensures n < |blocks| ==> CallKeys(blocks[..n + 1]) == CallKeys(blocks[..p]) + [blocks[n].key]
    decreases |blocks| - p
  {
    n := p;
    if p < |blocks| {
      assert blocks[..p + 1][..p] == blocks[..p];
      if blocks[p].tag != Call { n := NextCall(blocks, p + 1); }
    }
  }

  lemma {:induction false} SkipCalls(e: Enc, p: nat, q: nat)
    requires NoCall(e.blocks, p, q)
    ensures CloseCalls(e, q) == CloseCalls(e, p)
    decreases q - p
  {
    if p < q {
      SkipCalls(e, p, q - 1);
      hide CloseCalls;
      CloseCallsMore(e, q - 1);
      CloseCallsAhead(e, q - 1);
    }
  }

  // ---- the encoder object ----

  class Encoder {
    const protocol: Protocol
    const omitChatUsage: bool
    var sequence: nat
    var started: bool
    var done: bool
    var stopReason: string
    var usage: Usage
    var text: ProseState
    var reasoning: ProseState
    var nextBlockIndex: nat
    var nextOutputIndex: nat
    var tools: map<string, EncodedTool>
    var toolOrder: seq<string>

    /** The abstract encoder this object stands for. */
    ghost var model: Enc

    function State(): Fields
      reads this
    {
      Fields(sequence, text, reasoning, nextBlockIndex, nextOutputIndex, tools, toolOrder)
    }

    ghost predicate Valid()
      reads this
    {
      && model.protocol == protocol && model.omitUsage == omitChatUsage
      && model.started == started && model.done == done && model.stop == stopReason && model.usage == usage
      && Represents(State(), model)
    }

    /** The frames written since `was` are those of `ops`, and Responses frames were numbered on. */
    ghost predicate Wrote(was: nat, frames: seq<Frame>, ops: seq<Op>)
      reads this
    {
      && frames == Render(protocol, was, ops)
      && sequence == was + if protocol == Responses then |frames| else 0
    }

    constructor (protocol: Protocol, omitChatUsage: bool)
      ensures Valid() && sequence == 0 && model == Fresh(protocol, omitChatUsage)
    {
      this.protocol, this.omitChatUsage := protocol, omitChatUsage;
      sequence, started, done, stopReason, usage := 0, false, false, "", NO_USAGE;
      text := ProseState(false, false, -1, "");
      reasoning := ProseState(false, false, -1, "");
      nextBlockIndex, nextOutputIndex, tools, toolOrder := 0, 0, map[], [];
      model := Fresh(protocol, omitChatUsage);
    }

    method ResponsesEvent(body: ResponsesBody) returns (f: Frame)
      modifies `sequence
      ensures f == R(ResponsesFrame(old(sequence), body)) && sequence == old(sequence) + 1
    {
      f := R(ResponsesFrame(sequence, body));
      sequence := sequence + 1;
    }

    method EnsureStarted() returns (frames: seq<Frame>)
      requires Valid()
      modifies `sequence, `started, `model
      ensures Valid() && model == StreamSpec.EnsureStarted(old(model)).enc
      ensures Wrote(old(sequence), frames, StreamSpec.EnsureStarted(old(model)).ops)
    {
      hide Render, Represents;
      if started {
        RenderNone(protocol, sequence);
        return [];
      }
      started := true;
      RenderOne(protocol, sequence, Begin(usage));
      match protocol {
        case Chat => frames := [C(Chunk([Choice(None, Some(""), [], None)], NO_USAGE))];
        case Messages => frames := [M(MessageStart(MessagesUsage(usage)))];
        case Responses =>
          var first := ResponsesEvent(Created);
          var second := ResponsesEvent(InProgress);
          frames := [first, second];
      }
      model := StreamSpec.EnsureStarted(model).enc;
      Idle(old(State()), State(), old(model), model);
    }

    /** Opens the text block on first use. */
    method OpenText() returns (frames: seq<Frame>)
      requires protocol != Chat
      modifies `sequence, `text, `nextBlockIndex, `nextOutputIndex
      ensures if old(text).started then State() == old(State()) && frames == []
        else
          var n := if protocol == Messages then old(nextBlockIndex) else old(nextOutputIndex);
          && text == old(text).(started := true, index := n)
          && frames == OpeningFrames(protocol, Say, old(sequence), n)
          && sequence == old(sequence) + (if protocol == Responses then 2 else 0)
          && nextBlockIndex == old(nextBlockIndex) + (if protocol == Messages then 1 else 0)
          && nextOutputIndex == old(nextOutputIndex) + (if protocol == Responses then 1 else 0)
    {
      if text.started {
        return [];
      }
      if protocol == Messages {
        text := text.(started := true, index := nextBlockIndex);
        nextBlockIndex := nextBlockIndex + 1;
        return [M(BlockStart(text.index, TextBlock("")))];
      }
      text := text.(started := true, index := nextOutputIndex);
      nextOutputIndex := nextOutputIndex + 1;
      var added := ResponsesEvent(ItemAdded(text.index, MessageItem(false, [])));
      var part := ResponsesEvent(PartAdded(text.index));
      frames := [added, part];
    }

    method EncodeText(delta: string) returns (frames: seq<Frame>)
      requires Valid()
      modifies `sequence, `text, `nextBlockIndex, `nextOutputIndex, `model
      ensures Valid() && model == Prose(old(model), Say, delta).enc
      ensures Wrote(old(sequence), frames, Prose(old(model), Say, delta).ops)
    {
      hide Render, Represents, Prose, OpeningFrames;
      if delta == "" {
        NoProse(model, Say);
        RenderNone(protocol, sequence);
        return [];
      }
      ghost var e, f := model, State();
      model := Prose(e, Say, delta).enc;
      text := text.(text := text.text + delta);
      if protocol == Chat {
        ChatProse(f, e, Say, delta, text);
        RenderOne(protocol, sequence, Delta(-1, Say, delta));
        return [C(Chunk([Choice(None, Some(delta), [], None)], NO_USAGE))];
      }
      ProseWritten(f, e, Say, delta);
      OpeningLength(protocol, Say, f.sequence, nextOutputIndex);
      frames := OpenText();
      if protocol == Messages {
        return frames + [M(BlockDelta(text.index, TextChange(delta)))];
      }
      var last := ResponsesEvent(TextDelta(text.index, delta));
      frames := frames + [last];
      Idle(State().(sequence := f.sequence), State(), model, model);
    }

    /** Opens the reasoning block on first use. */
    method OpenReasoning() returns (frames: seq<Frame>)
      requires protocol != Chat
      modifies `sequence, `reasoning, `nextBlockIndex, `nextOutputIndex
      ensures if old(reasoning).started then State() == old(State()) && frames == []
        else
          var n := if protocol == Messages then old(nextBlockIndex) else old(nextOutputIndex);
          && reasoning == old(reasoning).(started := true, index := n)
          && frames == OpeningFrames(protocol, Think, old(sequence), n)
          && sequence == old(sequence) + (if protocol == Responses then 2 else 0)
          && nextBlockIndex == old(nextBlockIndex) + (if protocol == Messages then 1 else 0)
          && nextOutputIndex == old(nextOutputIndex) + (if protocol == Responses then 1 else 0)
    {
      if reasoning.started {
        return [];
      }
      if protocol == Messages {
        reasoning := reasoning.(started := true, index := nextBlockIndex);
        nextBlockIndex := nextBlockIndex + 1;
        return [M(BlockStart(reasoning.index, ThinkingBlock("")))];
      }
      reasoning := reasoning.(started := true, index := nextOutputIndex);
      nextOutputIndex := nextOutputIndex + 1;
      var added := ResponsesEvent(ItemAdded(reasoning.index, ReasoningItem([])));
      var part := ResponsesEvent(SummaryPartAdded(reasoning.index));
      frames := [added, part];
    }

    method EncodeReasoning(delta: string) returns (frames: seq<Frame>)
      requires Valid()
      modifies `sequence, `reasoning, `nextBlockIndex, `nextOutputIndex, `model
      ensures Valid() && model == Prose(old(model), Think, delta).enc
      ensures Wrote(old(sequence), frames, Prose(old(model), Think, delta).ops)
    {
      hide Render, Represents, Prose, OpeningFrames;
      if delta == "" {
        NoProse(model, Think);
        RenderNone(protocol, sequence);
        return [];
      }
      ghost var e, f := model, State();
      model := Prose(e, Think, delta).enc;
      if protocol == Chat {
        ChatProse(f, e, Think, delta, reasoning);
        RenderOne(protocol, sequence, Delta(-1, Think, delta));
        return [C(Chunk([Choice(Some(delta), None, [], None)], NO_USAGE))];
      }
      ProseWritten(f, e, Think, delta);
      OpeningLength(protocol, Think, f.sequence, nextOutputIndex);
      frames := OpenReasoning();
      reasoning := reasoning.(text := reasoning.text + delta);
      if protocol == Messages {
        return frames + [M(BlockDelta(reasoning.index, ThinkingChange(delta)))];
      }
      var last := ResponsesEvent(SummaryDelta(reasoning.index, delta));
      frames := frames + [last];
      Idle(State().(sequence := f.sequence), State(), model, model);
    }

    method CloseReasoning() returns (frames: seq<Frame>)
      requires Valid() && protocol != Chat
      modifies `sequence, `reasoning, `model
      ensures Valid() && model == CloseProse(old(model), Think).enc
      ensures Wrote(old(sequence), frames, CloseProse(old(model), Think).ops)
    {
      hide Render, Represents, CloseProse;
      ghost var f := State();
      ProseClosed(f, model, Think);
      ghost var c := CloseProse(model, Think);
      if !reasoning.started || reasoning.closed {
        RenderNone(protocol, sequence);
        return [];
      }
      RenderOne(protocol, sequence, c.ops[0]);
      assert c.ops == [c.ops[0]];
      reasoning := reasoning.(closed := true);
      model := c.enc;
      if protocol == Messages {
        return [M(BlockStop(reasoning.index))];
      }
      var whole := reasoning.text;
      var last := ResponsesEvent(SummaryDone(reasoning.index, whole));
      var part := ResponsesEvent(SummaryPartDone(reasoning.index, whole));
      var item := ResponsesEvent(ItemDone(reasoning.index, ReasoningItem(if whole == "" then [] else [whole])));
      frames := [last, part, item];
      Idle(State().(sequence := f.sequence), State(), model, model);
    }

    /** Files a new tool under its key. */
    method FileTool(key: string, callID: string, name: string)
      requires key !in tools
      modifies `tools, `toolOrder, `nextBlockIndex, `nextOutputIndex
      ensures State() == LookedUp(old(State()), protocol, key, callID, name)
    {
      hide Represents;
      var id := if callID == "" then "call_" + Decimal.Text(|toolOrder|) else callID;
      var t := EncodedTool(id, name, |toolOrder|, nextBlockIndex, "", false);
      if protocol == Messages {
        nextBlockIndex := nextBlockIndex + 1;
      }
      if protocol == Responses {
        t := t.(targetIndex := nextOutputIndex);
        nextOutputIndex := nextOutputIndex + 1;
      }
      tools := tools[key := t];
      toolOrder := toolOrder + [key];
    }

    /** Finds the tool of an event, or files a new one. */
    method Tool(index: int, callID: string, name: string) returns (key: string)
      requires Valid()
      modifies `tools, `toolOrder, `nextBlockIndex, `nextOutputIndex, `model
      ensures Valid() && key == KeyOf(index, callID) && key in tools
      ensures model == Lookup(old(model), key, callID, name)
    {
      hide Represents, Lookup, KeyOf, NewTool;
      key := KeyOf(index, callID);
      LookupOk(State(), model, key, callID, name);
      if key in tools {
        var t := tools[key];
        if t.callID == "" && callID != "" { t := t.(callID := callID); }
        if t.name == "" && name != "" { t := t.(name := name); }
        tools := tools[key := t];
      } else {
        FileTool(key, callID, name);
      }
      model := Lookup(model, key, callID, name);
    }

    method CloseTool(key: string) returns (frames: seq<Frame>)
      requires Valid() && key in tools
      modifies `sequence, `tools, `model
      ensures Valid() && Find(old(model).blocks, Call, key) < |old(model).blocks|
      ensures model == CloseBlock(old(model), Find(old(model).blocks, Call, key)).enc
      ensures Wrote(old(sequence), frames, CloseBlock(old(model), Find(old(model).blocks, Call, key)).ops)
    {
      hide Render, Represents, CloseBlock, Find;
      ghost var f := State();
      ToolClosed(f, model, key);
      ghost var c := CloseBlock(model, Find(model.blocks, Call, key));
      var t := tools[key];
      if t.closed {
        RenderNone(protocol, sequence);
        return [];
      }
      RenderOne(protocol, sequence, c.ops[0]);
      tools := tools[key := t.(closed := true)];
      model := c.enc;
      match protocol {
        case Chat => frames := [];
        case Messages => frames := [M(BlockStop(t.blockIndex))];
        case Responses =>
          var last := ResponsesEvent(ArgsDone(t.targetIndex, t.arguments));
          var item := ResponsesEvent(ItemDone(t.targetIndex, CallItem(true, t.callID, t.name, t.arguments)));
          frames := [last, item];
          Idle(State().(sequence := f.sequence), State(), model, model);
      }
    }

    method EncodeToolStart(index: int, callID: string, name: string) returns (frames: seq<Frame>)
      requires Valid()
      modifies `sequence, `tools, `toolOrder, `nextBlockIndex, `nextOutputIndex, `model
      ensures Valid() && model == Act(old(model), ToolStart(index, callID, name)).enc
      ensures Wrote(old(sequence), frames, Act(old(model), ToolStart(index, callID, name)).ops)
    {
      hide Render, Represents, KeyOf, Find, Lookup;
      var key := Tool(index, callID, name);
      Tabled(State(), model, key);
      FindLooked(old(State()), old(model), key, callID, name);
      var t := tools[key];
      RenderOne(protocol, sequence, Open(WireIndex(protocol, t), Call, t.callID, t.name));
      match protocol {
        case Chat => frames := [C(Chunk([Choice(None, None, [ToolPiece(t.targetIndex, t.callID, t.name, "")], None)], NO_USAGE))];
        case Messages => frames := [M(BlockStart(t.blockIndex, ToolUseBlock(t.callID, t.name, "{}")))];
        case Responses =>
          ghost var f := State();
          var added := ResponsesEvent(ItemAdded(t.targetIndex, CallItem(false, t.callID, t.name, "")));
          Idle(f, State(), model, model);
          frames := [added];
      }
    }

    method EncodeToolDelta(index: int, callID: string, delta: string) returns (frames: seq<Frame>)
      requires Valid()
      modifies `sequence, `tools, `toolOrder, `nextBlockIndex, `nextOutputIndex, `model
      ensures Valid() && model == Act(old(model), ToolDelta(index, callID, delta)).enc
      ensures Wrote(old(sequence), frames, Act(old(model), ToolDelta(index, callID, delta)).ops)
    {
      hide Render, Represents, KeyOf, Find, Lookup, Append;
      var key := Tool(index, callID, "");
      FindLooked(old(State()), old(model), key, callID, "");
      if delta == "" {
        RenderNone(protocol, sequence);
        return [];
      }
      ToolExtended(State(), model, key, delta);
      var t := tools[key];
      tools := tools[key := t.(arguments := t.arguments + delta)];
      model := Append(model, Find(model.blocks, Call, key), delta).enc;
      RenderOne(protocol, sequence, Delta(WireIndex(protocol, t), Call, delta));
      match protocol {
        case Chat => frames := [C(Chunk([Choice(None, None, [ToolPiece(t.targetIndex, "", "", delta)], None)], NO_USAGE))];
        case Messages => frames := [M(BlockDelta(t.blockIndex, InputChange(delta)))];
        case Responses =>
          ghost var f := State();
          var extended := ResponsesEvent(ArgsDelta(t.targetIndex, delta));
          Idle(f, State(), model, model);
          frames := [extended];
      }
    }

    method EncodeToolEnd(index: int, callID: string) returns (frames: seq<Frame>)
      requires Valid()
      modifies `sequence, `tools, `toolOrder, `nextBlockIndex, `nextOutputIndex, `model
      ensures Valid() && model == Act(old(model), ToolEnd(index, callID)).enc
      ensures Wrote(old(sequence), frames, Act(old(model), ToolEnd(index, callID)).ops)
    {
      hide Render, Represents, KeyOf, Find, Lookup, CloseBlock;
      var key := Tool(index, callID, "");
      FindLooked(old(State()), old(model), key, callID, "");
      frames := CloseTool(key);
    }

    /** The items of the completed response, each put at its own index. */
    method ResponseOutput() returns (output: seq<Option<Item>>)
      requires Valid() && protocol == Responses
      ensures output == Output(model.blocks)
    {
      hide Find, CallKeys, Placed, ItemOf, Represents;
      ghost var blocks := model.blocks;
      OutputShape(State(), model);
      var items := new Option<Item>[nextOutputIndex](_ => None);
      if reasoning.started {
        items[reasoning.index] := Some(ReasoningItem(if reasoning.text == "" then [] else [reasoning.text]));
      }
      if text.started {
        items[text.index] := Some(MessageItem(true, [text.text]));
      }
      ProsePlaced(State(), model, items[..]);
      assert toolOrder[..0] == [];
      for i := 0 to |toolOrder|
        invariant Placed(blocks, toolOrder[..i], items[..])
      {
        var key := toolOrder[i];
        Tabled(State(), model, key);
        ToolItem(State(), model, key);
        PlacedMore(blocks, toolOrder[..i], items[..], Find(blocks, Call, key));
        var t := tools[key];
        items[t.targetIndex] := Some(CallItem(true, t.callID, t.name, t.arguments));
        assert toolOrder[..i] + [key] == toolOrder[..i + 1];
      }
      output := items[..];
      assert toolOrder[..|toolOrder|] == toolOrder;
      PlacedAll(blocks, output);
    }

    /** Closes the open tools in the order they were filed. */
    method CloseTools() returns (frames: seq<Frame>)
      requires Valid()
      modifies `sequence, `tools, `model
      ensures Valid() && model == CloseCalls(old(model), |old(model).blocks|).enc
      ensures Wrote(old(sequence), frames, CloseCalls(old(model), |old(model).blocks|).ops)
    {
      hide Render, Represents, CloseBlock, Find, CallKeys, CloseCalls;
      ghost var e, p := model, 0;
      Ordered(State(), e);
      frames := [];
      RenderNone(protocol, sequence);
      CloseCallsNone(e);
      for i := 0 to |toolOrder|
        invariant Valid() && p <= |e.blocks|
        invariant toolOrder == CallKeys(e.blocks) && CallKeys(e.blocks[..p]) == toolOrder[..i]
        invariant model == CloseCalls(e, p).enc
        invariant Wrote(old(sequence), frames, CloseCalls(e, p).ops)
      {
        ghost var n := NextCall(e.blocks, p);
        ghost var s := CloseCalls(e, n);
        assert toolOrder[i] == e.blocks[n].key && n < |e.blocks| by { NextIs(e.blocks, p, n, i); }
        SkipCalls(e, p, n);
        NextClosed(State(), e, n);
        var closed := CloseTool(toolOrder[i]);
        Joined(protocol, old(sequence), s.ops, CloseBlock(s.enc, n).ops);
        frames := frames + closed;
        p := n + 1;
      }
      ghost var n := NextCall(e.blocks, p);
      NextIs(e.blocks, p, n, |toolOrder|);
      SkipCalls(e, p, n);
    }

    method FinishStream() returns (frames: seq<Frame>)
      requires Valid()
      modifies this
      ensures Valid() && model == StreamSpec.FinishStream(old(model)).enc
      ensures Wrote(old(sequence), frames, StreamSpec.FinishStream(old(model)).ops)
    {
      hide Render, Represents, CloseProse, Find, CloseCalls, StreamSpec.EnsureStarted, StreamSpec.Conclude;
      if done {
        RenderNone(protocol, sequence);
        return [];
      }
      ghost var f, e := State(), model.(done := true);
      done := true;
      model := e;
      Idle(f, State(), old(model), e);
      ghost var s := StreamSpec.EnsureStarted(e);
      ghost var c := CloseAll(s.enc);
      frames := EnsureStarted();
      var closed := CloseEverything();
      Joined(protocol, f.sequence, s.ops, c.ops);
      frames := frames + closed;
      var ending := Conclude();
      Joined(protocol, f.sequence, s.ops + c.ops, StreamSpec.Conclude(c.enc).ops);
      frames := frames + ending;
    }

    /** The open tools in order, then reasoning, then text. */
    method CloseEverything() returns (frames: seq<Frame>)
      requires Valid()
      modifies `sequence, `tools, `text, `reasoning, `model
      ensures Valid() && model == CloseAll(old(model)).enc
      ensures Wrote(old(sequence), frames, CloseAll(old(model)).ops)
    {
      hide Render, Represents, CloseProse, Find, CloseCalls;
      ghost var c := CloseCalls(model, |model.blocks|);
      ghost var t := CloseProse(c.enc, Think);
      ghost var u := CloseProse(t.enc, Say);
      Joined(protocol, sequence, c.ops, t.ops + u.ops);
      assert c.ops + (t.ops + u.ops) == (c.ops + t.ops) + u.ops;
      frames := CloseTools();
      var prose := CloseProseBlocks();
      frames := frames + prose;
    }

    method CloseText() returns (frames: seq<Frame>)
      requires Valid() && protocol != Chat
      modifies `sequence, `text, `model
      ensures Valid() && model == CloseProse(old(model), Say).enc
      ensures Wrote(old(sequence), frames, CloseProse(old(model), Say).ops)
    {
      hide Render, Represents, CloseProse;
      ghost var f := State();
      ProseClosed(f, model, Say);
      ghost var c := CloseProse(model, Say);
      if !text.started || text.closed {
        RenderNone(protocol, sequence);
        return [];
      }
      RenderOne(protocol, sequence, c.ops[0]);
      assert c.ops == [c.ops[0]];
      text := text.(closed := true);
      model := c.enc;
      if protocol == Messages {
        return [M(BlockStop(text.index))];
      }
      var whole := text.text;
      var last := ResponsesEvent(TextDone(text.index, whole));
      var part := ResponsesEvent(PartDone(text.index, whole));
      var item := ResponsesEvent(ItemDone(text.index, MessageItem(true, [whole])));
      frames := [last, part, item];
      Idle(State().(sequence := f.sequence), State(), model, model);
    }

    /** At the end, reasoning and then text; Chat has no such blocks. */
    method CloseProseBlocks() returns (frames: seq<Frame>)
      requires Valid()
      modifies `sequence, `text, `reasoning, `model
      ensures Valid() && model == CloseProse(CloseProse(old(model), Think).enc, Say).enc
      ensures Wrote(old(sequence), frames, CloseProse(old(model), Think).ops + CloseProse(CloseProse(old(model), Think).enc, Say).ops)
    {
      hide Render, Represents, CloseProse, Find;
      if protocol == Chat {
        ChatNoProse(State(), model);
        RenderNone(protocol, sequence);
        assert CloseProse(model, Think).ops + CloseProse(model, Say).ops == [];
        return [];
      }
      ghost var t := CloseProse(model, Think);
      Joined(protocol, sequence, t.ops, CloseProse(t.enc, Say).ops);
      frames := CloseReasoning();
      var more := CloseText();
      frames := frames + more;
    }

    method Conclude() returns (frames: seq<Frame>)
      requires Valid()
      modifies `sequence, `stopReason, `model
      ensures Valid() && model == StreamSpec.Conclude(old(model)).enc
      ensures Wrote(old(sequence), frames, StreamSpec.Conclude(old(model)).ops)
    {
      hide Render, Represents;
      ghost var f, e := State(), model;
      RenderOne(protocol, sequence, StreamSpec.Conclude(e).ops[0]);
      if stopReason == "" {
        stopReason := "stop";
      }
      model := StreamSpec.Conclude(e).enc;
      Idle(f, State(), e, model);
      match protocol {
        case Chat =>
          frames := [C(Chunk([Choice(None, None, [], Some(ChatStop(stopReason)))],
                             if UsagePresent(usage) && !omitChatUsage then ChatUsage(usage) else NO_USAGE)),
                     C(DoneMarker)];
        case Messages =>
          frames := [M(MessageDelta(MessagesStop(stopReason), MessagesUsage(usage))), M(MessageStop)];
        case Responses =>
          var items := ResponseOutput();
          var completed := ResponsesEvent(Completed("completed", "", items, ResponsesUsage(usage)));
          frames := [completed];
          Idle(f, State(), e, model);
      }
    }

    method Lead(ev: Event) returns (frames: seq<Frame>)
      requires Valid()
      modifies `sequence, `started, `reasoning, `model
      ensures Valid() && model == StreamSpec.Prepare(old(model), ev).enc
      ensures Wrote(old(sequence), frames, StreamSpec.Prepare(old(model), ev).ops)
    {
      hide Render, Represents, CloseProse, Find;
      ghost var s := StreamSpec.EnsureStarted(model);
      frames := EnsureStarted();
      if (protocol == Responses || protocol == Messages) && !ev.Reasoning? {
        Joined(protocol, old(sequence), s.ops, CloseProse(s.enc, Think).ops);
        var closed := CloseReasoning();
        frames := frames + closed;
      } else if protocol == Chat {
        ChatNoProse(State(), model);
        assert s.ops + [] == s.ops;
      }
    }

    method EncodeContent(ev: Event) returns (frames: seq<Frame>)
      requires Valid() && IsContent(ev)
      modifies `sequence, `text, `reasoning, `tools, `toolOrder, `nextBlockIndex, `nextOutputIndex, `model
      ensures Valid() && model == StreamSpec.Act(old(model), ev).enc
      ensures Wrote(old(sequence), frames, StreamSpec.Act(old(model), ev).ops)
    {
      hide Render, Represents, Prose, Find, KeyOf;
      match ev {
        case Text(_, delta) => frames := EncodeText(delta);
        case Reasoning(_, delta) => frames := EncodeReasoning(delta);
        case ToolStart(index, callID, name) => frames := EncodeToolStart(index, callID, name);
        case ToolDelta(index, callID, delta) => frames := EncodeToolDelta(index, callID, delta);
        case ToolEnd(index, callID) => frames := EncodeToolEnd(index, callID);
      }
    }

    method Encode(ev: Event) returns (frames: seq<Frame>)
      requires Valid()
      modifies this
      ensures Valid() && model == Step(old(model), ev).enc
      ensures Wrote(old(sequence), frames, Step(old(model), ev).ops)
    {
      hide Render, Represents, StreamSpec.Act, StreamSpec.Prepare, StreamSpec.FinishStream, MergeUsage;
      RenderNone(protocol, sequence);
      ghost var f, e := State(), model;
      if done {
        return [];
      }
      match ev {
        case Start =>
          return [];
        case UsageSeen(u) =>
          usage := MergeUsage(usage, u);
          model := model.(usage := usage);
          Idle(f, State(), e, model);
          return [];
        case Finish(stop) =>
          stopReason := stop;
          model := model.(stop := stop);
          Idle(f, State(), e, model);
          return [];
        case Done =>
          frames := FinishStream();
        case _ =>
          frames := EncodeLed(ev);
      }
    }

    method EncodeLed(ev: Event) returns (frames: seq<Frame>)
      requires Valid() && IsContent(ev)
      modifies this
      ensures Valid() && model == StreamSpec.Act(StreamSpec.Prepare(old(model), ev).enc, ev).enc
      ensures var p := StreamSpec.Prepare(old(model), ev);
        Wrote(old(sequence), frames, p.ops + StreamSpec.Act(p.enc, ev).ops)
    {
      hide Render, Represents, StreamSpec.Act, StreamSpec.Prepare;
      ghost var p := StreamSpec.Prepare(model, ev);
      Joined(protocol, sequence, p.ops, StreamSpec.Act(p.enc, ev).ops);
      frames := Lead(ev);
      var encoded := EncodeContent(ev);
      frames := frames + encoded;
    }
  }

  /** The indexes and keys the output is built from are all in range. */
  lemma OutputShape(f: Fields, e: Enc)
    requires Represents(f, e) && e.protocol == Responses
    ensures f.nextOutputIndex == |e.blocks| && f.toolOrder == CallKeys(e.blocks) && Keyed(e.blocks)
    ensures f.text.started ==> 0 <= f.text.index < |e.blocks|
    ensures f.reasoning.started ==> 0 <= f.reasoning.index < |e.blocks|
    ensures f.text.started && f.reasoning.started ==> f.text.index != f.reasoning.index
    ensures forall k | k in f.toolOrder :: k in f.tools
  {
    hide Find;
    KeysTabled(e.blocks);
  }

  lemma ToolItem(f: Fields, e: Enc, key: string)
    requires Represents(f, e) && e.protocol == Responses && key in f.tools
    ensures var n, t := Find(e.blocks, Call, key), f.tools[key];
      && n == t.targetIndex < |e.blocks| && e.blocks[n].tag == Call && e.blocks[n].key == key
      && ItemOf(e.blocks[n]) == CallItem(true, t.callID, t.name, t.arguments)
  {
    hide Find;
    assert ToolOk(e, key, f.tools[key]);
  }

  lemma PlacedAll(blocks: seq<Blk>, items: seq<Option<Item>>)
    requires Placed(blocks, CallKeys(blocks), items)
    ensures items == Output(blocks)
  {
    forall n | 0 <= n < |blocks| ensures items[n] == Output(blocks)[n] {
      if blocks[n].tag == Call { KeyListed(blocks, n); }
    }
  }

  /** After a lookup the tool is where the lookup found or filed it. */
  lemma FindLooked(was: Fields, e: Enc, key: string, callID: string, name: string)
    requires Represents(was, e)
    ensures Find(Lookup(e, key, callID, name).blocks, Call, key) == Find(e.blocks, Call, key)
  {
    hide Find;
    var n, f := Find(e.blocks, Call, key), Lookup(e, key, callID, name);
    if n == |e.blocks| { GrownUnique(e.blocks, f.blocks[n]); } else { FindKept(e.blocks, f.blocks, Call, key); }
  }

  /** Text, reasoning and the listed tools have their items in place. */
  predicate Placed(blocks: seq<Blk>, keys: seq<string>, items: seq<Option<Item>>) {
    |items| == |blocks| && forall n | 0 <= n < |blocks| ::
      blocks[n].tag != Call || blocks[n].key in keys ==> items[n] == Some(ItemOf(blocks[n]))
  }

  lemma ProsePlaced(f: Fields, e: Enc, items: seq<Option<Item>>)
    requires Represents(f, e) && |items| == |e.blocks|
    requires f.text.started && 0 <= f.text.index < |items| ==> items[f.text.index] == Some(MessageItem(true, [f.text.text]))
    requires f.reasoning.started && 0 <= f.reasoning.index < |items| ==>
      items[f.reasoning.index] == Some(ReasoningItem(if f.reasoning.text == "" then [] else [f.reasoning.text]))
    ensures Placed(e.blocks, [], items)
  {
    hide Find, ToolsOk;
    forall n | 0 <= n < |e.blocks| && e.blocks[n].tag != Call ensures items[n] == Some(ItemOf(e.blocks[n])) {
      FindUnique(e.blocks, n);
    }
  }

  lemma {:induction false} KeysTabled(blocks: seq<Blk>)
    ensures forall k | k in CallKeys(blocks) :: Find(blocks, Call, k) < |blocks|
  {
    if blocks != [] {
      var front, last := blocks[..|blocks| - 1], blocks[|blocks| - 1];
      KeysTabled(front);
      hide Find;
      forall k | k in CallKeys(blocks) ensures Find(blocks, Call, k) < |blocks| {
        if k in CallKeys(front) { FindKept(front, blocks, Call, k); } else { assert blocks[|blocks| - 1].key == k; }
      }
    }
  }

  lemma PlacedMore(blocks: seq<Blk>, keys: seq<string>, items: seq<Option<Item>>, n: nat)
    requires Placed(blocks, keys, items) && Keyed(blocks) && n < |blocks| && blocks[n].tag == Call
    ensures Placed(blocks, keys + [blocks[n].key], items[n := Some(ItemOf(blocks[n]))])
  {
    forall m | 0 <= m < |blocks| && blocks[m].tag == Call && blocks[m].key == blocks[n].key ensures m == n {
      FindUnique(blocks, m);
      FindUnique(blocks, n);
    }
  }

  lemma Ordered(f: Fields, e: Enc)
    requires Represents(f, e)
    ensures f.toolOrder == CallKeys(e.blocks)
  {
  }

  lemma CloseCallsNone(e: Enc)
    ensures CloseCalls(e, 0) == Stepped(e, []) && CallKeys(e.blocks[..0]) == []
  {
  }

  /** The `i`-th tool in filing order is the next tool block. */
  lemma {:induction false} NextIs(blocks: seq<Blk>, p: nat, n: nat, i: nat)
    requires p <= |blocks| && NoCall(blocks, p, n) && (n < |blocks| ==> blocks[n].tag == Call)
    requires n < |blocks| ==> CallKeys(blocks[..n + 1]) == CallKeys(blocks[..p]) + [blocks[n].key]
    requires CallKeys(blocks[..n]) == CallKeys(blocks[..p])
    requires i <= |CallKeys(blocks)| && CallKeys(blocks[..p]) == CallKeys(blocks)[..i]
    ensures if i < |CallKeys(blocks)| then n < |blocks| && CallKeys(blocks)[i] == blocks[n].key else n == |blocks|
    ensures i < |CallKeys(blocks)| ==> CallKeys(blocks[..n + 1]) == CallKeys(blocks)[..i + 1]
  {
    hide CallKeys;
    if n < |blocks| {
      CallKeysPrefix(blocks, n + 1);
    } else {
      assert blocks[..n] == blocks;
    }
  }

  lemma NextClosed(f: Fields, e: Enc, n: nat)
    requires n < |e.blocks| && e.blocks[n].tag == Call && Represents(f, CloseCalls(e, n).enc)
    ensures var s := CloseCalls(e, n);
      && e.blocks[n].key in f.tools && Find(s.enc.blocks, Call, e.blocks[n].key) == n
      && CloseCalls(e, n + 1) == Stepped(CloseBlock(s.enc, n).enc, s.ops + CloseBlock(s.enc, n).ops)
  {
    hide CloseCalls, CloseBlock, Find;
    var s := CloseCalls(e, n);
    CloseCallsAhead(e, n);
    CloseCallsMore(e, n);
    FindUnique(s.enc.blocks, n);
    Tabled(f, s.enc, e.blocks[n].key);
  }

  lemma ChatNoProse(f: Fields, e: Enc)
    requires Represents(f, e) && e.protocol == Chat
    ensures CloseProse(e, Think) == Stepped(e, []) == CloseProse(e, Say)
  {
  }

  lemma OpeningLength(protocol: Protocol, tag: Tag, m: nat, n: int)
    ensures |OpeningFrames(protocol, tag, m, n)| == if protocol == Messages then 1 else 2
  {
  }

  lemma NoProse(e: Enc, tag: Tag)
    ensures Prose(e, tag, "") == Stepped(e, [])
  {
  }

  lemma Idle(f: Fields, g: Fields, e: Enc, e': Enc)
    requires Represents(f, e) && g == f.(sequence := g.sequence) && e'.blocks == e.blocks && e'.protocol == e.protocol
    ensures Represents(g, e')
  {
    hide Find;
    forall k | k in g.tools ensures ToolOk(e', k, g.tools[k]) {
      assert ToolOk(e, k, f.tools[k]);
    }
  }

  /** Only Responses frames carry a running number. */
  lemma {:induction false} Joined(protocol: Protocol, n: nat, a: seq<Op>, b: seq<Op>)
    ensures Render(protocol, n, a + b) == Render(protocol, n, a)
      + Render(protocol, n + (if protocol == Responses then |Render(protocol, n, a)| else 0), b)
  {
    RenderConcat(protocol, n, a, b);
  }

  lemma RenderNone(protocol: Protocol, n: nat)
    ensures Render(protocol, n, []) == []
  {
  }

  /** Converting a stream event by event writes exactly the encoding of the whole sequence, Responses
      frames numbered from 0; the encoder ends up with distinct indexes that leave no hole. */
  method EncodeStream(protocol: Protocol, omitChatUsage: bool, es: seq<Event>) returns (frames: seq<Frame>, fields: Fields)
    ensures frames == StreamSpec.Encode(protocol, omitChatUsage, es)
    ensures protocol == Responses ==> forall i | 0 <= i < |frames| :: frames[i].R? && frames[i].response.sequence == i
    ensures Represents(fields, Run(protocol, omitChatUsage, es).enc) && DistinctAndDense(protocol, fields)
  {
    hide Render, Represents, Step, DistinctAndDense;
    var encoder := new Encoder(protocol, omitChatUsage);
    frames := [];
    RenderNone(protocol, 0);
    assert es[..0] == [];
    for i := 0 to |es|
      invariant encoder.Valid() && encoder.protocol == protocol
      invariant encoder.model == Run(protocol, omitChatUsage, es[..i]).enc
      invariant encoder.Wrote(0, frames, Run(protocol, omitChatUsage, es[..i]).ops)
    {
      ghost var r := Run(protocol, omitChatUsage, es[..i]);
      assert es[..i + 1][..i] == es[..i];
      Joined(protocol, 0, r.ops, Step(r.enc, es[i]).ops);
      var more := encoder.Encode(es[i]);
      frames := frames + more;
    }
    assert es[..|es|] == es;
    fields := encoder.State();
    IndexesDistinctAndDense(fields, encoder.model);
    Numbered(omitChatUsage, es);
  }
}

/** The grammar of the emitted frames: what the ledger theorem says about the wire. */
module StreamWireGrammar {
  import opened StreamTypes
  import opened StreamSpec
  import opened StreamGrammar
  import opened Sequences

  // ---- lanes of frames ----

  predicate IsBlockFrame(f: MessagesFrame) {
    f.BlockStart? || f.BlockDelta? || f.BlockStop?
  }

  predicate IsItemBody(f: ResponsesBody) {
    !(f.Created? || f.InProgress? || f.Completed? || f.ResponsesFault?)
  }

  function OnMessageBlock(n: int): MessagesFrame -> seq<MessagesFrame> {
    (f: MessagesFrame) => if IsBlockFrame(f) && f.index == n then [f] else []
  }

  function OnOutputItem(n: int): ResponsesBody -> seq<ResponsesBody> {
    (f: ResponsesBody) => if IsItemBody(f) && f.index == n then [f] else []
  }

  /** First opens, last closes, and nothing between opens or closes. */
  predicate ClosedOnce<F(!new)>(lane: seq<F>, opens: F -> bool, closes: F -> bool) {
    && |lane| >= 2 && opens(lane[0]) && closes(lane[|lane| - 1])
    && forall j | 0 < j < |lane| - 1 :: !opens(lane[j]) && !closes(lane[j])
  }

  function BlockOpens(): MessagesFrame -> bool { (f: MessagesFrame) => f.BlockStart? }
  function BlockCloses(): MessagesFrame -> bool { (f: MessagesFrame) => f.BlockStop? }
  function ItemOpens(): ResponsesBody -> bool { (f: ResponsesBody) => f.ItemAdded? }
  function ItemCloses(): ResponsesBody -> bool { (f: ResponsesBody) => f.ItemDone? }

  /** A Messages stream: one start, then blocks, each index opened once and closed once, then the
      final delta and the stop, and nothing after. */
  ghost predicate MessagesGrammar(frames: seq<MessagesFrame>) {
    && |frames| >= 3
    && frames[0].MessageStart? && frames[|frames| - 2].MessageDelta? && frames[|frames| - 1].MessageStop?
    && (forall f | f in frames[1..|frames| - 2] :: IsBlockFrame(f))
    && forall n: int :: var lane := FlatMap(OnMessageBlock(n), frames);
         lane == [] || ClosedOnce(lane, BlockOpens(), BlockCloses())
  }

  /** A Responses stream: created, in progress, then items, each output index added once and done
      once, then completed, and nothing after. */
  ghost predicate ResponsesGrammar(bodies: seq<ResponsesBody>) {
    && |bodies| >= 3
    && bodies[0].Created? && bodies[1].InProgress? && bodies[|bodies| - 1].Completed?
    && (forall f | f in bodies[2..|bodies| - 1] :: IsItemBody(f))
    && forall n: int :: var lane := FlatMap(OnOutputItem(n), bodies);
         lane == [] || ClosedOnce(lane, ItemOpens(), ItemCloses())
  }

  // ---- from operations to frames ----

  lemma {:induction false} PickThrough<F>(emit: Op -> seq<F>, pick: F -> seq<F>, n: int, ops: seq<Op>)
    requires forall op | op in ops :: FlatMap(pick, emit(op)) == if OnSlot(op, n) then emit(op) else []
    ensures FlatMap(pick, FlatMap(emit, ops)) == FlatMap(emit, Lane(ops, n))
  {
    if ops != [] {
      var front, last := ops[..|ops| - 1], ops[|ops| - 1];
      PickThrough(emit, pick, n, front);
      FlatMapConcat(pick, FlatMap(emit, front), emit(last));
      assert ops == front + [last];
      LaneMore(front, [last], n);
      if OnSlot(last, n) { FlatMapMore(emit, Lane(front, n), last); } else { assert Lane(ops, n) == Lane(front, n); }
    }
  }

  /** How the frames of an operation open and close. */
  predicate Emits<F(!new)>(emit: Op -> seq<F>, opens: F -> bool, closes: F -> bool, op: Op) {
    var fs := emit(op);
    && fs != []
    && (forall j | 0 <= j < |fs| :: opens(fs[j]) <==> op.Open? && j == 0)
    && (forall j | 0 <= j < |fs| :: closes(fs[j]) <==> op.Close? && j == |fs| - 1)
  }

  lemma {:induction false} PlainThrough<F(!new)>(emit: Op -> seq<F>, opens: F -> bool, closes: F -> bool, ops: seq<Op>)
    requires forall op | op in ops :: Emits(emit, opens, closes, op)
    ensures (forall f | f in FlatMap(emit, ops) :: !opens(f) && !closes(f)) <==> (forall op | op in ops :: !op.Open? && !op.Close?)
  {
    if ops != [] {
      var front, last := ops[..|ops| - 1], ops[|ops| - 1];
      PlainThrough(emit, opens, closes, front);
      assert ops == front + [last];
      var fs := emit(last);
      assert Emits(emit, opens, closes, last);
      if last.Open? { assert fs[0] in FlatMap(emit, ops); }
      if last.Close? { assert fs[|fs| - 1] in FlatMap(emit, ops); }
    }
  }

  lemma LongThrough<F(!new)>(emit: Op -> seq<F>, opens: F -> bool, closes: F -> bool, first: Op, mid: seq<Op>, last: Op)
    requires OnBlock(first) && OnBlock(last) && forall op | op in mid :: OnBlock(op)
    requires Emits(emit, opens, closes, first) && Emits(emit, opens, closes, last)
    requires forall op | op in mid :: Emits(emit, opens, closes, op)
    ensures var lane := [first] + mid + [last];
      && FlatMap(emit, lane) != []
      && (ClosedOnce(FlatMap(emit, lane), opens, closes) <==> first.Open? && last.Close? && forall op | op in mid :: op.Delta?)
  {
    var lane := [first] + mid + [last];
    FlatMapMore(emit, [first] + mid, last);
    FlatMapConcat(emit, [first], mid);
    FlatMapOne(emit, first);
    PlainThrough(emit, opens, closes, mid);
    if first.Open? && last.Close? {
      Sandwich(emit(first), FlatMap(emit, mid), emit(last), opens, closes);
    } else {
      var fs := FlatMap(emit, lane);
      assert fs[0] == emit(first)[0] && fs[|fs| - 1] == emit(last)[|emit(last)| - 1];
    }
  }

  lemma CompleteThrough<F(!new)>(emit: Op -> seq<F>, opens: F -> bool, closes: F -> bool, lane: seq<Op>)
    requires forall op | op in lane :: OnBlock(op) && Emits(emit, opens, closes, op)
    ensures ClosedOnce(FlatMap(emit, lane), opens, closes) <==> Complete(lane)
    ensures FlatMap(emit, lane) == [] <==> lane == []
  {
    if |lane| == 1 {
      FlatMapOne(emit, lane[0]);
      assert lane == [lane[0]];
      assert Emits(emit, opens, closes, lane[0]);
    } else if |lane| >= 2 {
      hide Emits, FlatMap, ClosedOnce;
      var first, mid, last := lane[0], lane[1..|lane| - 1], lane[|lane| - 1];
      assert lane == [first] + mid + [last];
      LongThrough(emit, opens, closes, first, mid, last);
      CompleteParts(first, mid, last);
    }
  }

  lemma CompleteParts(first: Op, mid: seq<Op>, last: Op)
    ensures Complete([first] + mid + [last]) <==> first.Open? && last.Close? && forall op | op in mid :: op.Delta?
  {
    var lane := [first] + mid + [last];
    assert forall j | 0 <= j < |mid| :: lane[j + 1] == mid[j];
    if Complete(lane) {
      forall op | op in mid ensures op.Delta? {
        var j :| 0 <= j < |mid| && mid[j] == op;
        assert lane[j + 1] == op;
      }
    }
  }

  lemma Sandwich<F(!new)>(a: seq<F>, mid: seq<F>, b: seq<F>, opens: F -> bool, closes: F -> bool)
    requires a != [] && b != []
    requires forall j | 0 < j < |a| :: !opens(a[j])
    requires forall j | 0 <= j < |b| - 1 :: !closes(b[j])
    ensures ClosedOnce(a + mid + b, opens, closes) <==>
      && opens(a[0]) && closes(b[|b| - 1])
      && (forall j | 0 < j < |a| :: !closes(a[j])) && (forall j | 0 <= j < |b| - 1 :: !opens(b[j]))
      && (forall f | f in mid :: !opens(f) && !closes(f))
  {
    var s := a + mid + b;
    assert forall j | 0 <= j < |a| :: s[j] == a[j];
    assert forall j | 0 <= j < |mid| :: s[|a| + j] == mid[j];
    assert forall j | 0 <= j < |b| :: s[|a| + |mid| + j] == b[j];
    if ClosedOnce(s, opens, closes) {
      forall f | f in mid ensures !opens(f) && !closes(f) {
        var j :| 0 <= j < |mid| && mid[j] == f;
        assert s[|a| + j] == f;
      }
      forall j | 0 <= j < |b| - 1 ensures !opens(b[j]) {
        assert s[|a| + |mid| + j] == b[j];
      }
    }
  }

  // ---- the shape of a whole run ----

  predicate Led(e: Enc, ops: seq<Op>) {
    if e.started then ops != [] && ops[0].Begin? && forall op | op in ops[1..] :: OnBlock(op) else ops == []
  }

  lemma ProseOnBlock(e: Enc, ev: Event)
    requires IsContent(ev)
    ensures forall op | op in Act(e, ev).ops :: OnBlock(op)
    ensures forall op | op in CloseProse(e, Think).ops :: OnBlock(op)
  {
    hide Find, KeyOf;
  }

  lemma StepLed(e: Enc, ops: seq<Op>, ev: Event)
    requires Led(e, ops) && !e.done && !ev.Done?
    ensures Led(Step(e, ev).enc, ops + Step(e, ev).ops)
  {
    hide Act, CloseProse;
    if IsContent(ev) {
      var s, p := EnsureStarted(e), Prepare(e, ev);
      ActKeeps(p.enc, ev);
      PrepareKeeps(e, ev);
      ProseOnBlock(s.enc, ev);
      ProseOnBlock(p.enc, ev);
      var more := (if ev.Reasoning? then [] else CloseProse(s.enc, Think).ops) + Act(p.enc, ev).ops;
      assert Step(e, ev).ops == s.ops + more;
      if e.started {
        assert (ops + (s.ops + more))[1..] == ops[1..] + more;
      } else {
        assert (ops + (s.ops + more))[1..] == more;
      }
    } else {
      assert ops + [] == ops;
    }
  }

  lemma {:induction false} RunLed(protocol: Protocol, omitUsage: bool, es: seq<Event>)
    requires Undone(es)
    ensures var r := Run(protocol, omitUsage, es); Led(r.enc, r.ops) && !r.enc.done
  {
    if es != [] {
      hide Step;
      var front, last := es[..|es| - 1], es[|es| - 1];
      RunLed(protocol, omitUsage, front);
      var r := Run(protocol, omitUsage, front);
      RunInv(protocol, omitUsage, front);
      StepInv(r.enc, Read(front), r.ops, last);
      StepLed(r.enc, r.ops, last);
    }
  }

  /** The block operations of the run over `es` followed by done. */
  function Middle(protocol: Protocol, omitUsage: bool, es: seq<Event>): seq<Op> {
    var r := Run(protocol, omitUsage, es);
    (if r.ops == [] then [] else r.ops[1..]) + CloseAll(EnsureStarted(r.enc.(done := true)).enc).ops
  }

  /** Each block's lane is what it was before done, closed if it was not. */
  ghost predicate Finished(e: Enc, ops: seq<Op>, mid: seq<Op>) {
    forall n: int :: Lane(mid, n) == Lane(ops, n) + Closing(e.blocks, n)
  }

  lemma MiddleFinished(protocol: Protocol, omitUsage: bool, es: seq<Event>)
    requires Undone(es)
    ensures Finished(Run(protocol, omitUsage, es).enc, Run(protocol, omitUsage, es).ops, Middle(protocol, omitUsage, es))
    ensures forall op | op in Middle(protocol, omitUsage, es) :: OnBlock(op)
  {
    hide Run, CloseAll, Lane, Inv;
    var r := Run(protocol, omitUsage, es);
    RunLed(protocol, omitUsage, es);
    RunInv(protocol, omitUsage, es);
    InvKeyed(r.enc, Read(es), r.ops);
    var s := EnsureStarted(r.enc.(done := true));
    var c := CloseAll(s.enc);
    CloseAllLane(s.enc, 0);
    forall n: int ensures Lane(Middle(protocol, omitUsage, es), n) == Lane(r.ops, n) + Closing(r.enc.blocks, n) {
      CloseAllLane(s.enc, n);
      if r.ops == [] {
        assert [] + c.ops == c.ops;
        LaneMore([], c.ops, n);
        assert Middle(protocol, omitUsage, es) == c.ops;
      } else {
        assert r.ops == [r.ops[0]] + r.ops[1..];
        LaneMore([r.ops[0]], r.ops[1..], n);
        LaneMore([], [r.ops[0]], n);
        LaneMore(r.ops[1..], c.ops, n);
        assert Lane([r.ops[0]], n) == [];
      }
    }
  }

  lemma RunDone(protocol: Protocol, omitUsage: bool, es: seq<Event>)
    ensures var r := Run(protocol, omitUsage, es);
      && Run(protocol, omitUsage, es + [Done]).ops == r.ops + FinishStream(r.enc).ops
      && Run(protocol, omitUsage, es + [Done]).enc == FinishStream(r.enc).enc
  {
    var all := es + [Done];
    assert all[..|all| - 1] == es && all[|all| - 1] == Done;
    hide FinishStream;
  }

  lemma Ends(started: seq<Op>, opening: seq<Op>, closing: seq<Op>, ending: seq<Op>)
    requires |ending| == 1 && (if started == [] then |opening| == 1 else opening == [])
    ensures var ops, mid := started + (opening + closing + ending), (if started == [] then [] else started[1..]) + closing;
      |ops| == |mid| + 2 && ops == [ops[0]] + mid + [ending[0]] && ops[0] == (if started == [] then opening[0] else started[0])
  {
    if started != [] { assert started == [started[0]] + started[1..]; }
  }

  lemma {:induction false} WholeRun(protocol: Protocol, omitUsage: bool, es: seq<Event>)
    requires Undone(es)
    ensures var ops := Run(protocol, omitUsage, es + [Done]).ops;
      var mid := Middle(protocol, omitUsage, es);
      && |ops| == |mid| + 2 && ops[0].Begin? && ops[|ops| - 1].End? && ops == [ops[0]] + mid + [ops[|ops| - 1]]
      && (forall op | op in mid :: OnBlock(op))
    ensures Finished(Run(protocol, omitUsage, es).enc, Run(protocol, omitUsage, es).ops, Middle(protocol, omitUsage, es))
  {
    MiddleFinished(protocol, omitUsage, es);
    RunLed(protocol, omitUsage, es);
    RunDone(protocol, omitUsage, es);
    hide Run, CloseAll, Finished, OnBlock;
    var r := Run(protocol, omitUsage, es);
    var s := EnsureStarted(r.enc.(done := true));
    var c := CloseAll(s.enc);
    Ends(r.ops, s.ops, c.ops, Conclude(c.enc).ops);
  }

  lemma LaneWithin(ops: seq<Op>, n: int)
    ensures forall op | op in Lane(ops, n) :: op in ops && OnSlot(op, n)
  {
    FlatMapAll(Pick(n), ops, (op: Op) => op in ops && OnSlot(op, n));
  }

  /** On the wire, too, a block's frames are opened and closed once exactly when its lane is complete. */
  lemma {:induction false} LaneOnWire<F(!new)>(
      emit: Op -> seq<F>, pick: F -> seq<F>, opens: F -> bool, closes: F -> bool,
      head: Op, mid: seq<Op>, tail: Op, n: int)
    requires forall op | op in mid :: OnBlock(op) && Emits(emit, opens, closes, op)
    requires forall op | op in mid :: FlatMap(pick, emit(op)) == if OnSlot(op, n) then emit(op) else []
    requires forall f | f in emit(head) || f in emit(tail) :: pick(f) == []
    ensures var lane := FlatMap(pick, FlatMap(emit, [head] + mid + [tail]));
      && (lane == [] <==> Lane(mid, n) == []) && (ClosedOnce(lane, opens, closes) <==> Complete(Lane(mid, n)))
    ensures FlatMap(emit, [head] + mid + [tail]) == emit(head) + FlatMap(emit, mid) + emit(tail)
  {
    hide Emits, ClosedOnce, FlatMap, Complete, Lane;
    FlatMapMore(emit, [head] + mid, tail);
    FlatMapConcat(emit, [head], mid);
    FlatMapOne(emit, head);
    FlatMapConcat(pick, emit(head) + FlatMap(emit, mid), emit(tail));
    FlatMapConcat(pick, emit(head), FlatMap(emit, mid));
    FlatMapNone(pick, emit(head));
    FlatMapNone(pick, emit(tail));
    PickThrough(emit, pick, n, mid);
    var lane := FlatMap(emit, Lane(mid, n));
    assert [] + lane + [] == lane;
    LaneWithin(mid, n);
    CompleteThrough(emit, opens, closes, Lane(mid, n));
  }

  lemma LanesDecide(e: Enc, l: Ledger, ops: seq<Op>, mid: seq<Op>)
    requires Inv(e, l, ops) && e.protocol != Chat && Finished(e, ops, mid)
    ensures (forall n: int :: Lane(mid, n) == [] || Complete(Lane(mid, n))) <==> Orderly(l) && l.touched <= l.begun
  {
    ClosedLanes(e, l, ops);
    hide Lane, Find, Filed;
    if forall n: int :: Lane(mid, n) == [] || Complete(Lane(mid, n)) {
      if !Orderly(l) {
        var i :| 0 <= i < |e.blocks| && !Sound(Lane(ops, i));
        assert Sound(Lane(mid, i));
        SoundPrefix(Lane(ops, i), Closing(e.blocks, i));
      }
      forall n | 0 <= n < |e.blocks| ensures Complete(Lane(ops, n) + Closing(e.blocks, n)) {
        assert BlockOk(l, Lane(ops, n), n, e.blocks[n]);
        assert Lane(mid, n) == Lane(ops, n) + Closing(e.blocks, n);
      }
    } else {
      var n: int :| Lane(mid, n) != [] && !Complete(Lane(mid, n));
      assert 0 <= n < |e.blocks|;
    }
  }

  // ---- main results ----

  lemma MessagesEmits(op: Op, n: int)
    requires OnBlock(op)
    ensures Emits(MessagesFrames, BlockOpens(), BlockCloses(), op)
    ensures FlatMap(OnMessageBlock(n), MessagesFrames(op)) == if OnSlot(op, n) then MessagesFrames(op) else []
    ensures forall f | f in MessagesFrames(op) :: IsBlockFrame(f)
  {
    FlatMapOne(OnMessageBlock(n), MessagesFrames(op)[0]);
    assert MessagesFrames(op) == [MessagesFrames(op)[0]];
  }

  lemma MessagesLane(head: Op, mid: seq<Op>, tail: Op, n: int)
    requires head.Begin? && tail.End? && forall op | op in mid :: OnBlock(op)
    ensures var frames := FlatMap(MessagesFrames, [head] + mid + [tail]);
      var lane := FlatMap(OnMessageBlock(n), frames);
      && (lane == [] <==> Lane(mid, n) == []) && (ClosedOnce(lane, BlockOpens(), BlockCloses()) <==> Complete(Lane(mid, n)))
      && frames == MessagesFrames(head) + FlatMap(MessagesFrames, mid) + MessagesFrames(tail)
      && forall f | f in FlatMap(MessagesFrames, mid) :: IsBlockFrame(f)
  {
    hide FlatMap, Lane, ClosedOnce, Complete, Emits;
    forall op | op in mid ensures
      && Emits(MessagesFrames, BlockOpens(), BlockCloses(), op)
      && (FlatMap(OnMessageBlock(n), MessagesFrames(op)) == if OnSlot(op, n) then MessagesFrames(op) else [])
      && (forall f | f in MessagesFrames(op) :: IsBlockFrame(f))
    {
      MessagesEmits(op, n);
    }
    FlatMapAll(MessagesFrames, mid, IsBlockFrame);
    LaneOnWire(MessagesFrames, OnMessageBlock(n), BlockOpens(), BlockCloses(), head, mid, tail, n);
  }

  /** The Messages stream obeys the grammar if and only if the input sequence is well formed. */
  lemma {:induction false} MessagesGrammarIff(omitUsage: bool, es: seq<Event>)
    requires Undone(es)
    ensures MessagesGrammar(FlatMap(MessagesFrames, Run(Messages, omitUsage, es + [Done]).ops)) <==> WellFormed(es)
  {
    hide Run, Middle, FlatMap, Lane, ClosedOnce, Complete, Inv, Finished;
    var r, mid := Run(Messages, omitUsage, es), Middle(Messages, omitUsage, es);
    var ops := Run(Messages, omitUsage, es + [Done]).ops;
    WholeRun(Messages, omitUsage, es);
    RunInv(Messages, omitUsage, es);
    LanesDecide(r.enc, Read(es), r.ops, mid);
    var body, frames := FlatMap(MessagesFrames, mid), FlatMap(MessagesFrames, ops);
    forall n: int { MessagesLane(ops[0], mid, ops[|ops| - 1], n); }
    MessagesLane(ops[0], mid, ops[|ops| - 1], 0);
    assert frames[1..|frames| - 2] == body;
  }

  lemma {:induction false} FlatMapSame<A>(f: A -> seq<A>, s: seq<A>)
    requires forall x | x in s :: f(x) == [x]
    ensures FlatMap(f, s) == s
  {
    if s != [] { FlatMapSame(f, s[..|s| - 1]); }
  }

  lemma BodiesOf(op: Op)
    requires OnBlock(op)
    ensures ResponsesBodies(op) != []
    ensures forall f | f in ResponsesBodies(op) :: IsItemBody(f) && f.index == op.slot
    ensures forall j | 0 <= j < |ResponsesBodies(op)| :: ResponsesBodies(op)[j].ItemAdded? <==> op.Open? && j == 0
    ensures forall j | 0 <= j < |ResponsesBodies(op)| :: ResponsesBodies(op)[j].ItemDone? <==> op.Close? && j == |ResponsesBodies(op)| - 1
  {
    match op.tag {
      case Think =>
      case Say =>
      case Call =>
    }
  }

  lemma ResponsesEmits(op: Op, n: int)
    requires OnBlock(op)
    ensures Emits(ResponsesBodies, ItemOpens(), ItemCloses(), op)
    ensures FlatMap(OnOutputItem(n), ResponsesBodies(op)) == if OnSlot(op, n) then ResponsesBodies(op) else []
    ensures forall f | f in ResponsesBodies(op) :: IsItemBody(f)
  {
    BodiesOf(op);
    hide ResponsesBodies, FlatMap;
    if op.slot == n {
      FlatMapSame(OnOutputItem(n), ResponsesBodies(op));
    } else {
      FlatMapNone(OnOutputItem(n), ResponsesBodies(op));
    }
  }

  lemma ResponsesLane(head: Op, mid: seq<Op>, tail: Op, n: int)
    requires head.Begin? && tail.End? && forall op | op in mid :: OnBlock(op)
    ensures var bodies := FlatMap(ResponsesBodies, [head] + mid + [tail]);
      var lane := FlatMap(OnOutputItem(n), bodies);
      && (lane == [] <==> Lane(mid, n) == []) && (ClosedOnce(lane, ItemOpens(), ItemCloses()) <==> Complete(Lane(mid, n)))
      && bodies == ResponsesBodies(head) + FlatMap(ResponsesBodies, mid) + ResponsesBodies(tail)
      && forall f | f in FlatMap(ResponsesBodies, mid) :: IsItemBody(f)
  {
    hide FlatMap, Lane, ClosedOnce, Complete, Emits;
    forall f | f in ResponsesBodies(head) || f in ResponsesBodies(tail) ensures OnOutputItem(n)(f) == [] {}
    hide ResponsesBodies;
    forall op | op in mid ensures
      && Emits(ResponsesBodies, ItemOpens(), ItemCloses(), op)
      && (FlatMap(OnOutputItem(n), ResponsesBodies(op)) == if OnSlot(op, n) then ResponsesBodies(op) else [])
      && (forall f | f in ResponsesBodies(op) :: IsItemBody(f))
    {
      ResponsesEmits(op, n);
    }
    FlatMapAll(ResponsesBodies, mid, IsItemBody);
    LaneOnWire(ResponsesBodies, OnOutputItem(n), ItemOpens(), ItemCloses(), head, mid, tail, n);
  }

  /** The Responses stream obeys the grammar under exactly the same condition. */
  lemma {:induction false} ResponsesGrammarIff(omitUsage: bool, es: seq<Event>)
    requires Undone(es)
    ensures ResponsesGrammar(FlatMap(ResponsesBodies, Run(Responses, omitUsage, es + [Done]).ops)) <==> WellFormed(es)
  {
    hide Run, Middle, FlatMap, Lane, ClosedOnce, Complete, Inv, Finished;
    var r, mid := Run(Responses, omitUsage, es), Middle(Responses, omitUsage, es);
    var ops := Run(Responses, omitUsage, es + [Done]).ops;
    WholeRun(Responses, omitUsage, es);
    RunInv(Responses, omitUsage, es);
    LanesDecide(r.enc, Read(es), r.ops, mid);
    var body, bodies := FlatMap(ResponsesBodies, mid), FlatMap(ResponsesBodies, ops);
    forall n: int { ResponsesLane(ops[0], mid, ops[|ops| - 1], n); }
    ResponsesLane(ops[0], mid, ops[|ops| - 1], 0);
    assert bodies[2..|bodies| - 1] == body;
  }
}

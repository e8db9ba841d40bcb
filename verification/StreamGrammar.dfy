/** When the encoder's output is a well-formed block stream.
    A ledger over the canonical events decides it: the output opens and closes every block exactly once,
    with all its deltas between, if and only if the ledger is in order. */
module StreamGrammar {
  import opened StreamTypes
  import opened StreamSpec
  import opened Sequences

  // ---- the condition on the input ----

  /** What a caller can note while reading canonical events. */
  datatype Ledger = Ledger(
    begun: set<string>,   // tools that were started
    ended: set<string>,    // tools that were ended
    touched: set<string>,  // tools any event named
    thought: bool,         // some reasoning arrived
    over: bool,            // and other content after it
    toolsOk: bool, thoughtsOk: bool)

  const BLANK := Ledger({}, {}, {}, false, false, true, true)

  function Turn(l: Ledger, ev: Event): Ledger {
    if IsContent(ev) && !ev.Reasoning? then l.(over := l.over || l.thought) else l
  }

  /** A tool with this key was started. */
  function Marked(l: Ledger, k: string): Ledger {
    l.(begun := l.begun + {k}, touched := l.touched + {k}, toolsOk := l.toolsOk && k !in l.begun)
  }

  function Mark(l: Ledger, ev: Event): Ledger {
    match ev
    case Reasoning(_, d) =>
      if d == "" then l else l.(thought := true, thoughtsOk := l.thoughtsOk && !l.over)
    case ToolStart(i, id, _) =>
      Marked(l, KeyOf(i, id))
    case ToolDelta(i, id, d) =>
      var k := KeyOf(i, id);
      l.(touched := l.touched + {k},
         toolsOk := l.toolsOk && (d == "" || (k in l.begun && k !in l.ended)))
    case ToolEnd(i, id) =>
      var k := KeyOf(i, id);
      l.(touched := l.touched + {k}, ended := l.ended + {k}, toolsOk := l.toolsOk && k in l.begun)
    case _ => l
  }

  function Read(es: seq<Event>): Ledger {
    if es == [] then BLANK
    else
      var l := Read(es[..|es| - 1]);
      Mark(Turn(l, es[|es| - 1]), es[|es| - 1])
  }

  /** Reasoning does not resume after other content, and every tool is started once, before its
      deltas and its end, with no delta after the end. */
  predicate Orderly(l: Ledger) {
    l.toolsOk && l.thoughtsOk
  }

  predicate WellFormed(es: seq<Event>) {
    Orderly(Read(es)) && Read(es).touched <= Read(es).begun
  }

  // ---- lanes: the operations on one block ----

  predicate OnBlock(op: Op) {
    op.Open? || op.Delta? || op.Close?
  }

  predicate OnSlot(op: Op, n: int) {
    OnBlock(op) && op.slot == n
  }

  function Pick(n: int): Op -> seq<Op> {
    op => if OnSlot(op, n) then [op] else []
  }

  function Lane(ops: seq<Op>, n: int): seq<Op> {
    FlatMap(Pick(n), ops)
  }

  /** A lane that can still be completed: opened first and once, nothing after the close. */
  predicate Sound(lane: seq<Op>) {
    lane == [] ||
    (lane[0].Open? && forall j | 1 <= j < |lane| :: lane[j].Delta? || (lane[j].Close? && j == |lane| - 1))
  }

  predicate Complete(lane: seq<Op>) {
    |lane| >= 2 && Sound(lane) && lane[|lane| - 1].Close?
  }

  lemma SoundPrefix(a: seq<Op>, b: seq<Op>)
    requires Sound(a + b)
    ensures Sound(a)
  {
    forall j | 1 <= j < |a| ensures a[j].Delta? || (a[j].Close? && j == |a| - 1) {
      assert (a + b)[j] == a[j];
    }
  }

  lemma LaneMore(ops: seq<Op>, more: seq<Op>, n: int)
    ensures Lane(ops + more, n) == Lane(ops, n) + Lane(more, n)
    ensures more == [] ==> Lane(more, n) == []
    ensures |more| == 1 && OnSlot(more[0], n) ==> Lane(more, n) == more
    ensures |more| == 1 && !OnSlot(more[0], n) ==> Lane(more, n) == []
  {
    FlatMapConcat(Pick(n), ops, more);
    if |more| == 1 {
      FlatMapOne(Pick(n), more[0]);
      assert more == [more[0]];
    }
  }

  // ---- the invariant tying encoder, ledger and operations ----

  predicate Unique(blocks: seq<Blk>) {
    forall i, j | 0 <= i < j < |blocks| :: !(blocks[i].tag == blocks[j].tag && blocks[i].key == blocks[j].key)
  }

  predicate BlockLane(lane: seq<Op>, n: int, b: Blk, open: bool) {
    if open then
      && lane != [] && Sound(lane) && lane[0] == Open(n, b.tag, b.callID, b.name)
      && (b.closed <==> lane[|lane| - 1].Close?)
    else
      lane == [] && !b.closed
  }

  predicate BlockOk(l: Ledger, lane: seq<Op>, n: int, b: Blk) {
    match b.tag
    case Call =>
      && b.key in l.touched && b.callID != "" && (b.closed <==> b.key in l.ended)
      && (l.toolsOk ==> BlockLane(lane, n, b, b.key in l.begun))
    case Think =>
      && b.key == "" && l.thought && (b.closed <==> l.over)
      && (l.thoughtsOk ==> BlockLane(lane, n, b, true))
    case Say =>
      && b.key == "" && !b.closed && BlockLane(lane, n, b, true)
  }

  ghost predicate Broken(ops: seq<Op>, n: nat) {
    exists i | 0 <= i < n :: !Sound(Lane(ops, i))
  }

  ghost predicate Filed(e: Enc, l: Ledger) {
    && Unique(e.blocks)
    && (forall k | k in l.touched :: Find(e.blocks, Call, k) < |e.blocks|)
    && l.begun <= l.touched && l.ended <= l.touched
    && (l.over ==> l.thought)
    && (e.protocol != Chat && l.thought ==> Find(e.blocks, Think, "") < |e.blocks|)
    && (e.protocol == Chat ==> forall i | 0 <= i < |e.blocks| :: e.blocks[i].tag == Call)
  }

  ghost predicate Lanes(e: Enc, l: Ledger, ops: seq<Op>) {
    && (forall n | 0 <= n < |e.blocks| :: BlockOk(l, Lane(ops, n), n, e.blocks[n]))
    && (forall n | n >= |e.blocks| || (n < 0 && e.protocol != Chat) :: Lane(ops, n) == [])
    && (e.protocol != Chat && !Orderly(l) ==> Broken(ops, |e.blocks|))
  }

  ghost predicate Inv(e: Enc, l: Ledger, ops: seq<Op>) {
    Filed(e, l) && Lanes(e, l, ops)
  }

  lemma FindUnique(blocks: seq<Blk>, n: nat)
    requires Unique(blocks) && n < |blocks|
    ensures Find(blocks, blocks[n].tag, blocks[n].key) == n
  {
  }

  lemma FindKept(before: seq<Blk>, after: seq<Blk>, tag: Tag, key: string)
    requires |before| <= |after|
    requires forall i | 0 <= i < |before| :: before[i].tag == after[i].tag && before[i].key == after[i].key
    requires Find(before, tag, key) < |before|
    ensures Find(after, tag, key) == Find(before, tag, key)
  {
    var n := Find(before, tag, key);
    assert after[n].tag == tag && after[n].key == key;
  }

  /** Breaking a lane is final. */
  lemma StaysBroken(ops: seq<Op>, more: seq<Op>, n: nat, m: nat)
    requires Broken(ops, n) && n <= m
    ensures Broken(ops + more, m)
  {
    var i :| 0 <= i < n && !Sound(Lane(ops, i));
    LaneMore(ops, more, i);
    if Sound(Lane(ops + more, i)) {
      SoundPrefix(Lane(ops, i), Lane(more, i));
    }
  }

  /** Operations that touch no block leave the invariant alone. */
  lemma Unblocked(e: Enc, f: Enc, l: Ledger, ops: seq<Op>, op: Op)
    requires Inv(e, l, ops) && f.blocks == e.blocks && f.protocol == e.protocol && !OnBlock(op)
    ensures Inv(f, l, ops + [op])
  {
    forall n ensures Lane(ops + [op], n) == Lane(ops, n) {
      LaneMore(ops, [op], n);
    }
    if e.protocol != Chat && !Orderly(l) {
      StaysBroken(ops, [op], |e.blocks|, |f.blocks|);
    }
  }

  /** One block changes or is appended, and at most one operation is emitted on it. */
  lemma OneBlock(e: Enc, f: Enc, l: Ledger, m: Ledger, ops: seq<Op>, more: seq<Op>, n: nat)
    requires Inv(e, l, ops) && f.protocol == e.protocol && n < |f.blocks|
    requires |more| <= 1 && (more != [] ==> OnSlot(more[0], n))
    requires |e.blocks| <= |f.blocks| <= |e.blocks| + 1
    requires |f.blocks| > |e.blocks| ==> n == |e.blocks|
    requires forall i | 0 <= i < |e.blocks| :: f.blocks[i].tag == e.blocks[i].tag && f.blocks[i].key == e.blocks[i].key
    requires forall i | 0 <= i < |e.blocks| && i != n :: f.blocks[i] == e.blocks[i]
    requires Filed(f, m)
    // the other blocks read the ledger as before
    requires forall i | 0 <= i < |e.blocks| && i != n :: BlockOk(l, Lane(ops, i), i, e.blocks[i]) ==> BlockOk(m, Lane(ops, i), i, e.blocks[i])
    requires BlockOk(m, Lane(ops, n) + more, n, f.blocks[n])
    requires e.protocol != Chat && !Orderly(m) ==> Broken(ops, |e.blocks|) || !Sound(Lane(ops, n) + more)
    ensures Inv(f, m, ops + more)
  {
    forall i ensures Lane(ops + more, i) == Lane(ops, i) + (if i == n then more else []) {
      LaneMore(ops, more, i);
    }
    forall i | 0 <= i < |f.blocks| ensures BlockOk(m, Lane(ops + more, i), i, f.blocks[i]) {
      if i != n {
        assert BlockOk(l, Lane(ops, i), i, e.blocks[i]);
        assert Lane(ops + more, i) == Lane(ops, i);
      }
    }
    if e.protocol != Chat && !Orderly(m) {
      if Broken(ops, |e.blocks|) {
        StaysBroken(ops, more, |e.blocks|, |f.blocks|);
      } else {
        assert !Sound(Lane(ops + more, n));
      }
    }
  }

  lemma SoundMore(lane: seq<Op>, op: Op)
    requires lane != [] && Sound(lane) && !lane[|lane| - 1].Close? && (op.Delta? || op.Close?)
    ensures Sound(lane + [op])
  {
    forall j | 1 <= j < |lane| + 1 ensures
      var x := (lane + [op])[j]; x.Delta? || (x.Close? && j == |lane|) {
    }
  }

  lemma SoundFirst(op: Op)
    ensures Sound([]) && (op.Open? ==> Sound([op]))
  {
  }

  lemma Unsound(lane: seq<Op>, op: Op)
    requires Sound(lane)
    requires if lane == [] then !op.Open? else op.Open? || lane[|lane| - 1].Close?
    ensures !Sound(lane + [op])
  {
    var grown := lane + [op];
    if lane != [] {
      assert grown[|lane|] == op && grown[|lane| - 1] == lane[|lane| - 1];
      if |lane| > 1 && lane[|lane| - 1].Close? {
        assert !(grown[|lane| - 1].Delta? || (grown[|lane| - 1].Close? && |lane| - 1 == |grown| - 1));
      }
    } else {
      assert grown[0] == op;
    }
  }

  lemma FiledGrown(e: Enc, f: Enc, l: Ledger, m: Ledger)
    requires Filed(e, l) && f.protocol == e.protocol && |e.blocks| <= |f.blocks|
    requires forall i | 0 <= i < |e.blocks| :: f.blocks[i].tag == e.blocks[i].tag && f.blocks[i].key == e.blocks[i].key
    requires Unique(f.blocks)
    requires m.begun <= m.touched && m.ended <= m.touched && (m.over ==> m.thought)
    requires forall k | k in m.touched && k !in l.touched :: Find(f.blocks, Call, k) < |f.blocks|
    requires e.protocol != Chat && m.thought && !l.thought ==> Find(f.blocks, Think, "") < |f.blocks|
    requires e.protocol == Chat ==> forall i | |e.blocks| <= i < |f.blocks| :: f.blocks[i].tag == Call
    ensures Filed(f, m)
  {
    hide Find, Lane, Sound, Broken;
    forall k | k in m.touched ensures Find(f.blocks, Call, k) < |f.blocks| {
      if k in l.touched { FindKept(e.blocks, f.blocks, Call, k); }
    }
    if e.protocol != Chat && l.thought { FindKept(e.blocks, f.blocks, Think, ""); }
  }

  lemma CloseThinkInv(e: Enc, l: Ledger, ops: seq<Op>, n: nat)
    requires Inv(e, l, ops) && n == Find(e.blocks, Think, "") < |e.blocks| && !e.blocks[n].closed
    ensures Inv(CloseBlock(e, n).enc, l.(over := true), ops + CloseBlock(e, n).ops)
  {
    hide Find, Lane, Sound, Broken;
    var m, f := l.(over := true), CloseBlock(e, n);
    var lane := Lane(ops, n);
    assert BlockOk(l, lane, n, e.blocks[n]);
    FiledGrown(e, f.enc, l, m);
    if l.thoughtsOk { SoundMore(lane, f.ops[0]); }
    assert (lane + f.ops)[|lane|] == f.ops[0];
    assert BlockOk(m, lane + f.ops, n, f.enc.blocks[n]);
    forall i | 0 <= i < |e.blocks| && i != n && BlockOk(l, Lane(ops, i), i, e.blocks[i])
      ensures BlockOk(m, Lane(ops, i), i, e.blocks[i]) {
      assert e.blocks[i].tag != Think;
    }
    OneBlock(e, f.enc, l, m, ops, f.ops, n);
  }

  /** Closing the reasoning block is what turning to other content does. */
  lemma TurnInv(e: Enc, l: Ledger, ops: seq<Op>, ev: Event)
    requires Inv(e, l, ops) && IsContent(ev) && !ev.Reasoning?
    ensures Inv(CloseProse(e, Think).enc, Turn(l, ev), ops + CloseProse(e, Think).ops)
  {
    hide Find, Lane, Sound, Broken;
    var n := Find(e.blocks, Think, "");
    if n < |e.blocks| {
      assert BlockOk(l, Lane(ops, n), n, e.blocks[n]);
      if !e.blocks[n].closed {
        CloseThinkInv(e, l, ops, n);
      } else {
        assert Turn(l, ev) == l;
        assert ops + [] == ops;
      }
    } else {
      assert ops + [] == ops;
      forall i | 0 <= i < |e.blocks| ensures BlockOk(Turn(l, ev), Lane(ops, i), i, e.blocks[i]) {
        assert BlockOk(l, Lane(ops, i), i, e.blocks[i]);
        assert e.blocks[i].tag == Think ==> Turn(l, ev) == l;
      }
    }
  }

  // ---- text and reasoning ----

  lemma GrownUnique(blocks: seq<Blk>, b: Blk)
    requires Unique(blocks) && Find(blocks, b.tag, b.key) == |blocks|
    ensures Unique(blocks + [b])
    ensures Find(blocks + [b], b.tag, b.key) == |blocks|
  {
    hide Find;
    FindUnique(blocks + [b], |blocks|);
  }

  lemma OpenProseInv(e: Enc, l: Ledger, ops: seq<Op>, tag: Tag)
    requires Inv(e, l, ops) && tag != Call && e.protocol != Chat
    ensures var m := if tag == Think then l.(thought := true) else l;
      Inv(OpenProse(e, tag).enc, m, ops + OpenProse(e, tag).ops)
  {
    hide Find, Lane, Sound, Broken;
    var m := if tag == Think then l.(thought := true) else l;
    var n, f := Find(e.blocks, tag, ""), OpenProse(e, tag);
    if n < |e.blocks| {
      assert BlockOk(l, Lane(ops, n), n, e.blocks[n]);
      assert m == l && ops + [] == ops;
    } else {
      GrownUnique(e.blocks, Blk(tag, "", "", "", "", false));
      FiledGrown(e, f.enc, l, m);
      assert tag == Think ==> !l.thought;
      assert Lane(ops, n) + f.ops == f.ops;
      forall i | 0 <= i < |e.blocks| && i != n && BlockOk(l, Lane(ops, i), i, e.blocks[i])
        ensures BlockOk(m, Lane(ops, i), i, e.blocks[i]) {
      }
      OneBlock(e, f.enc, l, m, ops, f.ops, n);
    }
  }

  lemma {:induction false} AppendProseInv(e: Enc, l: Ledger, ops: seq<Op>, tag: Tag, d: string)
    requires Inv(e, l, ops) && tag != Call && Find(e.blocks, tag, "") < |e.blocks|
    ensures var m := if tag == Think then l.(thoughtsOk := l.thoughtsOk && !l.over) else l;
      Inv(AppendProse(e, tag, d).enc, m, ops + AppendProse(e, tag, d).ops)
  {
    hide Find, Lane, Sound, Broken;
    var m := if tag == Think then l.(thoughtsOk := l.thoughtsOk && !l.over) else l;
    var n, f := Find(e.blocks, tag, ""), AppendProse(e, tag, d);
    var lane := Lane(ops, n);
    assert BlockOk(l, lane, n, e.blocks[n]);
    FiledGrown(e, f.enc, l, m);
    assert (lane + f.ops)[|lane|] == f.ops[0];
    if e.blocks[n].closed {
      if l.thoughtsOk { Unsound(lane, f.ops[0]); }
    } else if lane != [] && Sound(lane) && !lane[|lane| - 1].Close? {
      SoundMore(lane, f.ops[0]);
    }
    assert BlockOk(m, lane + f.ops, n, f.enc.blocks[n]);
    forall i | 0 <= i < |e.blocks| && i != n && BlockOk(l, Lane(ops, i), i, e.blocks[i])
      ensures BlockOk(m, Lane(ops, i), i, e.blocks[i]) {
    }
    OneBlock(e, f.enc, l, m, ops, f.ops, n);
  }

  /** In Chat a text or reasoning delta belongs to no block. */
  lemma ChatProseInv(e: Enc, l: Ledger, ops: seq<Op>, op: Op, m: Ledger)
    requires Inv(e, l, ops) && e.protocol == Chat && OnSlot(op, -1)
    requires m == l.(thought := m.thought, thoughtsOk := m.thoughtsOk) && (l.thought ==> m.thought)
    ensures Inv(e, m, ops + [op])
  {
    forall n | n >= 0 ensures Lane(ops + [op], n) == Lane(ops, n) {
      LaneMore(ops, [op], n);
    }
    forall i | 0 <= i < |e.blocks| ensures BlockOk(m, Lane(ops + [op], i), i, e.blocks[i]) {
      assert BlockOk(l, Lane(ops, i), i, e.blocks[i]);
    }
  }

  lemma FindOpened(e: Enc, tag: Tag)
    requires Unique(e.blocks) && e.protocol != Chat && tag != Call
    ensures Find(OpenProse(e, tag).enc.blocks, tag, "") < |OpenProse(e, tag).enc.blocks|
  {
    hide Find;
    if Find(e.blocks, tag, "") == |e.blocks| { GrownUnique(e.blocks, Blk(tag, "", "", "", "", false)); }
  }

  lemma BlockProseInv(e: Enc, l: Ledger, ops: seq<Op>, tag: Tag, d: string)
    requires Inv(e, l, ops) && e.protocol != Chat && tag != Call && d != ""
    ensures var m := if tag == Think then l.(thought := true, thoughtsOk := l.thoughtsOk && !l.over) else l;
      Inv(Prose(e, tag, d).enc, m, ops + Prose(e, tag, d).ops)
  {
    hide Find, Lanes, OpenProse, AppendProse;
    var o := OpenProse(e, tag);
    var a := AppendProse(o.enc, tag, d);
    OpenProseInv(e, l, ops, tag);
    FindOpened(e, tag);
    AppendProseInv(o.enc, if tag == Think then l.(thought := true) else l, ops + o.ops, tag, d);
    assert (ops + o.ops) + a.ops == ops + (o.ops + a.ops);
  }

  lemma ProseInv(e: Enc, l: Ledger, ops: seq<Op>, ev: Event)
    requires Inv(e, l, ops) && (ev.Text? || ev.Reasoning?)
    ensures Inv(Act(e, ev).enc, Mark(l, ev), ops + Act(e, ev).ops)
  {
    hide Find, Lane, BlockOk;
    var tag := if ev.Text? then Say else Think;
    if ev.delta == "" {
      assert ops + [] == ops;
    } else if e.protocol == Chat {
      assert Find(e.blocks, tag, "") == |e.blocks|;
      assert [] + [Delta(-1, tag, ev.delta)] == [Delta(-1, tag, ev.delta)];
      ChatProseInv(e, l, ops, Delta(-1, tag, ev.delta), Mark(l, ev));
    } else {
      hide Inv, Prose;
      BlockProseInv(e, l, ops, tag, ev.delta);
    }
  }

  // ---- tools ----

  predicate ToolEvent(ev: Event) {
    ev.ToolStart? || ev.ToolDelta? || ev.ToolEnd?
  }

  function EventKey(ev: Event): string
    requires ToolEvent(ev)
  {
    KeyOf(ev.index, ev.callID)
  }

  /** A tool event changes or appends the block under its key and emits at most one operation on it. */
  lemma {:induction false} CallInv(e: Enc, f: Enc, l: Ledger, m: Ledger, ops: seq<Op>, more: seq<Op>, k: string, n: nat, b: Blk)
    requires Inv(e, l, ops) && n == Find(e.blocks, Call, k)
    requires f == e.(blocks := if n < |e.blocks| then e.blocks[n := b] else e.blocks + [b])
    requires b.tag == Call && b.key == k && |more| <= 1 && (more != [] ==> OnSlot(more[0], n))
    requires m == l.(begun := m.begun, ended := m.ended, touched := l.touched + {k}, toolsOk := m.toolsOk)
    requires l.begun <= m.begun <= l.begun + {k} && l.ended <= m.ended <= l.ended + {k}
    requires m.toolsOk ==> l.toolsOk
    requires BlockOk(m, Lane(ops, n) + more, n, b)
    requires e.protocol != Chat && !m.toolsOk ==> Broken(ops, |e.blocks|) || !Sound(Lane(ops, n) + more)
    ensures Inv(f, m, ops + more)
  {
    hide Find, Lane, Sound, Broken, KeyOf, BlockLane, BlockOk;
    if n == |e.blocks| {
      GrownUnique(e.blocks, b);
    } else {
      FindKept(e.blocks, f.blocks, Call, k);
    }
    FiledGrown(e, f, l, m);
    forall i | 0 <= i < |e.blocks| && i != n && BlockOk(l, Lane(ops, i), i, e.blocks[i])
      ensures BlockOk(m, Lane(ops, i), i, e.blocks[i]) {
      FindUnique(e.blocks, i);
      OtherOk(l, m, k, Lane(ops, i), i, e.blocks[i]);
    }
    hide BlockOk, Filed;
    OneBlock(e, f, l, m, ops, more, n);
  }

  lemma OtherOk(l: Ledger, m: Ledger, k: string, lane: seq<Op>, i: nat, b: Blk)
    requires BlockOk(l, lane, i, b) && !(b.tag == Call && b.key == k)
    requires m == l.(begun := m.begun, ended := m.ended, touched := l.touched + {k}, toolsOk := m.toolsOk)
    requires l.begun <= m.begun <= l.begun + {k} && l.ended <= m.ended <= l.ended + {k}
    requires m.toolsOk ==> l.toolsOk
    ensures BlockOk(m, lane, i, b)
  {
  }

  /** What the invariant says about the block under a key before an event on it. */
  lemma BlockBefore(e: Enc, l: Ledger, ops: seq<Op>, k: string)
    requires Inv(e, l, ops)
    ensures var n := Find(e.blocks, Call, k);
      if n < |e.blocks| then BlockOk(l, Lane(ops, n), n, e.blocks[n]) && e.blocks[n].tag == Call && e.blocks[n].key == k
      else Lane(ops, n) == [] && k !in l.touched && k !in l.begun && k !in l.ended
    ensures e.protocol != Chat && !l.toolsOk ==> Broken(ops, |e.blocks|)
  {
    hide Find, Lane, Broken;
  }

  lemma StartedOk(e: Enc, l: Ledger, lane: seq<Op>, k: string, id: string, name: string)
    requires var n := Find(e.blocks, Call, k);
      if n < |e.blocks| then BlockOk(l, lane, n, e.blocks[n]) else lane == [] && k !in l.touched && k !in l.begun && k !in l.ended
    ensures var n, f := Find(e.blocks, Call, k), Lookup(e, k, id, name);
      && BlockOk(Marked(l, k), lane + OpenCall(f, n).ops, n, f.blocks[n])
      && (!Marked(l, k).toolsOk && l.toolsOk ==> !Sound(lane + OpenCall(f, n).ops))
  {
    hide Find, Sound;
    var n, f := Find(e.blocks, Call, k), Lookup(e, k, id, name);
    var op := OpenCall(f, n).ops[0];
    SoundFirst(op);
    if lane == [] {
      assert lane + [op] == [op];
    } else if l.toolsOk {
      Unsound(lane, op);
    }
  }

  lemma StartInv(e: Enc, l: Ledger, ops: seq<Op>, k: string, id: string, name: string)
    requires Inv(e, l, ops)
    ensures var n, f := Find(e.blocks, Call, k), Lookup(e, k, id, name);
      Inv(OpenCall(f, n).enc, Marked(l, k), ops + OpenCall(f, n).ops)
  {
    hide Find, Lane, Sound, Broken, Inv, BlockOk, Lookup;
    var n, f := Find(e.blocks, Call, k), Lookup(e, k, id, name);
    BlockBefore(e, l, ops, k);
    StartedOk(e, l, Lane(ops, n), k, id, name);
    LookupShape(e, k, id, name);
    CallInv(e, f, l, Marked(l, k), ops, OpenCall(f, n).ops, k, n, f.blocks[n]);
  }

  lemma LookupShape(e: Enc, k: string, id: string, name: string)
    ensures var n, f := Find(e.blocks, Call, k), Lookup(e, k, id, name);
      && f == e.(blocks := if n < |e.blocks| then e.blocks[n := f.blocks[n]] else e.blocks + [f.blocks[n]])
      && f.blocks[n].tag == Call && f.blocks[n].key == k
  {
    hide Find;
  }

  lemma LookupInv(e: Enc, l: Ledger, ops: seq<Op>, k: string, id: string)
    requires Inv(e, l, ops)
    ensures var f := Lookup(e, k, id, "");
      && Inv(f, l.(touched := l.touched + {k}), ops) && f.protocol == e.protocol
      && Find(f.blocks, Call, k) == Find(e.blocks, Call, k) < |f.blocks|
  {
    var n, f := Find(e.blocks, Call, k), Lookup(e, k, id, "");
    hide Find, Lane, Sound, Broken, Lanes;
    BlockBefore(e, l, ops, k);
    assert Lane(ops, n) + [] == Lane(ops, n) && ops + [] == ops;
    CallInv(e, f, l, l.(touched := l.touched + {k}), ops, [], k, n, f.blocks[n]);
    FindAfter(e, k, id);
  }

  lemma FindAfter(e: Enc, k: string, id: string)
    requires Unique(e.blocks)
    ensures Find(Lookup(e, k, id, "").blocks, Call, k) == Find(e.blocks, Call, k)
  {
    hide Find;
    var n, f := Find(e.blocks, Call, k), Lookup(e, k, id, "");
    if n == |e.blocks| { GrownUnique(e.blocks, f.blocks[n]); } else { FindKept(e.blocks, f.blocks, Call, k); }
  }

  /** A delta or a close on a block the ledger knows. */
  lemma ExtendInv(e: Enc, l: Ledger, m: Ledger, ops: seq<Op>, k: string, n: nat, b: Blk, op: Op)
    requires Inv(e, l, ops) && n == Find(e.blocks, Call, k) < |e.blocks| && k in l.touched
    requires OnSlot(op, n) && !op.Open? && (op.Close? ==> !e.blocks[n].closed)
    requires b == e.blocks[n].(content := b.content, closed := e.blocks[n].closed || op.Close?)
    requires m == l.(ended := l.ended + (if op.Close? then {k} else {}), toolsOk := l.toolsOk && k in l.begun && k !in l.ended)
    ensures Inv(e.(blocks := e.blocks[n := b]), m, ops + [op])
  {
    var lane := Lane(ops, n);
    hide Find, Lane, Sound, Broken, Filed, Lanes;
    BlockBefore(e, l, ops, k);
    SoundFirst(op);
    assert (lane + [op])[|lane|] == op;
    if l.toolsOk {
      if m.toolsOk { SoundMore(lane, op); } else { Unsound(lane, op); }
    }
    assert BlockOk(m, lane + [op], n, b);
    CallInv(e, e.(blocks := e.blocks[n := b]), l, m, ops, [op], k, n, b);
  }

  lemma {:induction false} DeltaInv(e: Enc, l: Ledger, ops: seq<Op>, k: string, id: string, d: string)
    requires Inv(e, l, ops)
    ensures var n, f := Find(e.blocks, Call, k), Lookup(e, k, id, "");
      var m := l.(touched := l.touched + {k}, toolsOk := l.toolsOk && (d == "" || (k in l.begun && k !in l.ended)));
      var s := if d == "" then Stepped(f, []) else Append(f, n, d);
      Inv(s.enc, m, ops + s.ops)
  {
    hide Inv, Find, Lookup;
    var n, f, l' := Find(e.blocks, Call, k), Lookup(e, k, id, ""), l.(touched := l.touched + {k});
    LookupInv(e, l, ops, k, id);
    if d == "" {
      assert ops + [] == ops;
    } else {
      var s := Append(f, n, d);
      assert f.blocks[n].tag == Call;
      ExtendInv(f, l', l'.(toolsOk := l.toolsOk && k in l.begun && k !in l.ended), ops, k, n, s.enc.blocks[n], s.ops[0]);
    }
  }

  lemma EndInv(e: Enc, l: Ledger, ops: seq<Op>, k: string, id: string)
    requires Inv(e, l, ops)
    ensures var n, f := Find(e.blocks, Call, k), Lookup(e, k, id, "");
      var m := l.(touched := l.touched + {k}, ended := l.ended + {k}, toolsOk := l.toolsOk && k in l.begun);
      Inv(CloseBlock(f, n).enc, m, ops + CloseBlock(f, n).ops)
  {
    hide Find, Lookup, Filed, Lane, Broken, BlockLane;
    var n, f, l' := Find(e.blocks, Call, k), Lookup(e, k, id, ""), l.(touched := l.touched + {k});
    LookupInv(e, l, ops, k, id);
    var s := CloseBlock(f, n);
    BlockBefore(f, l', ops, k);
    assert f.blocks[n].closed <==> k in l.ended;
    var m := l'.(ended := l.ended + {k}, toolsOk := l.toolsOk && k in l.begun);
    if s.ops == [] {
      ClosedBegun(f, l', ops, k);
      assert m == l' && ops + [] == ops;
    } else {
      assert m == l'.(ended := l'.ended + {k}, toolsOk := l'.toolsOk && k in l'.begun && k !in l'.ended);
      ExtendInv(f, l', m, ops, k, n, s.enc.blocks[n], s.ops[0]);
    }
  }

  lemma ClosedBegun(e: Enc, l: Ledger, ops: seq<Op>, k: string)
    requires Inv(e, l, ops) && k in l.ended
    ensures l.toolsOk ==> k in l.begun
  {
    hide Find, Lane, Broken;
    BlockBefore(e, l, ops, k);
  }

  lemma ToolInv(e: Enc, l: Ledger, ops: seq<Op>, ev: Event)
    requires Inv(e, l, ops) && ToolEvent(ev)
    ensures Inv(Act(e, ev).enc, Mark(l, ev), ops + Act(e, ev).ops)
  {
    hide Inv, Find, KeyOf, Lookup;
    match ev {
      case ToolStart(i, id, name) => StartInv(e, l, ops, KeyOf(i, id), id, name);
      case ToolDelta(i, id, d) => DeltaInv(e, l, ops, KeyOf(i, id), id, d);
      case ToolEnd(i, id) => EndInv(e, l, ops, KeyOf(i, id), id);
    }
  }

  // ---- whole runs ----

  lemma ActKeeps(e: Enc, ev: Event)
    requires IsContent(ev)
    ensures Act(e, ev).enc == e.(blocks := Act(e, ev).enc.blocks)
  {
    hide Find, KeyOf, NewCall, Recall;
    if ev.Text? || ev.Reasoning? {
      var o := OpenProse(e, if ev.Text? then Say else Think).enc;
      assert o == e.(blocks := o.blocks);
    } else {
      hide CloseBlock, Append;
      var f := Lookup(e, EventKey(ev), ev.callID, if ev.ToolStart? then ev.name else "");
      assert f == e.(blocks := f.blocks);
      var n := Find(e.blocks, Call, EventKey(ev));
      BlockKeeps(f, n, if ev.ToolDelta? then ev.delta else "");
    }
  }

  lemma BlockKeeps(e: Enc, n: nat, d: string)
    requires n < |e.blocks|
    ensures Append(e, n, d).enc == e.(blocks := Append(e, n, d).enc.blocks)
    ensures CloseBlock(e, n).enc == e.(blocks := CloseBlock(e, n).enc.blocks)
  {
  }

  lemma PrepareKeeps(e: Enc, ev: Event)
    ensures Prepare(e, ev).enc == e.(started := true, blocks := Prepare(e, ev).enc.blocks)
  {
    hide Find;
  }

  lemma PrepareInv(e: Enc, l: Ledger, ops: seq<Op>, ev: Event)
    requires Inv(e, l, ops) && IsContent(ev)
    ensures Inv(Prepare(e, ev).enc, Turn(l, ev), ops + Prepare(e, ev).ops)
  {
    hide Find, Lane, Filed, Lanes, CloseProse;
    var s, p := EnsureStarted(e), Prepare(e, ev);
    if e.started { assert ops + s.ops == ops; } else { Unblocked(e, s.enc, l, ops, Begin(e.usage)); }
    if !ev.Reasoning? {
      TurnInv(s.enc, l, ops + s.ops, ev);
      assert (ops + s.ops) + CloseProse(s.enc, Think).ops == ops + p.ops;
    }
  }

  lemma ContentStepInv(e: Enc, l: Ledger, ops: seq<Op>, ev: Event)
    requires Inv(e, l, ops) && !e.done && IsContent(ev)
    ensures Inv(Step(e, ev).enc, Mark(Turn(l, ev), ev), ops + Step(e, ev).ops)
  {
    hide Inv, Act, Mark, Prepare;
    var p, turned := Prepare(e, ev), Turn(l, ev);
    PrepareInv(e, l, ops, ev);
    if ToolEvent(ev) {
      ToolInv(p.enc, turned, ops + p.ops, ev);
    } else {
      ProseInv(p.enc, turned, ops + p.ops, ev);
    }
    assert (ops + p.ops) + Act(p.enc, ev).ops == ops + Step(e, ev).ops;
  }

  lemma {:induction false} StepInv(e: Enc, l: Ledger, ops: seq<Op>, ev: Event)
    requires Inv(e, l, ops) && !e.done && !ev.Done?
    ensures Inv(Step(e, ev).enc, Mark(Turn(l, ev), ev), ops + Step(e, ev).ops)
    ensures !Step(e, ev).enc.done && Step(e, ev).enc.protocol == e.protocol
  {
    hide Act, Prepare, BlockOk, Lane, Find;
    if IsContent(ev) {
      ContentStepInv(e, l, ops, ev);
      PrepareKeeps(e, ev);
      ActKeeps(Prepare(e, ev).enc, ev);
    } else {
      assert ops + [] == ops;
    }
  }

  lemma {:induction false} RunInv(protocol: Protocol, omitUsage: bool, es: seq<Event>)
    requires Undone(es)
    ensures var r := Run(protocol, omitUsage, es); Inv(r.enc, Read(es), r.ops) && !r.enc.done && r.enc.protocol == protocol
  {
    if es != [] {
      hide Step, Mark, Turn, Inv;
      var front, last := es[..|es| - 1], es[|es| - 1];
      RunInv(protocol, omitUsage, front);
      StepInv(Run(protocol, omitUsage, front).enc, Read(front), Run(protocol, omitUsage, front).ops, last);
    }
  }

  // ---- the end of the stream ----

  function CloseOp(n: int, b: Blk): Op {
    Close(n, b.tag, b.callID, b.name, b.content)
  }

  function Shut(blocks: seq<Blk>): seq<Blk> {
    seq(|blocks|, i requires 0 <= i < |blocks| => blocks[i].(closed := true))
  }

  /** What closing does to block `i`: its lane gets a close unless it had one. */
  function Closing(blocks: seq<Blk>, i: int): seq<Op> {
    if 0 <= i < |blocks| && !blocks[i].closed then [CloseOp(i, blocks[i])] else []
  }

  lemma CloseBlockLane(e: Enc, n: nat, ops: seq<Op>, i: int)
    requires n < |e.blocks|
    ensures Lane(ops + CloseBlock(e, n).ops, i) == Lane(ops, i) + (if i == n then Closing(e.blocks, n) else [])
    ensures CloseBlock(e, n).enc.blocks == e.blocks[n := e.blocks[n].(closed := true)]
  {
    LaneMore(ops, CloseBlock(e, n).ops, i);
  }

  lemma CloseCallsMore(e: Enc, n: nat)
    requires n < |e.blocks|
    ensures var s := CloseCalls(e, n);
      CloseCalls(e, n + 1) ==
        if s.enc.blocks[n].tag != Call then s
        else Stepped(CloseBlock(s.enc, n).enc, s.ops + CloseBlock(s.enc, n).ops)
  {
  }

  lemma {:induction false} CloseCallsBlocks(e: Enc, n: nat)
    requires n <= |e.blocks|
    ensures forall j | 0 <= j < |e.blocks| :: CloseCalls(e, n).enc.blocks[j]
              == if j < n && e.blocks[j].tag == Call then e.blocks[j].(closed := true) else e.blocks[j]
    ensures forall op | op in CloseCalls(e, n).ops :: op.Close?
    ensures CloseCalls(e, n).enc == e.(blocks := CloseCalls(e, n).enc.blocks)
  {
    if n > 0 {
      CloseCallsMore(e, n - 1);
      CloseCallsBlocks(e, n - 1);
      hide CloseCalls;
    }
  }

  lemma CloseCallsAhead(e: Enc, n: nat)
    requires n < |e.blocks|
    ensures CloseCalls(e, n).enc.blocks[n] == e.blocks[n]
  {
    CloseCallsBlocks(e, n);
  }

  lemma {:induction false} CloseCallsLane(e: Enc, n: nat, i: int)
    requires n <= |e.blocks|
    ensures Lane(CloseCalls(e, n).ops, i) == if 0 <= i < n && e.blocks[i].tag == Call then Closing(e.blocks, i) else []
  {
    if n == 0 {
      assert Lane([], i) == [];
    } else {
      hide Lane, CloseBlock, CloseCalls;
      CloseCallsMore(e, n - 1);
      CloseCallsLane(e, n - 1, i);
      CloseCallsAhead(e, n - 1);
      var s := CloseCalls(e, n - 1);
      CloseBlockLane(s.enc, n - 1, s.ops, i);
      assert Closing(s.enc.blocks, n - 1) == Closing(e.blocks, n - 1);
      hide Closing;
    }
  }

  predicate Keyed(blocks: seq<Blk>) {
    Unique(blocks) && forall i | 0 <= i < |blocks| :: blocks[i].tag != Call ==> blocks[i].key == ""
  }

  lemma CloseProseLane(e: Enc, tag: Tag, ops: seq<Op>, i: int)
    requires Keyed(e.blocks) && tag != Call
    ensures Lane(ops + CloseProse(e, tag).ops, i)
         == Lane(ops, i) + (if 0 <= i < |e.blocks| && e.blocks[i].tag == tag then Closing(e.blocks, i) else [])
    ensures |CloseProse(e, tag).enc.blocks| == |e.blocks|
    ensures forall j | 0 <= j < |e.blocks| :: CloseProse(e, tag).enc.blocks[j]
              == if e.blocks[j].tag == tag then e.blocks[j].(closed := true) else e.blocks[j]
    ensures forall op | op in CloseProse(e, tag).ops :: op.Close?
    ensures CloseProse(e, tag).enc == e.(blocks := CloseProse(e, tag).enc.blocks)
  {
    hide Find, Lane;
    var n := Find(e.blocks, tag, "");
    if n < |e.blocks| {
      CloseBlockLane(e, n, ops, i);
    } else {
      assert ops + [] == ops;
    }
    assert forall j | 0 <= j < |e.blocks| && e.blocks[j].tag == tag :: j == n;
  }

  lemma CloseAllLane(e: Enc, i: int)
    requires Keyed(e.blocks)
    ensures Lane(CloseAll(e).ops, i) == Closing(e.blocks, i)
    ensures CloseAll(e).enc == e.(blocks := Shut(e.blocks))
    ensures forall op | op in CloseAll(e).ops :: op.Close?
  {
    hide Lane, CloseProse, CloseCalls;
    var s := CloseCalls(e, |e.blocks|);
    CloseCallsLane(e, |e.blocks|, i);
    CloseCallsBlocks(e, |e.blocks|);
    CloseProseLane(s.enc, Think, s.ops, i);
    var t := CloseProse(s.enc, Think);
    CloseProseLane(t.enc, Say, s.ops + t.ops, i);
    assert CloseProse(t.enc, Say).enc.blocks == Shut(e.blocks);
  }

  lemma InvKeyed(e: Enc, l: Ledger, ops: seq<Op>)
    requires Inv(e, l, ops)
    ensures Keyed(e.blocks)
  {
    forall i | 0 <= i < |e.blocks| ensures e.blocks[i].tag != Call ==> e.blocks[i].key == "" {
      assert BlockOk(l, Lane(ops, i), i, e.blocks[i]);
    }
  }

  /** Closing everything completes every lane exactly when the ledger is in order and every tool was started. */
  lemma ClosedLanes(e: Enc, l: Ledger, ops: seq<Op>)
    requires Inv(e, l, ops) && e.protocol != Chat
    ensures (forall n | 0 <= n < |e.blocks| :: Complete(Lane(ops, n) + Closing(e.blocks, n)))
       <==> Orderly(l) && l.touched <= l.begun
  {
    hide Find, Lane;
    if Orderly(l) && l.touched <= l.begun {
      forall n | 0 <= n < |e.blocks| ensures Complete(Lane(ops, n) + Closing(e.blocks, n)) {
        var lane := Lane(ops, n);
        assert BlockOk(l, lane, n, e.blocks[n]);
        if e.blocks[n].closed {
          assert lane + [] == lane;
        } else {
          SoundMore(lane, CloseOp(n, e.blocks[n]));
        }
      }
    } else if !Orderly(l) {
      var i :| 0 <= i < |e.blocks| && !Sound(Lane(ops, i));
      if Sound(Lane(ops, i) + Closing(e.blocks, i)) { SoundPrefix(Lane(ops, i), Closing(e.blocks, i)); }
    } else {
      var k :| k in l.touched && k !in l.begun;
      var n := Find(e.blocks, Call, k);
      assert BlockOk(l, Lane(ops, n), n, e.blocks[n]);
      assert Lane(ops, n) == [];
    }
  }
}

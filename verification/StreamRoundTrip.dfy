/** Decoding what the encoder printed gives back the same content, event for event. */
module StreamRoundTrip {
  import opened Wrappers
  import opened StreamTypes
  import opened StreamSpec
  import opened StreamGrammar
  import opened StreamWireGrammar
  import opened StreamDecoding
  import opened StreamPlayback
  import opened Sequences

  // ---- decoding a playable run of operations ----

  lemma PlayOne(protocol: Protocol, d: Dec, front: seq<Op>, op: Op, m: nat)
    requires Follows(protocol, d, front) && CanPlay(protocol, front, op)
    ensures Plays(protocol, d, front, op, m)
  {
    match protocol
    case Chat => ChatPlays(d, front, op, m);
    case Messages => MessagesPlays(d, front, op, m);
    case Responses => ResponsesPlays(d, front, op, m);
  }

  /** Decoding the frames of `ops` succeeds, returns their content and leaves a decoder that follows them. */
  ghost predicate PlayedBack(protocol: Protocol, ops: seq<Op>) {
    var r := DecodeAll(FRESH, Render(protocol, 0, ops));
    r.Ok? && Core(r.value.events) == Pieces(ops) && Follows(protocol, r.value.dec, ops)
  }

  lemma {:induction false} PlayAll(protocol: Protocol, ops: seq<Op>)
    requires Playable(protocol, ops)
    ensures PlayedBack(protocol, ops)
  {
    hide Render, DecodeAll, Core, Follows, CanPlay, Lane;
    if ops == [] {
      NothingPlayed(protocol);
    } else {
      var front, last := ops[..|ops| - 1], ops[|ops| - 1];
      PlayAll(protocol, front);
      var x := DecodeAll(FRESH, Render(protocol, 0, front)).value;
      var m := |Render(protocol, 0, front)|;
      PlayOne(protocol, x.dec, front, last, m);
      assert ops == front + [last];
      RenderConcat(protocol, 0, front, [last]);
      DecodeConcat(FRESH, Render(protocol, 0, front), Render(protocol, m, [last]));
      CoreOpen(x.events, DecodeAll(x.dec, Render(protocol, m, [last])).value.events);
    }
  }

  lemma NothingPlayed(protocol: Protocol)
    ensures PlayedBack(protocol, [])
  {
    assert Render(protocol, 0, []) == [];
    forall n: int ensures Lane([], n) == [] { }
  }

  // ---- what the encoder's operations carry ----

  /** Every tool event names its call. */
  predicate Named(es: seq<Event>) {
    forall ev | ev in es :: ToolEvent(ev) ==> ev.callID != ""
  }

  predicate OpOk(e: Enc, op: Op) {
    match op
    case Begin(_) => true
    case Open(n, tag, id, _) => 0 <= n < |e.blocks| && e.blocks[n].tag == tag && (tag == Call ==> id != "")
    case Delta(n, tag, d) =>
      d != "" && if e.protocol == Chat && tag != Call then n == -1 else 0 <= n < |e.blocks| && e.blocks[n].tag == tag
    case Close(n, tag, _, _, _) => 0 <= n < |e.blocks| && e.blocks[n].tag == tag
    case End(_, _, _, _) => false
  }

  /** A tool block carries the call ID it is filed under, and no name before its start. */
  predicate CallOk(l: Ledger, b: Blk) {
    b.tag == Call ==> b.callID == b.key != "" && (b.key in l.begun || b.name == "")
  }

  ghost predicate Apt(e: Enc, l: Ledger, ops: seq<Op>) {
    (forall op | op in ops :: OpOk(e, op)) && (forall i | 0 <= i < |e.blocks| :: CallOk(l, e.blocks[i]))
  }

  lemma AptGrown(e: Enc, f: Enc, l: Ledger, m: Ledger, ops: seq<Op>, more: seq<Op>)
    requires Apt(e, l, ops) && f.protocol == e.protocol && |e.blocks| <= |f.blocks|
    requires forall i | 0 <= i < |e.blocks| :: f.blocks[i].tag == e.blocks[i].tag
    requires forall op | op in more :: OpOk(f, op)
    requires forall i | 0 <= i < |f.blocks| :: (i < |e.blocks| && f.blocks[i] == e.blocks[i]) || CallOk(m, f.blocks[i])
    requires l.begun <= m.begun
    ensures Apt(f, m, ops + more)
  {
    forall op | op in ops + more ensures OpOk(f, op) {
      if op in ops { assert OpOk(e, op); }
    }
    forall i | 0 <= i < |f.blocks| ensures CallOk(m, f.blocks[i]) {
      assert i < |e.blocks| ==> CallOk(l, e.blocks[i]);
    }
  }

  lemma PrepareApt(e: Enc, l: Ledger, ops: seq<Op>, ev: Event)
    requires Apt(e, l, ops)
    ensures Apt(Prepare(e, ev).enc, Turn(l, ev), ops + Prepare(e, ev).ops)
    ensures Pieces(ops + Prepare(e, ev).ops) == Pieces(ops)
  {
    hide Find, Pieces;
    var p := Prepare(e, ev);
    AptGrown(e, p.enc, l, Turn(l, ev), ops, p.ops);
    PiecesQuiet(ops, p.ops);
  }

  /** What one event must add: its operations are in order and carry its content. */
  ghost predicate Faithful(e: Enc, l: Ledger, ops: seq<Op>, ev: Event)
    requires IsContent(ev)
  {
    && Apt(Act(e, ev).enc, Mark(l, ev), ops + Act(e, ev).ops)
    && Pieces(ops + Act(e, ev).ops) == Pieces(ops) + ContentOf(ev)
  }

  lemma ProseApt(e: Enc, l: Ledger, ops: seq<Op>, tag: Tag, d: string)
    requires Apt(e, l, ops) && tag != Call && d != ""
    requires e.protocol != Chat ==> Find(OpenProse(e, tag).enc.blocks, tag, "") < |OpenProse(e, tag).enc.blocks|
    requires e.protocol == Chat ==> Find(e.blocks, tag, "") == |e.blocks|
    ensures var o := OpenProse(e, tag);
      var a := AppendProse(o.enc, tag, d);
      Apt(a.enc, l, ops + (o.ops + a.ops)) && (forall op | op in o.ops :: Quiet(op))
      && |a.ops| == 1 && a.ops[0].Delta? && a.ops[0].tag == tag && a.ops[0].text == d
  {
    hide Find;
    var o := OpenProse(e, tag);
    var a := AppendProse(o.enc, tag, d);
    AptGrown(e, a.enc, l, l, ops, o.ops + a.ops);
  }

  lemma AptLedger(e: Enc, l: Ledger, m: Ledger, ops: seq<Op>)
    requires Apt(e, l, ops) && l.begun <= m.begun
    ensures Apt(e, m, ops)
  {
    AptGrown(e, e, l, m, ops, []);
    assert ops + [] == ops;
  }

  lemma ProsePieces(ops: seq<Op>, open: seq<Op>, more: seq<Op>)
    requires forall op | op in open :: Quiet(op)
    requires |more| == 1 && more[0].Delta? && more[0].tag != Call
    ensures Pieces(ops + (open + more))
         == Pieces(ops) + [if more[0].tag == Say then Said(more[0].text) else Thought(more[0].text)]
  {
    hide Pieces, OwnerID;
    PiecesQuiet(ops, open);
    PiecesMore(ops + open, more[0]);
    assert (ops + open) + [more[0]] == ops + (open + more);
  }

  lemma ProseFindable(e: Enc, l: Ledger, ops: seq<Op>, tag: Tag)
    requires Inv(e, l, ops) && tag != Call
    ensures e.protocol != Chat ==> Find(OpenProse(e, tag).enc.blocks, tag, "") < |OpenProse(e, tag).enc.blocks|
    ensures e.protocol == Chat ==> Find(e.blocks, tag, "") == |e.blocks|
  {
    if e.protocol != Chat { FindOpened(e, tag); }
  }

  lemma ProseFaithful(e: Enc, l: Ledger, ops: seq<Op>, ev: Event)
    requires Inv(e, l, ops) && Apt(e, l, ops) && (ev.Text? || ev.Reasoning?)
    ensures Faithful(e, l, ops, ev)
  {
    hide Find, Pieces, OwnerID, OpenProse, AppendProse, Apt, Inv;
    var tag := if ev.Text? then Say else Think;
    if ev.delta == "" {
      AptLedger(e, l, Mark(l, ev), ops);
      assert ops + [] == ops;
      assert Pieces(ops) + [] == Pieces(ops);
    } else {
      ProseFindable(e, l, ops, tag);
      ProseApt(e, l, ops, tag, ev.delta);
      var o := OpenProse(e, tag);
      var a := AppendProse(o.enc, tag, ev.delta);
      AptLedger(a.enc, l, Mark(l, ev), ops + (o.ops + a.ops));
      ProsePieces(ops, o.ops, a.ops);
    }
  }

  /** Looking up a named tool keeps the blocks in order. */
  lemma LookupApt(e: Enc, l: Ledger, m: Ledger, ops: seq<Op>, id: string, name: string)
    requires Apt(e, l, ops) && id != "" && l.begun <= m.begun && (name == "" || id in m.begun)
    ensures var n, f := Find(e.blocks, Call, id), Lookup(e, id, id, name);
      && Apt(f, m, ops) && f.protocol == e.protocol
      && f.blocks[n].tag == Call && f.blocks[n].callID == id == f.blocks[n].key
      && (id !in l.begun ==> f.blocks[n].name == name)
  {
    hide Find;
    var n, f := Find(e.blocks, Call, id), Lookup(e, id, id, name);
    assert n < |e.blocks| ==> CallOk(l, e.blocks[n]);
    AptGrown(e, f, l, m, ops, []);
    assert ops + [] == ops;
  }

  lemma KeyNamed(i: int, id: string)
    requires id != ""
    ensures KeyOf(i, id) == id
  {
  }

  lemma {:induction false} StartFaithful(e: Enc, l: Ledger, ops: seq<Op>, ev: Event)
    requires Apt(e, l, ops) && ev.ToolStart? && ev.callID != "" && Mark(l, ev).toolsOk
    ensures Faithful(e, l, ops, ev)
  {
    KeyNamed(ev.index, ev.callID);
    hide Find, Pieces, OwnerID, KeyOf, Lookup;
    var n, f, m := Find(e.blocks, Call, ev.callID), Lookup(e, ev.callID, ev.callID, ev.name), Mark(l, ev);
    LookupApt(e, l, m, ops, ev.callID, ev.name);
    var op := OpenCall(f, n).ops[0];
    AptGrown(f, f, m, m, ops, [op]);
    PiecesMore(ops, op);
  }

  lemma OwnerKnown(e: Enc, l: Ledger, ops: seq<Op>, id: string)
    requires Inv(e, l, ops) && Apt(e, l, ops) && l.toolsOk && id in l.begun
    ensures OwnerID(ops, Find(e.blocks, Call, id)) == id
  {
    BlockBefore(e, l, ops, id);
    hide Find, Lane, Inv;
    assert CallOk(l, e.blocks[Find(e.blocks, Call, id)]);
  }

  lemma DeltaMarks(l: Ledger, ev: Event)
    requires ev.ToolDelta? && ev.callID != "" && Mark(l, ev).toolsOk
    ensures Mark(l, ev).begun == l.begun && l.toolsOk && (ev.delta != "" ==> ev.callID in l.begun)
  {
  }

  lemma DeltaFaithful(e: Enc, l: Ledger, ops: seq<Op>, ev: Event)
    requires Inv(e, l, ops) && Apt(e, l, ops) && ev.ToolDelta? && ev.callID != "" && Mark(l, ev).toolsOk
    ensures Faithful(e, l, ops, ev)
  {
    KeyNamed(ev.index, ev.callID);
    DeltaMarks(l, ev);
    hide Find, Pieces, Inv, OwnerID, KeyOf, Lookup, Mark, Apt, CallOk;
    LookupApt(e, l, Mark(l, ev), ops, ev.callID, "");
    var n, f := Find(e.blocks, Call, ev.callID), Lookup(e, ev.callID, ev.callID, "");
    if ev.delta == "" {
      assert Act(e, ev) == Stepped(f, []);
      assert ops + [] == ops;
    } else {
      assert Act(e, ev) == Append(f, n, ev.delta);
      AppendApt(f, Mark(l, ev), ops, n, ev.delta);
      PiecesMore(ops, Delta(n, Call, ev.delta));
      OwnerKnown(e, l, ops, ev.callID);
    }
  }

  lemma AppendApt(e: Enc, l: Ledger, ops: seq<Op>, n: nat, d: string)
    requires Apt(e, l, ops) && n < |e.blocks| && e.blocks[n].tag == Call && d != ""
    ensures Apt(Append(e, n, d).enc, l, ops + Append(e, n, d).ops)
  {
    assert CallOk(l, e.blocks[n]);
    AptGrown(e, Append(e, n, d).enc, l, l, ops, Append(e, n, d).ops);
  }

  lemma {:induction false} CloseApt(e: Enc, l: Ledger, ops: seq<Op>, n: nat)
    requires Apt(e, l, ops) && n < |e.blocks|
    ensures Apt(CloseBlock(e, n).enc, l, ops + CloseBlock(e, n).ops)
    ensures Pieces(ops + CloseBlock(e, n).ops) == Pieces(ops)
  {
    hide Pieces;
    var c := CloseBlock(e, n);
    assert CallOk(l, e.blocks[n]);
    AptGrown(e, c.enc, l, l, ops, c.ops);
    PiecesQuiet(ops, c.ops);
  }

  lemma EndFaithful(e: Enc, l: Ledger, ops: seq<Op>, ev: Event)
    requires Apt(e, l, ops) && ev.ToolEnd? && ev.callID != ""
    ensures Faithful(e, l, ops, ev)
  {
    KeyNamed(ev.index, ev.callID);
    hide Find, Pieces, Apt, KeyOf, Lookup, CloseBlock;
    LookupApt(e, l, Mark(l, ev), ops, ev.callID, "");
    CloseApt(Lookup(e, ev.callID, ev.callID, ""), Mark(l, ev), ops, Find(e.blocks, Call, ev.callID));
    assert Pieces(ops) + [] == Pieces(ops);
  }

  lemma StepFaithful(e: Enc, l: Ledger, ops: seq<Op>, ev: Event)
    requires Inv(e, l, ops) && Apt(e, l, ops) && !e.done && !ev.Done?
    requires Named([ev]) && Mark(Turn(l, ev), ev).toolsOk
    ensures var s := Step(e, ev);
      Apt(s.enc, Mark(Turn(l, ev), ev), ops + s.ops) && Pieces(ops + s.ops) == Pieces(ops) + ContentOf(ev)
  {
    hide Inv, Apt, Pieces, Prepare, Act;
    if IsContent(ev) {
      PrepareInv(e, l, ops, ev);
      PrepareApt(e, l, ops, ev);
      var p, turned := Prepare(e, ev), Turn(l, ev);
      var before := ops + p.ops;
      assert ev in [ev];
      match ev {
        case ToolStart(_, _, _) => StartFaithful(p.enc, turned, before, ev);
        case ToolDelta(_, _, _) => DeltaFaithful(p.enc, turned, before, ev);
        case ToolEnd(_, _) => EndFaithful(p.enc, turned, before, ev);
        case _ => ProseFaithful(p.enc, turned, before, ev);
      }
      assert before + Act(p.enc, ev).ops == ops + Step(e, ev).ops;
    } else {
      AptIdle(e, Step(e, ev).enc, l, ops);
      assert ops + [] == ops;
    }
  }

  lemma AptIdle(e: Enc, f: Enc, l: Ledger, ops: seq<Op>)
    requires Apt(e, l, ops) && f.blocks == e.blocks && f.protocol == e.protocol
    ensures Apt(f, l, ops)
  {
    AptGrown(e, f, l, l, ops, []);
    assert ops + [] == ops;
  }

  lemma {:induction false} RunFaithful(protocol: Protocol, omitUsage: bool, es: seq<Event>)
    requires Undone(es) && Named(es) && Read(es).toolsOk
    ensures var r := Run(protocol, omitUsage, es); Apt(r.enc, Read(es), r.ops) && Pieces(r.ops) == Core(es)
  {
    if es != [] {
      hide Step, Turn, Inv, Apt, Pieces;
      var front, last := es[..|es| - 1], es[|es| - 1];
      assert Read(front).toolsOk by { ToolsEarlier(Read(front), last); }
      RunFaithful(protocol, omitUsage, front);
      RunInv(protocol, omitUsage, front);
      StepFaithful(Run(protocol, omitUsage, front).enc, Read(front), Run(protocol, omitUsage, front).ops, last);
    } else {
      AptFresh(protocol, omitUsage);
    }
  }

  lemma AptFresh(protocol: Protocol, omitUsage: bool)
    ensures Apt(Fresh(protocol, omitUsage), BLANK, [])
  {
  }

  lemma ToolsEarlier(l: Ledger, ev: Event)
    ensures Mark(Turn(l, ev), ev).toolsOk ==> l.toolsOk
  {
  }

  // ---- sound lanes can be played ----

  /** The decoder of this protocol needs the block's operations to be in order. */
  predicate Strict(e: Enc, n: nat)
    requires n < |e.blocks|
  {
    e.protocol == Messages || e.blocks[n].tag == Call
  }

  ghost predicate StrictlySound(e: Enc, ops: seq<Op>) {
    forall n | 0 <= n < |e.blocks| && Strict(e, n) :: Sound(Lane(ops, n)) && Headed(Lane(ops, n), e.blocks[n].tag)
  }

  predicate Headed(lane: seq<Op>, tag: Tag) {
    lane != [] ==> OnBlock(lane[0]) && lane[0].tag == tag
  }

  lemma SoundLast(lane: seq<Op>, op: Op, tag: Tag)
    requires Sound(lane + [op]) && Headed(lane + [op], tag) && (op.Open? || op.Delta?)
    ensures op.Open? ==> lane == []
    ensures op.Delta? ==> Live(lane) && OnBlock(lane[0]) && lane[0].tag == tag
  {
    var grown := lane + [op];
    assert grown[|lane|] == op;
    if lane != [] {
      assert grown[0] == lane[0];
      assert grown[|lane| - 1] == lane[|lane| - 1];
    }
  }

  lemma SoundPlayable(e: Enc, front: seq<Op>, op: Op)
    requires StrictlySound(e, front + [op]) && OpOk(e, op)
    requires e.protocol == Chat ==> forall i | 0 <= i < |e.blocks| :: e.blocks[i].tag == Call
    ensures CanPlay(e.protocol, front, op) && StrictlySound(e, front)
  {
    hide Lane, Sound, Live;
    forall n | 0 <= n < |e.blocks| && Strict(e, n)
      ensures Sound(Lane(front, n)) && Headed(Lane(front, n), e.blocks[n].tag)
    {
      LaneMore(front, [op], n);
      SoundPrefix(Lane(front, n), Lane([op], n));
      assert Headed(Lane(front, n) + Lane([op], n), e.blocks[n].tag);
    }
    if (op.Open? || op.Delta?) && 0 <= op.slot < |e.blocks| && Strict(e, op.slot) {
      LaneMore(front, [op], op.slot);
      SoundLast(Lane(front, op.slot), op, e.blocks[op.slot].tag);
    }
  }

  lemma {:induction false} AllPlayable(e: Enc, ops: seq<Op>)
    requires StrictlySound(e, ops) && forall op | op in ops :: OpOk(e, op)
    requires e.protocol == Chat ==> forall i | 0 <= i < |e.blocks| :: e.blocks[i].tag == Call
    ensures Playable(e.protocol, ops)
  {
    hide StrictlySound, CanPlay;
    if ops != [] {
      var front, last := ops[..|ops| - 1], ops[|ops| - 1];
      assert ops == front + [last];
      SoundPlayable(e, front, last);
      AllPlayable(e, front);
    }
  }

  /** The part of the ledger a decoder of this protocol depends on. */
  predicate Readable(protocol: Protocol, es: seq<Event>) {
    Undone(es) && Named(es) && Read(es).toolsOk && (protocol == Messages ==> Read(es).thoughtsOk)
  }

  lemma InvSound(e: Enc, l: Ledger, ops: seq<Op>)
    requires Inv(e, l, ops) && l.toolsOk && (e.protocol == Messages ==> l.thoughtsOk)
    ensures StrictlySound(e, ops)
  {
    hide Lane, Find;
    forall n | 0 <= n < |e.blocks| && Strict(e, n)
      ensures Sound(Lane(ops, n)) && Headed(Lane(ops, n), e.blocks[n].tag)
    {
      assert BlockOk(l, Lane(ops, n), n, e.blocks[n]);
    }
  }

  lemma PlayableRun(protocol: Protocol, omitUsage: bool, es: seq<Event>)
    requires Readable(protocol, es)
    ensures Playable(protocol, Run(protocol, omitUsage, es).ops)
  {
    hide Apt, Read, Pieces;
    var r := Run(protocol, omitUsage, es);
    RunInv(protocol, omitUsage, es);
    RunFaithful(protocol, omitUsage, es);
    InvSound(r.enc, Read(es), r.ops);
    AptOps(r.enc, Read(es), r.ops);
    hide StrictlySound, Playable;
    AllPlayable(r.enc, r.ops);
  }

  lemma AptOps(e: Enc, l: Ledger, ops: seq<Op>)
    requires Apt(e, l, ops)
    ensures forall op | op in ops :: OpOk(e, op)
  {
  }

  // ---- the end of the stream ----

  lemma {:induction false} PlayableQuiet(protocol: Protocol, ops: seq<Op>, more: seq<Op>)
    requires Playable(protocol, ops) && forall op | op in more :: op.Begin? || op.Close?
    ensures Playable(protocol, ops + more)
  {
    hide Lane, Live;
    if more == [] {
      assert ops + more == ops;
    } else {
      var front, last := more[..|more| - 1], more[|more| - 1];
      PlayableQuiet(protocol, ops, front);
      assert last in more;
      PlayableMore(protocol, ops + front, last);
      assert (ops + front) + [last] == ops + more;
    }
  }

  /** Frames the encoder writes before the end. */
  predicate Plain(f: Frame) {
    match f
    case C(c) => c.Chunk? && c.usage == NO_USAGE && forall choice | choice in c.choices :: choice.finish == None
    case M(m) => !m.MessageDelta? && !m.MessageStop? && (m.MessageStart? ==> m.usage.reasoning == None == m.usage.total)
    case R(r) => !r.body.Completed?
  }

  /** Events that decide neither the stop reason nor the end. */
  predicate Midway(protocol: Protocol, ev: Event) {
    && !ev.Finish? && !ev.Done?
    && (ev.UsageSeen? ==> protocol == Messages && ev.usage.reasoning == None == ev.usage.total)
  }

  ghost predicate AllMidway(protocol: Protocol, es: seq<Event>) {
    forall ev | ev in es :: Midway(protocol, ev)
  }

  lemma {:induction false} ChatToolsMidway(d: Dec, ps: seq<ToolPiece>)
    ensures AllMidway(Chat, ChatTools(d, ps).events)
  {
    if ps != [] { ChatToolsMidway(d, ps[..|ps| - 1]); }
  }

  lemma {:induction false} ChatChoicesMidway(d: Dec, cs: seq<Choice>)
    requires forall c | c in cs :: c.finish == None
    ensures AllMidway(Chat, ChatChoices(d, cs).events)
  {
    if cs != [] {
      hide ChatTools;
      var front, last := cs[..|cs| - 1], cs[|cs| - 1];
      ChatChoicesMidway(d, front);
      ChatToolsMidway(ChatChoices(d, front).dec, last.tools);
    }
  }

  predicate Speaks(protocol: Protocol, f: Frame) {
    match protocol case Chat => f.C? case Messages => f.M? case Responses => f.R?
  }

  lemma {:induction false} FrameMidway(protocol: Protocol, d: Dec, f: Frame)
    requires Plain(f) && Speaks(protocol, f)
    ensures Decode(d, f).Ok? ==> AllMidway(protocol, Decode(d, f).value.events)
  {
    hide AllMidway, DecodeMessages, DecodeResponses, DecodeChat;
    match protocol
    case Chat => ChatMidway(d, f);
    case Messages => MessagesMidway(d, f);
    case Responses => ResponsesMidway(d, f);
  }

  lemma {:induction false} ChatMidway(d: Dec, f: Frame)
    requires Plain(f) && Speaks(Chat, f)
    ensures AllMidway(Chat, DecodeChat(d, f.chat).events)
  {
    ChatChoicesMidway(d.(started := true), f.chat.choices);
    hide ChatChoices;
  }

  lemma MessagesMidway(d: Dec, f: Frame)
    requires Plain(f) && Speaks(Messages, f)
    ensures DecodeMessages(d, f.message).Ok? ==> AllMidway(Messages, DecodeMessages(d, f.message).value.events)
  {
  }

  lemma ResponsesMidway(d: Dec, f: Frame)
    requires Plain(f) && Speaks(Responses, f)
    ensures DecodeResponses(d, f.response.body).Ok? ==> AllMidway(Responses, DecodeResponses(d, f.response.body).value.events)
  {
  }

  lemma {:induction false} FramesMidway(protocol: Protocol, d: Dec, frames: seq<Frame>)
    requires forall f | f in frames :: Plain(f) && Speaks(protocol, f)
    requires DecodeAll(d, frames).Ok?
    ensures AllMidway(protocol, DecodeAll(d, frames).value.events)
  {
    if frames != [] {
      hide Decode, Plain, Midway;
      var front, last := frames[..|frames| - 1], frames[|frames| - 1];
      FramesMidway(protocol, d, front);
      FrameMidway(protocol, DecodeAll(d, front).value.dec, last);
    }
  }

  lemma RenderPlain(protocol: Protocol, ops: seq<Op>)
    requires forall op | op in ops :: !op.End?
    ensures forall f | f in Render(protocol, 0, ops) :: Plain(f) && Speaks(protocol, f)
  {
    hide FlatMap;
    FlatMapAll(ChatFrames, ops, (f: ChatFrame) => Plain(C(f)));
    FlatMapAll(MessagesFrames, ops, (f: MessagesFrame) => Plain(M(f)));
    FlatMapAll(ResponsesBodies, ops, (f: ResponsesBody) => !f.Completed?);
    forall f | f in Render(protocol, 0, ops) ensures Plain(f) && Speaks(protocol, f) {
      var k :| 0 <= k < |Render(protocol, 0, ops)| && Render(protocol, 0, ops)[k] == f;
      match protocol
      case Chat => assert f.chat in FlatMap(ChatFrames, ops);
      case Messages => assert f.message in FlatMap(MessagesFrames, ops);
      case Responses => assert f.response.body in FlatMap(ResponsesBodies, ops);
    }
  }

  lemma {:induction false} MidwayMeaning(protocol: Protocol, es: seq<Event>)
    requires AllMidway(protocol, es)
    ensures StopOf(es) == "" && Undone(es)
    ensures if protocol == Messages then UsageOf(es).reasoning == None == UsageOf(es).total else UsageOf(es) == NO_USAGE
  {
    if es != [] {
      MidwayMeaning(protocol, es[..|es| - 1]);
      assert es[|es| - 1] in es && Midway(protocol, es[|es| - 1]);
    }
  }

  // ---- what the last operation decodes to ----

  function CanonicalStop(reason: string): string {
    if reason == "tool_calls" || reason == "length" then reason else "stop"
  }

  function StopRead(protocol: Protocol, hadTools: bool, stop: string): string {
    if protocol != Responses then CanonicalStop(stop) else if hadTools then "tool_calls" else "stop"
  }

  function UsageRead(protocol: Protocol, omitUsage: bool, u: Usage): Usage {
    match protocol
    case Chat => if UsagePresent(u) && !omitUsage then ChatUsage(u) else NO_USAGE
    case Messages => MessagesUsage(u)
    case Responses => ResponsesUsage(u)
  }

  /** How a decoded stream ends: tool ends, the stop reason, the usage, done. */
  function Ending(ends: seq<Event>, stop: string, u: Usage): seq<Event> {
    ends + [Finish(stop)] + Reported(u) + [Done]
  }

  lemma DecodePair(d: Dec, f: Frame, g: Frame)
    requires Decode(d, f).Ok? && Decode(Decode(d, f).value.dec, g).Ok?
    ensures DecodeAll(d, [f, g]) == Ok(Decoded(Decode(Decode(d, f).value.dec, g).value.dec,
      Decode(d, f).value.events + Decode(Decode(d, f).value.dec, g).value.events))
  {
    hide Decode;
    DecodeOne(d, f);
    DecodeOne(Decode(d, f).value.dec, g);
    DecodeConcat(d, [f], [g]);
    assert [f, g] == [f] + [g];
  }

  predicate ToolEnds(es: seq<Event>) {
    forall ev | ev in es :: ev.ToolEnd? || ev.Start?
  }

  lemma ChatEnding(d: Dec, m: nat, op: Op) returns (ends: seq<Event>)
    requires op.End?
    ensures ToolEnds(ends)
    ensures var r := DecodeAll(d, Render(Chat, m, [op]));
      r.Ok? && r.value.events == Ending(ends, CanonicalStop(op.stop), UsageRead(Chat, op.omitUsage, op.usage))
  {
    var c := Choice(None, None, [], Some(ChatStop(op.stop)));
    var u := UsageRead(Chat, op.omitUsage, op.usage);
    EndingFrames(m, op, c, u);
    var order := Ordering.Sorted(d.chatTools.Keys);
    ends := (if d.started then [] else [Start]) + ChatEnds(d.chatTools, order);
    hide Render, UsageRead, ChatStop, DecodeAll, ChatChoices;
    ChatLast(d, c, u);
    DecodePair(d, C(Chunk([c], u)), C(DoneMarker));
  }

  lemma EndingFrames(m: nat, op: Op, c: Choice, u: Usage)
    requires op.End? && c == Choice(None, None, [], Some(ChatStop(op.stop))) && u == UsageRead(Chat, op.omitUsage, op.usage)
    ensures Render(Chat, m, [op]) == [C(Chunk([c], u)), C(DoneMarker)]
  {
    RenderOne(Chat, m, op);
  }

  lemma ChatLast(d: Dec, c: Choice, u: Usage)
    requires c.reasoning == None && c.content == None && c.tools == [] && c.finish.Some?
    ensures DecodeChat(d, Chunk([c], u)).events
         == (if d.started then [] else [Start]) + ChatEnds(d.chatTools, Ordering.Sorted(d.chatTools.Keys))
            + [Finish(NormalizeChatStop(c.finish.value))] + Reported(u)
  {
    var cs, s := [c], d.(started := true);
    assert cs[..0] == [];
    assert ChatChoices(s, cs[..0]) == Decoded(s, []);
    assert ChatTools(s, c.tools) == Decoded(s, []);
    var f := ChatFinish(s, c.finish.value).events;
    assert ChatChoice(s, c).events == f;
    assert [] + f == f;
  }

  lemma OtherEnding(protocol: Protocol, d: Dec, m: nat, op: Op)
    requires op.End? && protocol != Chat
    ensures var r := DecodeAll(d, Render(protocol, m, [op]));
      r.Ok? && r.value.events == Ending([], StopRead(protocol, d.hadTools, op.stop), UsageRead(protocol, op.omitUsage, op.usage))
  {
    RenderOne(protocol, m, op);
    hide Render, DecodeAll;
    var u := UsageRead(protocol, op.omitUsage, op.usage);
    if protocol == Messages {
      var f, g := M(MessageDelta(MessagesStop(op.stop), u)), M(MessageStop);
      assert Render(protocol, m, [op]) == [f, g];
      DecodePair(d, f, g);
    } else {
      var f := R(ResponsesFrame(m, Completed("completed", "", op.output, u)));
      assert Render(protocol, m, [op]) == [f];
      DecodeOne(d, f);
    }
  }

  // ---- main results ----

  lemma StepTracks(e: Enc, ev: Event)
    requires !e.done && !ev.Done?
    ensures var f := Step(e, ev).enc;
      && f.stop == (if ev.Finish? then ev.stop else e.stop) && f.omitUsage == e.omitUsage
      && f.usage == (if ev.UsageSeen? then MergeUsage(e.usage, ev.usage) else e.usage)
  {
    hide Act, Prepare, MergeUsage;
    if IsContent(ev) {
      PrepareKeeps(e, ev);
      ActKeeps(Prepare(e, ev).enc, ev);
    }
  }

  lemma {:induction false} RunTracks(protocol: Protocol, omitUsage: bool, es: seq<Event>)
    requires Undone(es)
    ensures var e := Run(protocol, omitUsage, es).enc; e.stop == StopOf(es) && e.usage == UsageOf(es) && e.omitUsage == omitUsage
  {
    if es != [] {
      hide Step, MergeUsage;
      var front, last := es[..|es| - 1], es[|es| - 1];
      RunTracks(protocol, omitUsage, front);
      RunLed(protocol, omitUsage, front);
      StepTracks(Run(protocol, omitUsage, front).enc, last);
    }
  }

  predicate IsCall(c: Content) {
    c.Opened?
  }

  lemma {:induction false} PiecesCall(ops: seq<Op>)
    ensures (exists c :: c in Pieces(ops) && IsCall(c)) <==> (exists op :: op in ops && StartsCall(op))
  {
    if ops != [] {
      hide OwnerID;
      var front, last := ops[..|ops| - 1], ops[|ops| - 1];
      PiecesCall(front);
      assert ops == front + [last];
      assert Pieces(ops) == Pieces(front) + PieceOf(front, last);
      if StartsCall(last) { assert IsCall(PieceOf(front, last)[0]); }
    }
  }

  /** What a decoder must make of a whole stream. */
  ghost predicate Returned(protocol: Protocol, omitUsage: bool, es: seq<Event>, back: seq<Event>) {
    && Core(back) == Core(es)
    && StopOf(back) == StopRead(protocol, exists c :: c in Core(es) && IsCall(c), StopOf(es))
    && UsageOf(back) == UsageRead(protocol, omitUsage, UsageOf(es))
    && back != [] && back[|back| - 1] == Done && Undone(back[..|back| - 1])
  }

  lemma EndingCore(front: seq<Event>, ends: seq<Event>, stop: string, u: Usage)
    requires ToolEnds(ends)
    ensures Core(front + Ending(ends, stop, u)) == Core(front)
  {
    var tail := [Finish(stop)] + Reported(u) + [Done];
    CoreSmall(tail);
    FlatMapNone(ContentOf, ends);
    hide FlatMap, ContentOf;
    assert front + Ending(ends, stop, u) == (front + ends) + tail;
    CoreOpen(front + ends, tail);
    CoreOpen(front, ends);
  }

  lemma EndsMidway(ends: seq<Event>)
    requires ToolEnds(ends)
    ensures AllMidway(Chat, ends)
  {
  }

  lemma EndingTracks(protocol: Protocol, front: seq<Event>, ends: seq<Event>, stop: string, u: Usage)
    requires AllMidway(protocol, front) && ToolEnds(ends)
    requires protocol == Messages ==> u == MessagesUsage(u)
    ensures var back := front + ends + ([Finish(stop)] + Reported(u));
      StopOf(back) == stop && UsageOf(back) == u && Undone(back)
  {
    MidwayMeaning(protocol, front);
    EndsMidway(ends);
    MidwayMeaning(Chat, ends);
    hide AllMidway, StopOf, UsageOf;
    var tail := [Finish(stop)] + Reported(u);
    StopConcat(front + ends, tail);
    UsageConcat(front, ends);
    UsageConcat(front + ends, tail);
    TailMeaning(stop, u);
  }

  lemma EndingMeaning(protocol: Protocol, front: seq<Event>, ends: seq<Event>, stop: string, u: Usage)
    requires AllMidway(protocol, front) && ToolEnds(ends)
    requires protocol == Messages ==> u == MessagesUsage(u)
    ensures var back := front + Ending(ends, stop, u);
      && Core(back) == Core(front) && StopOf(back) == stop && UsageOf(back) == u
      && back != [] && back[|back| - 1] == Done && Undone(back[..|back| - 1])
  {
    EndingCore(front, ends, stop, u);
    EndingTracks(protocol, front, ends, stop, u);
    hide AllMidway, ToolEnds;
    var back := front + Ending(ends, stop, u);
    assert back[..|back| - 1] == front + ends + ([Finish(stop)] + Reported(u));
  }

  lemma TailMeaning(stop: string, u: Usage)
    ensures var tail := [Finish(stop)] + Reported(u);
      StopOf(tail) == stop && UsageOf(tail) == u && Finish(stop) in tail
  {
    var first := [Finish(stop)];
    assert first[..0] == [];
    assert StopOf(first) == stop && UsageOf(first) == NO_USAGE;
    if UsagePresent(u) {
      assert (first + [UsageSeen(u)])[..1] == first;
    } else {
      assert first + [] == first;
    }
  }

  lemma EndDecodes(protocol: Protocol, d: Dec, m: nat, op: Op) returns (ends: seq<Event>)
    requires op.End?
    ensures ToolEnds(ends)
    ensures var r := DecodeAll(d, Render(protocol, m, [op]));
      r.Ok? && r.value.events == Ending(ends, StopRead(protocol, d.hadTools, op.stop), UsageRead(protocol, op.omitUsage, op.usage))
  {
    if protocol == Chat { ends := ChatEnding(d, m, op); } else { ends := []; OtherEnding(protocol, d, m, op); }
  }

  /** Decoding playable operations followed by the end. */
  lemma EndedBack(protocol: Protocol, ops: seq<Op>, last: Op) returns (d: Dec, front: seq<Event>, ends: seq<Event>)
    requires Playable(protocol, ops) && last.End? && forall op | op in ops :: !op.End?
    ensures AllMidway(protocol, front) && ToolEnds(ends) && Core(front) == Pieces(ops)
    ensures d.hadTools <==> exists op :: op in ops && StartsCall(op)
    ensures var r := DecodeAll(FRESH, Render(protocol, 0, ops + [last]));
      && r.Ok?
      && r.value.events == front + Ending(ends, StopRead(protocol, d.hadTools, last.stop), UsageRead(protocol, last.omitUsage, last.usage))
  {
    hide Render, DecodeAll, Core, Plain, Midway, Playable, Ending;
    PlayAll(protocol, ops);
    var frames := Render(protocol, 0, ops);
    d, front := DecodeAll(FRESH, frames).value.dec, DecodeAll(FRESH, frames).value.events;
    RenderPlain(protocol, ops);
    FramesMidway(protocol, FRESH, frames);
    ends := EndDecodes(protocol, d, |frames|, last);
    RenderConcat(protocol, 0, ops, [last]);
    DecodeConcat(FRESH, frames, Render(protocol, |frames|, [last]));
  }

  /** The operations of a whole readable run: playable, carrying the content, and then the end. */
  lemma WholeOps(protocol: Protocol, omitUsage: bool, es: seq<Event>) returns (ops: seq<Op>, last: Op)
    requires Readable(protocol, es)
    ensures Run(protocol, omitUsage, es + [Done]).ops == ops + [last]
    ensures Playable(protocol, ops) && Pieces(ops) == Core(es) && forall op | op in ops :: !op.End?
    ensures last.End? && last.usage == UsageOf(es) && last.omitUsage == omitUsage
    ensures last.stop == if StopOf(es) == "" then "stop" else StopOf(es)
  {
    RunReady(protocol, omitUsage, es);
    RunDone(protocol, omitUsage, es);
    RunTracks(protocol, omitUsage, es);
    hide Run, Read, Core, Pieces, Playable, FinishStream, Keyed;
    var r := Run(protocol, omitUsage, es);
    var closing;
    closing, last := FinishParts(r.enc);
    ops := r.ops + closing;
    assert r.ops + (closing + [last]) == ops + [last];
    PlayableQuiet(protocol, r.ops, closing);
    PiecesQuiet(r.ops, closing);
  }

  lemma RunReady(protocol: Protocol, omitUsage: bool, es: seq<Event>)
    requires Readable(protocol, es)
    ensures var r := Run(protocol, omitUsage, es);
      && Playable(protocol, r.ops) && Pieces(r.ops) == Core(es) && (forall op | op in r.ops :: !op.End?)
      && !r.enc.done && Keyed(r.enc.blocks)
  {
    hide Read, Apt, Inv, Core, Pieces, Playable, OpOk, StrictlySound;
    RunInv(protocol, omitUsage, es);
    RunFaithful(protocol, omitUsage, es);
    AptOps(Run(protocol, omitUsage, es).enc, Read(es), Run(protocol, omitUsage, es).ops);
    PlayableRun(protocol, omitUsage, es);
    InvKeyed(Run(protocol, omitUsage, es).enc, Read(es), Run(protocol, omitUsage, es).ops);
    OpsOngoing(Run(protocol, omitUsage, es).enc, Run(protocol, omitUsage, es).ops);
    hide Run;
  }

  /** Finishing is closing what is open and one last operation. */
  lemma FinishParts(e: Enc) returns (closing: seq<Op>, last: Op)
    requires !e.done && Keyed(e.blocks)
    ensures FinishStream(e).ops == closing + [last] && (forall op | op in closing :: op.Begin? || op.Close?)
    ensures last.End? && last.usage == e.usage && last.omitUsage == e.omitUsage && last.stop == if e.stop == "" then "stop" else e.stop
  {
    var s := EnsureStarted(e.(done := true));
    CloseAllLane(s.enc, 0);
    hide CloseAll, Keyed, Shut;
    var c := CloseAll(s.enc);
    closing, last := s.ops + c.ops, Conclude(c.enc).ops[0];
  }

  lemma OpsOngoing(e: Enc, ops: seq<Op>)
    requires forall op | op in ops :: OpOk(e, op)
    ensures forall op | op in ops :: !op.End?
  {
  }

  /** Main result. For every readable sequence, decoding what the encoder wrote gives back the same
      content pieces in the same order, the stop reason and the usage as far as the protocol carries
      them, and one done at the end. */
  lemma {:induction false} RoundTrip(protocol: Protocol, omitUsage: bool, es: seq<Event>)
    requires Readable(protocol, es)
    ensures var r := DecodeAll(FRESH, Encode(protocol, omitUsage, es + [Done]));
      r.Ok? && Returned(protocol, omitUsage, es, r.value.events)
  {
    hide Read, Run, Render, DecodeAll, Core, Pieces, Playable, AllMidway, Ending, StopOf, UsageOf;
    var ops, last := WholeOps(protocol, omitUsage, es);
    var d, front, ends := EndedBack(protocol, ops, last);
    PiecesCall(ops);
    var stop, u := StopRead(protocol, d.hadTools, last.stop), UsageRead(protocol, last.omitUsage, last.usage);
    EndingMeaning(protocol, front, ends, stop, u);
  }

  /** The stop reason survives Chat and Messages up to the three canonical reasons; through Responses
      it survives exactly when it says whether tools were called. */
  lemma {:induction false} StopSurvives(protocol: Protocol, omitUsage: bool, es: seq<Event>)
    requires Readable(protocol, es)
    ensures var r := DecodeAll(FRESH, Encode(protocol, omitUsage, es + [Done]));
      && r.Ok?
      && (StopOf(r.value.events) == CanonicalStop(StopOf(es))
          <==> protocol != Responses
               || CanonicalStop(StopOf(es)) == if exists ev :: ev in es && ev.ToolStart? then "tool_calls" else "stop")
  {
    hide Read, Run, Render, DecodeAll, StopOf, UsageOf;
    RoundTrip(protocol, omitUsage, es);
    CoreCalls(es);
  }

  function Count(n: Option<int>): Option<int> {
    Some(if n == None then 0 else n.value)
  }

  /** The counters that come back, one by one: each as it was reported last, 0 where none was, and none
      where the protocol has no place for it or the client did not ask for usage. */
  lemma {:induction false} UsageSurvives(protocol: Protocol, omitUsage: bool, es: seq<Event>)
    requires Readable(protocol, es)
    ensures var r := DecodeAll(FRESH, Encode(protocol, omitUsage, es + [Done]));
      var u := UsageOf(es);
      r.Ok? && UsageOf(r.value.events) ==
        match protocol
        case Chat =>
          if omitUsage || u == NO_USAGE then NO_USAGE
          else Usage(Count(u.input), Count(u.cacheRead), None, Count(u.output), Count(u.reasoning), Count(u.total))
        case Messages => Usage(Count(u.input), Count(u.cacheRead), Count(u.cacheWrite), Count(u.output), None, None)
        case Responses => Usage(Count(u.input), Count(u.cacheRead), None, Count(u.output), Count(u.reasoning), Count(u.total))
  {
    hide DecodeAll, Encode, Readable, UsageOf, Core, StopOf;
    RoundTrip(protocol, omitUsage, es);
  }

  lemma {:induction false} CoreCalls(es: seq<Event>)
    ensures (exists c :: c in Core(es) && IsCall(c)) <==> (exists ev :: ev in es && ev.ToolStart?)
  {
    if es != [] {
      var front, last := es[..|es| - 1], es[|es| - 1];
      CoreCalls(front);
      assert es == front + [last];
      assert Core(es) == Core(front) + ContentOf(last);
      if last.ToolStart? { assert IsCall(ContentOf(last)[0]); }
    }
  }

  // ---- reasoning that resumes ----

  lemma ErrStays(ops: seq<Op>, more: seq<Op>)
    requires DecodeAll(FRESH, Render(Messages, 0, ops)).Err?
    ensures DecodeAll(FRESH, Render(Messages, 0, ops + more)).Err?
  {
    hide Render, DecodeAll;
    RenderConcat(Messages, 0, ops, more);
    DecodeConcat(FRESH, Render(Messages, 0, ops), Render(Messages, |Render(Messages, 0, ops)|, more));
  }

  lemma ClosedThoughtFails(ops: seq<Op>, op: Op)
    requires PlayedBack(Messages, ops) && op.Delta? && op.tag == Think && !Live(Lane(ops, op.slot))
    ensures DecodeAll(FRESH, Render(Messages, 0, ops + [op])).Err?
  {
    hide Render, DecodeAll, Lane, Follows, Live, Core, Pieces;
    var frames := Render(Messages, 0, ops);
    var d := DecodeAll(FRESH, frames).value.dec;
    FollowsNow(Messages, d, ops, op.slot);
    var f := M(BlockDelta(op.slot, ThinkingChange(op.text)));
    UnopenedThought(d, op.slot, op.text);
    RenderConcat(Messages, 0, ops, [op]);
    RenderOne(Messages, |frames|, op);
    assert Render(Messages, |frames|, [op]) == [f];
    DecodeConcat(FRESH, frames, [f]);
    DecodeOne(d, f);
  }

  lemma UnopenedThought(d: Dec, n: int, t: string)
    requires n !in d.blocks
    ensures Decode(d, M(BlockDelta(n, ThinkingChange(t)))).Err?
  {
  }

  /** After other content the reasoning block is closed, and more reasoning is still written to it. */
  lemma LateThought(e: Enc, l: Ledger, ops: seq<Op>, ev: Event)
    requires Inv(e, l, ops) && e.protocol == Messages && l.thoughtsOk && l.over && !e.done && ev.Reasoning? && ev.delta != ""
    ensures var n := Find(e.blocks, Think, "");
      && Step(e, ev).ops == EnsureStarted(e).ops + [Delta(n, Think, ev.delta)]
      && !Live(Lane(ops + EnsureStarted(e).ops, n))
  {
    hide Find, Lane;
    var n, s := Find(e.blocks, Think, ""), EnsureStarted(e);
    assert BlockOk(l, Lane(ops, n), n, e.blocks[n]);
    LaneMore(ops, s.ops, n);
    assert Lane(ops, n) + [] == Lane(ops, n);
    assert s.ops + ([] + [Delta(n, Think, ev.delta)]) == s.ops + [Delta(n, Think, ev.delta)];
  }

  lemma LateThoughtNow(omitUsage: bool, front: seq<Event>, last: Event)
    requires Readable(Messages, front) && Read(front).over && last.Reasoning? && last.delta != ""
    ensures var r := Run(Messages, omitUsage, front);
      DecodeAll(FRESH, Render(Messages, 0, r.ops + Step(r.enc, last).ops)).Err?
  {
    hide Run, Read, Inv, Render, DecodeAll, Lane, Find, Live, Playable, Step;
    var r := Run(Messages, omitUsage, front);
    RunInv(Messages, omitUsage, front);
    LateThought(r.enc, Read(front), r.ops, last);
    PlayableRun(Messages, omitUsage, front);
    var s := EnsureStarted(r.enc);
    PlayableQuiet(Messages, r.ops, s.ops);
    PlayAll(Messages, r.ops + s.ops);
    var op := Delta(Find(r.enc.blocks, Think, ""), Think, last.delta);
    ClosedThoughtFails(r.ops + s.ops, op);
    assert r.ops + Step(r.enc, last).ops == (r.ops + s.ops) + [op];
  }

  lemma {:induction false} LateThoughtFails(omitUsage: bool, es: seq<Event>)
    requires Undone(es) && Named(es) && Read(es).toolsOk && !Read(es).thoughtsOk
    ensures DecodeAll(FRESH, Render(Messages, 0, Run(Messages, omitUsage, es).ops)).Err?
  {
    hide Render, DecodeAll, Step, Mark, Turn;
    var front, last := es[..|es| - 1], es[|es| - 1];
    ToolsEarlier(Read(front), last);
    if Read(front).thoughtsOk {
      ThoughtBreaks(Read(front), last);
      LateThoughtNow(omitUsage, front, last);
    } else {
      LateThoughtFails(omitUsage, front);
      ErrStays(Run(Messages, omitUsage, front).ops, Step(Run(Messages, omitUsage, front).enc, last).ops);
    }
  }

  lemma ThoughtBreaks(l: Ledger, ev: Event)
    requires l.thoughtsOk && !Mark(Turn(l, ev), ev).thoughtsOk
    ensures ev.Reasoning? && ev.delta != "" && l.over
  {
  }

  /** With tools in order, a Messages client can read the stream if and only if no reasoning arrives
      after other content has followed the first reasoning. */
  lemma {:induction false} MessagesReadableIff(omitUsage: bool, es: seq<Event>)
    requires Undone(es) && Named(es) && Read(es).toolsOk
    ensures DecodeAll(FRESH, Encode(Messages, omitUsage, es + [Done])).Ok? <==> Read(es).thoughtsOk
  {
    hide Render, DecodeAll, Run, Read;
    if Read(es).thoughtsOk {
      RoundTrip(Messages, omitUsage, es);
    } else {
      LateThoughtFails(omitUsage, es);
      RunDone(Messages, omitUsage, es);
      var r := Run(Messages, omitUsage, es);
      ErrStays(r.ops, FinishStream(r.enc).ops);
    }
  }

  // ---- two streams that lose something ----

  function ResumedThought(): seq<Event> {
    [Reasoning(0, "a"), Text(1, "b"), Reasoning(0, "c")]
  }

  /** Reasoning, text, reasoning: the Messages stream breaks its grammar and no client can read it. */
  lemma ResumedThoughtFails(omitUsage: bool)
    ensures DecodeAll(FRESH, Encode(Messages, omitUsage, ResumedThought() + [Done])).Err?
    ensures !MessagesGrammar(FlatMap(MessagesFrames, Run(Messages, omitUsage, ResumedThought() + [Done]).ops))
  {
    var es := ResumedThought();
    ReadThree(es);
    MessagesReadableIff(omitUsage, es);
    MessagesGrammarIff(omitUsage, es);
  }

  lemma ReadThree(es: seq<Event>)
    requires es == ResumedThought()
    ensures Undone(es) && Named(es) && Read(es).toolsOk && !Read(es).thoughtsOk
  {
    var one, two := es[..1], es[..2];
    assert two[..1] == one && one[..0] == [] && es[..|es| - 1] == two && two[..|two| - 1] == one;
    assert Read(one) == Mark(Turn(BLANK, es[0]), es[0]);
    assert Read(two) == Mark(Turn(Read(one), es[1]), es[1]);
    assert Read(es) == Mark(Turn(Read(two), es[2]), es[2]);
  }

  function CutShort(): seq<Event> {
    [Text(0, "a"), Finish("length")]
  }

  /** An answer cut short for length: a Responses client reads a plain stop. */
  lemma LengthLost(omitUsage: bool)
    ensures var r := DecodeAll(FRESH, Encode(Responses, omitUsage, CutShort() + [Done]));
      r.Ok? && StopOf(r.value.events) != "length" == StopOf(CutShort())
  {
    var es := CutShort();
    var one := es[..1];
    assert one[..0] == [] && es[..|es| - 1] == one;
    assert Read(one) == Mark(Turn(BLANK, es[0]), es[0]);
    assert Read(es) == Mark(Turn(Read(one), es[1]), es[1]);
    StopSurvives(Responses, omitUsage, es);
  }
}

/** The decoders following the operations an encoder printed, one operation at a time. */
module StreamPlayback {
  import opened Wrappers
  import opened StreamTypes
  import opened StreamSpec
  import opened StreamGrammar
  import opened StreamDecoding
  import opened Sequences

  // ---- the content of operations ----

  function OwnerID(ops: seq<Op>, n: int): string {
    var lane := Lane(ops, n);
    if lane != [] && lane[0].Open? then lane[0].callID else ""
  }

  /** The content an operation carries, after `front`. */
  function PieceOf(front: seq<Op>, op: Op): seq<Content> {
    match op
    case Open(_, Call, id, name) => [Opened(id, name)]
    case Delta(_, Say, d) => [Said(d)]
    case Delta(_, Think, d) => [Thought(d)]
    case Delta(n, Call, d) => [Passed(OwnerID(front, n), d)]
    case _ => []
  }

  function Pieces(ops: seq<Op>): seq<Content> {
    if ops == [] then [] else Pieces(ops[..|ops| - 1]) + PieceOf(ops[..|ops| - 1], ops[|ops| - 1])
  }

  lemma PiecesMore(ops: seq<Op>, op: Op)
    ensures Pieces(ops + [op]) == Pieces(ops) + PieceOf(ops, op)
  {
    assert (ops + [op])[..|ops|] == ops;
  }

  /** Operations that carry no content. */
  predicate Quiet(op: Op) {
    !op.Delta? && !(op.Open? && op.tag == Call)
  }

  lemma {:induction false} PiecesQuiet(ops: seq<Op>, more: seq<Op>)
    requires forall op | op in more :: Quiet(op)
    ensures Pieces(ops + more) == Pieces(ops)
  {
    hide Pieces, OwnerID;
    if more == [] {
      assert ops + more == ops;
    } else {
      var front, last := more[..|more| - 1], more[|more| - 1];
      PiecesQuiet(ops, front);
      PiecesMore(ops + front, last);
      assert last in more && PieceOf(ops + front, last) == [];
      assert (ops + front) + [last] == ops + more;
    }
  }

  // ---- operations that a decoder can follow ----

  predicate Live(lane: seq<Op>) {
    lane != [] && lane[0].Open? && !lane[|lane| - 1].Close?
  }

  /** A decoder of this protocol reads the operation as the encoder meant it. Responses and Chat carry
      reasoning and text without an open block; Messages does not. */
  predicate CanPlay(protocol: Protocol, front: seq<Op>, op: Op) {
    match op
    case Open(n, tag, id, _) =>
      && n >= 0 && (tag == Call ==> id != "") && (protocol == Chat ==> tag == Call)
      && (protocol == Messages || tag == Call ==> Lane(front, n) == [])
    case Delta(n, tag, d) =>
      && d != ""
      && (protocol == Messages || tag == Call ==> n >= 0 && Live(Lane(front, n)) && Lane(front, n)[0].tag == tag)
      && (protocol == Chat && tag != Call ==> n == -1)
    case Close(n, _, _, _, _) => true
    case Begin(_) => true
    case End(_, _, _, _) => false
  }

  predicate Playable(protocol: Protocol, ops: seq<Op>) {
    ops == [] || (Playable(protocol, ops[..|ops| - 1]) && CanPlay(protocol, ops[..|ops| - 1], ops[|ops| - 1]))
  }

  lemma PlayableMore(protocol: Protocol, ops: seq<Op>, op: Op)
    requires Playable(protocol, ops) && CanPlay(protocol, ops, op)
    ensures Playable(protocol, ops + [op])
  {
    assert (ops + [op])[..|ops|] == ops;
  }

  // ---- decoders following operations ----

  function KindOf(tag: Tag): Kind {
    match tag case Think => ThinkingKind case Say => TextKind case Call => ToolKind
  }

  /** What the decoder remembers about index `n`, whose operations so far are `lane`. */
  predicate FollowsAt(protocol: Protocol, d: Dec, lane: seq<Op>, n: int) {
    match protocol
    case Messages =>
      && (Live(lane) <==> n in d.blocks)
      && (Live(lane) ==> d.blocks[n] == OpenBlock(KindOf(lane[0].tag), if lane[0].tag == Call then lane[0].callID else ""))
    case Responses =>
      lane != [] && lane[0].Open? && lane[0].tag == Call ==> n in d.responseTools && d.responseTools[n] == lane[0].callID
    case Chat =>
      n >= 0 ==>
        && (lane == [] ==> n !in d.chatTools)
        && (lane != [] && lane[0].Open? ==> n in d.chatTools && d.chatTools[n] == lane[0].callID)
  }

  predicate StartsCall(op: Op) {
    op.Open? && op.tag == Call
  }

  ghost predicate Follows(protocol: Protocol, d: Dec, ops: seq<Op>) {
    && (d.hadTools <==> exists op :: op in ops && StartsCall(op))
    && forall n: int :: FollowsAt(protocol, d, Lane(ops, n), n)
  }

  /** From `d` to `f` the decoder only learned about the index of `op`. */
  lemma FollowsMore(protocol: Protocol, d: Dec, f: Dec, ops: seq<Op>, op: Op)
    requires Follows(protocol, d, ops)
    requires f.hadTools == (d.hadTools || StartsCall(op))
    requires forall n: int | !OnSlot(op, n) :: FollowsAt(protocol, d, Lane(ops, n), n) ==> FollowsAt(protocol, f, Lane(ops, n), n)
    requires OnBlock(op) ==> FollowsAt(protocol, f, Lane(ops, op.slot) + [op], op.slot)
    ensures Follows(protocol, f, ops + [op])
  {
    hide FollowsAt, Lane;
    forall n: int ensures FollowsAt(protocol, f, Lane(ops + [op], n), n) {
      LaneMore(ops, [op], n);
      assert FollowsAt(protocol, d, Lane(ops, n), n);
      if OnSlot(op, n) { assert Lane(ops + [op], n) == Lane(ops, op.slot) + [op]; } else { assert Lane(ops + [op], n) == Lane(ops, n); }
    }
    if f.hadTools {
      if StartsCall(op) { assert op in ops + [op]; } else {
        var x :| x in ops && StartsCall(x);
        assert x in ops + [op];
      }
    }
  }

  lemma LiveLast(lane: seq<Op>, op: Op)
    ensures (lane + [op])[|lane|] == op
    ensures lane != [] ==> (lane + [op])[0] == lane[0]
    ensures Live(lane + [op]) <==> if lane == [] then op.Open? else lane[0].Open? && !op.Close?
  {
  }

  lemma DecodeOne(d: Dec, f: Frame)
    ensures DecodeAll(d, [f]) == Decode(d, f)
  {
    assert [f][..0] == [];
    assert DecodeAll(d, []) == Ok(Decoded(d, []));
    if Decode(d, f).Ok? { assert [] + Decode(d, f).value.events == Decode(d, f).value.events; }
  }

  lemma CoreSmall(es: seq<Event>)
    requires |es| <= 3
    ensures es == [] ==> Core(es) == []
    ensures |es| == 1 ==> Core(es) == ContentOf(es[0])
    ensures |es| == 2 ==> Core(es) == ContentOf(es[0]) + ContentOf(es[1])
    ensures |es| == 3 ==> Core(es) == ContentOf(es[0]) + ContentOf(es[1]) + ContentOf(es[2])
  {
    if |es| == 1 { FlatMapOne(ContentOf, es[0]); assert es == [es[0]]; }
    if |es| >= 2 {
      FlatMapOne(ContentOf, es[0]);
      FlatMapMore(ContentOf, [es[0]], es[1]);
      assert es[..2] == [es[0]] + [es[1]];
      assert |es| == 2 ==> es == es[..2];
    }
    if |es| == 3 { FlatMapMore(ContentOf, es[..2], es[2]); assert es == es[..2] + [es[2]]; }
  }

  ghost predicate Plays(protocol: Protocol, d: Dec, front: seq<Op>, op: Op, m: nat) {
    var r := DecodeAll(d, Render(protocol, m, [op]));
    r.Ok? && Core(r.value.events) == PieceOf(front, op) && Follows(protocol, r.value.dec, front + [op])
  }

  lemma Concluded(protocol: Protocol, d: Dec, front: seq<Op>, op: Op, m: nat, f: Frame)
    requires Render(protocol, m, [op]) == [f] && Decode(d, f).Ok?
    requires Core(Decode(d, f).value.events) == PieceOf(front, op) && Follows(protocol, Decode(d, f).value.dec, front + [op])
    ensures Plays(protocol, d, front, op, m)
  {
    hide Decode, Render, Core, Follows;
    DecodeOne(d, f);
  }

  lemma MessagesFollows(d: Dec, front: seq<Op>, op: Op)
    requires Follows(Messages, d, front) && CanPlay(Messages, front, op) && op.Open?
    ensures var r := DecodeMessages(d, MessagesFrames(op)[0]);
      r.Ok? && Follows(Messages, r.value.dec, front + [op])
  {
    hide Lane;
    var r := DecodeMessages(d, MessagesFrames(op)[0]);
    assert [] + [op] == [op];
    FollowsMore(Messages, d, r.value.dec, front, op);
  }

  lemma MessagesKeeps(d: Dec, front: seq<Op>, op: Op)
    requires Follows(Messages, d, front) && CanPlay(Messages, front, op) && (op.Delta? || op.Close?)
    ensures var r := DecodeMessages(d, MessagesFrames(op)[0]);
      r.Ok? && Follows(Messages, r.value.dec, front + [op])
  {
    hide Lane, Live;
    var lane := Lane(front, op.slot);
    assert FollowsAt(Messages, d, lane, op.slot);
    LiveLast(lane, op);
    LiveLast(lane[..|lane| - if lane == [] then 0 else 1], op);
    var r := DecodeMessages(d, MessagesFrames(op)[0]);
    LiveOpen(lane);
    FollowsMore(Messages, d, r.value.dec, front, op);
  }

  lemma LiveOpen(lane: seq<Op>)
    ensures Live(lane) ==> lane != [] && lane[0].Open?
  {
  }

  lemma MessagesSays(d: Dec, front: seq<Op>, op: Op)
    requires OnBlock(op) && FollowsAt(Messages, d, Lane(front, op.slot), op.slot) && CanPlay(Messages, front, op)
    ensures var r := DecodeMessages(d, MessagesFrames(op)[0]);
      r.Ok? && Core(r.value.events) == PieceOf(front, op)
  {
    hide Lane, Core;
    CoreSmall(DecodeMessages(d, MessagesFrames(op)[0]).value.events);
  }

  lemma {:induction false} MessagesPlays(d: Dec, front: seq<Op>, op: Op, m: nat)
    requires Follows(Messages, d, front) && CanPlay(Messages, front, op)
    ensures Plays(Messages, d, front, op, m)
  {
    hide Lane, Render, DecodeAll, Core, Follows, CanPlay, DecodeMessages, MessagesFrames;
    MessagesSingle(front, op);
    var f := MessagesFrames(op)[0];
    RenderOne(Messages, m, op);
    if OnBlock(op) {
      FollowsNow(Messages, d, front, op.slot);
      MessagesSays(d, front, op);
      if op.Open? { MessagesFollows(d, front, op); } else { MessagesKeeps(d, front, op); }
    } else {
      MessagesBegins(d, front, op);
    }
    assert Render(Messages, m, [op]) == [M(f)];
    Concluded(Messages, d, front, op, m, M(f));
  }

  lemma MessagesSingle(front: seq<Op>, op: Op)
    requires CanPlay(Messages, front, op)
    ensures !op.End? && |MessagesFrames(op)| == 1
  {
  }

  lemma MessagesBegins(d: Dec, front: seq<Op>, op: Op)
    requires Follows(Messages, d, front) && op.Begin?
    ensures var r := DecodeMessages(d, MessagesFrames(op)[0]);
      r.Ok? && Core(r.value.events) == PieceOf(front, op) && Follows(Messages, r.value.dec, front + [op])
  {
    hide Lane, Core, Follows;
    var r := DecodeMessages(d, MessagesFrames(op)[0]);
    CoreSmall(r.value.events);
    BeginFollows(Messages, d, r.value.dec, front, op);
  }

  lemma BeginFollows(protocol: Protocol, d: Dec, f: Dec, front: seq<Op>, op: Op)
    requires Follows(protocol, d, front) && !OnBlock(op) && f == d.(started := f.started)
    ensures Follows(protocol, f, front + [op])
  {
    hide Lane;
    FollowsMore(protocol, d, f, front, op);
  }

  lemma {:induction false} DecodeSilent(d: Dec, frames: seq<Frame>)
    requires forall f | f in frames :: Decode(d, f) == Ok(Decoded(d, []))
    ensures DecodeAll(d, frames) == Ok(Decoded(d, []))
  {
    hide Decode;
    if frames != [] {
      DecodeSilent(d, frames[..|frames| - 1]);
      assert frames[|frames| - 1] in frames;
      var none: seq<Event> := [];
      assert none + none == none;
    }
  }

  // ---- Responses ----

  /** The one body of an operation that its decoder does not skip, if any. */
  function Spoken(op: Op): Option<ResponsesBody> {
    match op
    case Open(_, Call, _, _) => Some(ResponsesBodies(op)[0])
    case Delta(_, _, _) => Some(ResponsesBodies(op)[0])
    case Close(_, Call, _, _, _) => Some(ResponsesBodies(op)[1])
    case _ => None
  }

  lemma ResponsesSpoken(d: Dec, op: Op, m: nat)
    requires OnBlock(op)
    ensures DecodeAll(d, Render(Responses, m, [op])) ==
      match Spoken(op) case None => Ok(Decoded(d, [])) case Some(b) => DecodeResponses(d, b)
  {
    hide Decode, DecodeAll, ResponsesBodies, Render;
    RenderOne(Responses, m, op);
    var frames := Number(m, ResponsesBodies(op));
    SpokenFrames(d, op, m);
    match Spoken(op)
    case None => DecodeSilent(d, frames);
    case Some(b) =>
      SilentThen(d, frames[..|frames| - 1], frames[|frames| - 1]);
      assert frames[..|frames| - 1] + [frames[|frames| - 1]] == frames;
  }

  /** All bodies of an operation but the spoken one, which is the last, are skipped. */
  lemma SpokenFrames(d: Dec, op: Op, m: nat)
    requires OnBlock(op)
    ensures var frames := Number(m, ResponsesBodies(op));
      if Spoken(op) == None then forall f | f in frames :: Decode(d, f) == Ok(Decoded(d, []))
      else
        && frames != [] && Decode(d, frames[|frames| - 1]) == DecodeResponses(d, Spoken(op).value)
        && forall f | f in frames[..|frames| - 1] :: Decode(d, f) == Ok(Decoded(d, []))
  {
  }

  lemma SilentThen(d: Dec, silent: seq<Frame>, f: Frame)
    requires forall x | x in silent :: Decode(d, x) == Ok(Decoded(d, []))
    ensures DecodeAll(d, silent + [f]) == Decode(d, f)
  {
    hide Decode;
    DecodeSilent(d, silent);
    DecodeConcat(d, silent, [f]);
    DecodeOne(d, f);
    if Decode(d, f).Ok? { assert [] + Decode(d, f).value.events == Decode(d, f).value.events; }
  }

  lemma ResponsesBegins(d: Dec, u: Usage, m: nat)
    ensures DecodeAll(d, Render(Responses, m, [Begin(u)]))
         == Ok(Decoded(d.(started := true), if d.started then [] else [Start]))
  {
    RenderOne(Responses, m, Begin(u));
    var frames := Number(m, [Created, InProgress]);
    DecodeConcat(d, [frames[0]], [frames[1]]);
    assert frames == [frames[0]] + [frames[1]];
    DecodeOne(d, frames[0]);
    DecodeOne(d.(started := true), frames[1]);
    var events := if d.started then [] else [Start];
    assert events + [] == events;
  }

  lemma ResponsesKeeps(d: Dec, front: seq<Op>, op: Op)
    requires Follows(Responses, d, front) && CanPlay(Responses, front, op) && OnBlock(op)
    ensures var f := if StartsCall(op) then d.(hadTools := true, responseTools := d.responseTools[op.slot := op.callID]) else d;
      Follows(Responses, f, front + [op])
  {
    hide Lane;
    var lane := Lane(front, op.slot);
    assert FollowsAt(Responses, d, lane, op.slot);
    LiveLast(lane, op);
    var f := if StartsCall(op) then d.(hadTools := true, responseTools := d.responseTools[op.slot := op.callID]) else d;
    FollowsMore(Responses, d, f, front, op);
  }

  lemma {:induction false} ResponsesPlays(d: Dec, front: seq<Op>, op: Op, m: nat)
    requires Follows(Responses, d, front) && CanPlay(Responses, front, op)
    ensures Plays(Responses, d, front, op, m)
  {
    hide Lane, Render, DecodeAll, Core, Follows;
    if op.Begin? {
      ResponsesBegins(d, op.usage, m);
      BeginFollows(Responses, d, d.(started := true), front, op);
      CoreSmall(if d.started then [] else [Start]);
    } else {
      ResponsesSpoken(d, op, m);
      ResponsesKeeps(d, front, op);
      FollowsNow(Responses, d, front, op.slot);
      match Spoken(op)
      case None => CoreSmall([]);
      case Some(b) => CoreSmall(DecodeResponses(d, b).value.events);
    }
  }

  // ---- Chat ----

  lemma ChatOne(d: Dec, c: Choice)
    ensures DecodeChat(d, Chunk([c], NO_USAGE))
         == Decoded(ChatChoice(d.(started := true), c).dec,
                    (if d.started then [] else [Start]) + ChatChoice(d.(started := true), c).events)
  {
    hide ChatChoice;
    var cs, s := [c], d.(started := true);
    assert cs[..0] == [];
    assert ChatChoices(s, cs[..0]) == Decoded(s, []);
    assert [] + ChatChoice(s, c).events == ChatChoice(s, c).events;
  }

  /** The single choice an operation is printed as. */
  function ChoiceOf(op: Op): Choice
    requires !op.Close? && !op.End?
  {
    ChatFrames(op)[0].choices[0]
  }

  lemma ChatSpeaks(d: Dec, c: Choice)
    requires c.finish == None && |c.tools| <= 1
    ensures ChatChoice(d, c) ==
      var t := if c.tools == [] then Decoded(d, []) else ChatTool(d, c.tools[0]);
      Decoded(t.dec,
        (if c.reasoning.Some? && c.reasoning.value != "" then [Reasoning(0, c.reasoning.value)] else [])
        + (if c.content.Some? && c.content.value != "" then [Text(0, c.content.value)] else [])
        + t.events)
  {
    hide ChatTool;
    if c.tools != [] {
      assert c.tools[..0] == [];
      assert ChatTools(d, c.tools[..0]) == Decoded(d, []);
      assert [] + ChatTool(d, c.tools[0]).events == ChatTool(d, c.tools[0]).events;
    }
    var t := ChatTools(d, c.tools);
    var said := (if c.reasoning.Some? && c.reasoning.value != "" then [Reasoning(0, c.reasoning.value)] else [])
      + (if c.content.Some? && c.content.value != "" then [Text(0, c.content.value)] else []) + t.events;
    assert said + [] == said;
  }

  /** The events and the memory a printed operation leaves in the Chat decoder. */
  function ChatHeard(d: Dec, op: Op): Decoded {
    match op
    case Open(n, _, id, name) => ChatTool(d, ToolPiece(n, id, name, ""))
    case Delta(n, Call, t) => ChatTool(d, ToolPiece(n, "", "", t))
    case Delta(_, Say, t) => Decoded(d, if t == "" then [] else [Text(0, t)])
    case Delta(_, Think, t) => Decoded(d, if t == "" then [] else [Reasoning(0, t)])
    case _ => Decoded(d, [])
  }

  lemma ChatHears(d: Dec, op: Op)
    requires !op.Close? && !op.End?
    ensures ChatFrames(op) == [Chunk([ChoiceOf(op)], NO_USAGE)]
    ensures ChatChoice(d, ChoiceOf(op)) == ChatHeard(d, op)
  {
    hide ChatTool, ChatChoice;
    ChatSpeaks(d, ChoiceOf(op));
    var t := ChatHeard(d, op).events;
    assert [] + [] + t == t && t + [] + [] == t && [] + t + [] == t;
  }

  lemma ChatKeeps(d: Dec, front: seq<Op>, op: Op)
    requires Follows(Chat, d, front) && CanPlay(Chat, front, op)
    ensures Follows(Chat, ChatHeard(d.(started := true), op).dec, front + [op])
    ensures Follows(Chat, ChatHeard(d, op).dec, front + [op])
    ensures op.Close? ==> ChatHeard(d, op).dec == d
  {
    hide Lane, Live;
    if OnBlock(op) {
      var lane := Lane(front, op.slot);
      FollowsNow(Chat, d, front, op.slot);
      LiveLast(lane, op);
      LiveOpen(lane);
      FollowsMore(Chat, d, ChatHeard(d.(started := true), op).dec, front, op);
      FollowsMore(Chat, d, ChatHeard(d, op).dec, front, op);
    } else {
      BeginFollows(Chat, d, d.(started := true), front, op);
      BeginFollows(Chat, d, d, front, op);
    }
  }

  lemma ChatSays(d: Dec, front: seq<Op>, op: Op)
    requires OnBlock(op) && FollowsAt(Chat, d, Lane(front, op.slot), op.slot) && CanPlay(Chat, front, op)
    ensures Core(ChatHeard(d, op).events) == PieceOf(front, op)
  {
    hide Lane, Core;
    CoreSmall(ChatHeard(d, op).events);
  }

  lemma ChatContent(d: Dec, front: seq<Op>, op: Op)
    requires Follows(Chat, d, front) && CanPlay(Chat, front, op)
    ensures var s := ChatHeard(d.(started := true), op);
      Core((if d.started then [] else [Start]) + s.events) == PieceOf(front, op)
  {
    hide Lane, Core, ChatHeard, Follows, CanPlay;
    var start, s := if d.started then [] else [Start], d.(started := true);
    FlatMapConcat(ContentOf, start, ChatHeard(s, op).events);
    CoreSmall(start);
    CoreOpen(start, ChatHeard(s, op).events);
    if OnBlock(op) {
      FollowsNow(Chat, d, front, op.slot);
      ChatSays(s, front, op);
    } else {
      ChatBegins(s, front, op);
    }
  }

  lemma CoreOpen(a: seq<Event>, b: seq<Event>)
    ensures Core(a + b) == Core(a) + Core(b)
  {
    FlatMapConcat(ContentOf, a, b);
  }

  lemma ChatBegins(d: Dec, front: seq<Op>, op: Op)
    requires CanPlay(Chat, front, op) && !OnBlock(op)
    ensures Core(ChatHeard(d, op).events) == [] == PieceOf(front, op)
  {
  }

  lemma ChatCloses(d: Dec, front: seq<Op>, op: Op, m: nat)
    requires op.Close? && Follows(Chat, d, front + [op])
    ensures Plays(Chat, d, front, op, m)
  {
    hide Follows;
    RenderOne(Chat, m, op);
    assert Render(Chat, m, [op]) == [];
  }

  lemma ChatPlays(d: Dec, front: seq<Op>, op: Op, m: nat)
    requires Follows(Chat, d, front) && CanPlay(Chat, front, op)
    ensures Plays(Chat, d, front, op, m)
  {
    hide Lane, Render, DecodeAll, Core, Follows, ChatChoice, ChatHeard;
    ChatKeeps(d, front, op);
    if op.Close? {
      ChatCloses(d, front, op, m);
    } else {
      hide CanPlay;
      RenderOne(Chat, m, op);
      var s := d.(started := true);
      ChatHears(s, op);
      ChatOne(d, ChoiceOf(op));
      ChatContent(d, front, op);
      assert AsChat(ChatFrames(op)) == [C(ChatFrames(op)[0])];
      Concluded(Chat, d, front, op, m, C(ChatFrames(op)[0]));
    }
  }

  lemma FollowsNow(protocol: Protocol, d: Dec, front: seq<Op>, n: int)
    requires Follows(protocol, d, front)
    ensures FollowsAt(protocol, d, Lane(front, n), n)
  {
  }
}

/** The stream decoders: one wire frame in, canonical events out. */
module StreamDecoding {
  import opened Wrappers
  import opened StreamTypes
  import opened Ordering
  import Decimal

  datatype Kind = Unknown | TextKind | ThinkingKind | RedactedKind | ToolKind

  datatype OpenBlock = OpenBlock(kind: Kind, callID: string)

  datatype Dec = Dec(
    started: bool, hadTools: bool,
    chatTools: map<int, string>, blocks: map<int, OpenBlock>, responseTools: map<int, string>)

  const FRESH := Dec(false, false, map[], map[], map[])

  datatype Decoded = Decoded(dec: Dec, events: seq<Event>)

  function Reported(u: Usage): seq<Event> {
    if UsagePresent(u) then [UsageSeen(u)] else []
  }

  // ---- Chat ----

  function ChatTool(d: Dec, p: ToolPiece): Decoded {
    var known := p.index in d.chatTools;
    var id := if known then d.chatTools[p.index]
              else if p.id == "" then "call_" + Decimal.Text(p.index) else p.id;
    var d' := if known then d else d.(chatTools := d.chatTools[p.index := id], hadTools := true);
    Decoded(d', (if known then [] else [ToolStart(p.index, id, p.name)])
                + (if p.arguments == "" then [] else [ToolDelta(p.index, id, p.arguments)]))
  }

  function ChatTools(d: Dec, ps: seq<ToolPiece>): Decoded {
    if ps == [] then Decoded(d, [])
    else
      var front := ChatTools(d, ps[..|ps| - 1]);
      var last := ChatTool(front.dec, ps[|ps| - 1]);
      Decoded(last.dec, front.events + last.events)
  }

  /** The ends of all open tools, by ascending index. */
  ghost function ChatEnds(tools: map<int, string>, order: seq<int>): (r: seq<Event>)
    requires forall j | 0 <= j < |order| :: order[j] in tools
    ensures |r| == |order| && forall j | 0 <= j < |r| :: r[j] == ToolEnd(order[j], tools[order[j]])
  {
    seq(|order|, j requires 0 <= j < |order| => ToolEnd(order[j], tools[order[j]]))
  }

  ghost function ChatFinish(d: Dec, reason: string): Decoded {
    Decoded(d.(chatTools := map[]),
            ChatEnds(d.chatTools, Sorted(d.chatTools.Keys)) + [Finish(NormalizeChatStop(reason))])
  }

  /** A finish reason ends every open tool exactly once, by ascending index, and forgets them all. */
  lemma FinishEndsTools(d: Dec, reason: string)
    ensures var f := ChatFinish(d, reason);
      && f.dec.chatTools == map[] && f.events[|f.events| - 1] == Finish(NormalizeChatStop(reason))
      && (forall i | i in d.chatTools :: ToolEnd(i, d.chatTools[i]) in f.events)
      && (forall j | 0 <= j < |f.events| - 1 ::
            f.events[j].ToolEnd? && f.events[j].index in d.chatTools && f.events[j].callID == d.chatTools[f.events[j].index])
      && (forall j, k | 0 <= j < k < |f.events| - 1 && f.events[j].ToolEnd? && f.events[k].ToolEnd? :: f.events[j].index < f.events[k].index)
  {
    var order := Sorted(d.chatTools.Keys);
    var ends := ChatEnds(d.chatTools, order);
    SortedAscending(d.chatTools.Keys);
    forall i | i in d.chatTools ensures ToolEnd(i, d.chatTools[i]) in ChatFinish(d, reason).events {
      assert i in order;
      var j :| 0 <= j < |order| && order[j] == i;
      assert ends[j] == ToolEnd(i, d.chatTools[i]);
    }
  }

  ghost function ChatChoice(d: Dec, c: Choice): Decoded {
    var thought := if c.reasoning.Some? && c.reasoning.value != "" then [Reasoning(0, c.reasoning.value)] else [];
    var said := if c.content.Some? && c.content.value != "" then [Text(0, c.content.value)] else [];
    var t := ChatTools(d, c.tools);
    var f := if c.finish.Some? then ChatFinish(t.dec, c.finish.value) else Decoded(t.dec, []);
    Decoded(f.dec, thought + said + t.events + f.events)
  }

  ghost function ChatChoices(d: Dec, cs: seq<Choice>): Decoded {
    if cs == [] then Decoded(d, [])
    else
      var front := ChatChoices(d, cs[..|cs| - 1]);
      var last := ChatChoice(front.dec, cs[|cs| - 1]);
      Decoded(last.dec, front.events + last.events)
  }

  ghost function DecodeChat(d: Dec, f: ChatFrame): Decoded {
    match f
    case DoneMarker => Decoded(d, [Done])
    case Chunk(choices, usage) =>
      var c := ChatChoices(d.(started := true), choices);
      Decoded(c.dec, (if d.started then [] else [Start]) + c.events + Reported(usage))
  }

  // ---- Messages ----

  function BlockAt(d: Dec, n: int): OpenBlock {
    if n in d.blocks then d.blocks[n] else OpenBlock(Unknown, "")
  }

  function DecodeMessages(d: Dec, f: MessagesFrame): Result<Decoded> {
    match f
    case Ping => Ok(Decoded(d, []))
    case MessageStart(u) => Ok(Decoded(d.(started := true), [Start] + Reported(u)))
    case BlockStart(n, TextBlock(t)) =>
      Ok(Decoded(d.(blocks := d.blocks[n := OpenBlock(TextKind, "")]), if t == "" then [] else [Text(n, t)]))
    case BlockStart(n, ThinkingBlock(t)) =>
      Ok(Decoded(d.(blocks := d.blocks[n := OpenBlock(ThinkingKind, "")]), if t == "" then [] else [Reasoning(n, t)]))
    case BlockStart(n, RedactedBlock) =>
      Ok(Decoded(d.(blocks := d.blocks[n := OpenBlock(RedactedKind, "")]), []))
    case BlockStart(n, ToolUseBlock(id, name, input)) =>
      Ok(Decoded(d.(hadTools := true, blocks := d.blocks[n := OpenBlock(ToolKind, id)]),
                 [ToolStart(n, id, name)] + if input == "" || input == "{}" then [] else [ToolDelta(n, id, input)]))
    case BlockStart(n, OtherBlock) => Err
    case BlockDelta(n, TextChange(t)) => Ok(Decoded(d, [Text(n, t)]))
    case BlockDelta(n, InputChange(j)) => Ok(Decoded(d, [ToolDelta(n, BlockAt(d, n).callID, j)]))
    case BlockDelta(n, ThinkingChange(t)) =>
      if BlockAt(d, n).kind != ThinkingKind then Err else Ok(Decoded(d, [Reasoning(n, t)]))
    case BlockDelta(n, SignatureChange) =>
      if BlockAt(d, n).kind != ThinkingKind then Err else Ok(Decoded(d, []))
    case BlockDelta(n, OtherChange) => Err
    case BlockStop(n) =>
      Ok(Decoded(d.(blocks := d.blocks - {n}),
                 if BlockAt(d, n).kind == ToolKind then [ToolEnd(n, BlockAt(d, n).callID)] else []))
    case MessageDelta(stop, u) => Ok(Decoded(d, [Finish(NormalizeMessagesStop(stop))] + Reported(u)))
    case MessageStop => Ok(Decoded(d, [Done]))
    case MessagesFault => Err
  }

  // ---- Responses ----

  function DecodeResponses(d: Dec, f: ResponsesBody): Result<Decoded> {
    match f
    case Created => Ok(Decoded(d.(started := true), if d.started then [] else [Start]))
    case InProgress => Ok(Decoded(d.(started := true), if d.started then [] else [Start]))
    case ItemAdded(n, CallItem(_, id, name, args)) =>
      Ok(Decoded(d.(hadTools := true, responseTools := d.responseTools[n := id]),
                 [ToolStart(n, id, name)] + if args == "" then [] else [ToolDelta(n, id, args)]))
    case ItemAdded(_, _) => Ok(Decoded(d, []))
    case TextDelta(n, t) => Ok(Decoded(d, [Text(n, t)]))
    case SummaryDelta(n, t) => Ok(Decoded(d, [Reasoning(n, t)]))
    case ArgsDelta(n, t) => Ok(Decoded(d, [ToolDelta(n, if n in d.responseTools then d.responseTools[n] else "", t)]))
    case ItemDone(n, CallItem(_, id, _, _)) =>
      Ok(Decoded(d, [ToolEnd(n, if id != "" then id else if n in d.responseTools then d.responseTools[n] else "")]))
    case ItemDone(_, _) => Ok(Decoded(d, []))
    case Completed(status, reason, _, u) =>
      var stop := if status == "incomplete" && reason == "max_output_tokens" then "length"
                  else if d.hadTools then "tool_calls" else "stop";
      Ok(Decoded(d, [Finish(stop)] + Reported(u) + [Done]))
    case ResponsesFault => Err
    case _ => Ok(Decoded(d, []))
  }

  /** Decodes one frame of the decoder's own protocol. */
  ghost function Decode(d: Dec, f: Frame): Result<Decoded> {
    match f
    case C(c) => Ok(DecodeChat(d, c))
    case M(m) => DecodeMessages(d, m)
    case R(r) => DecodeResponses(d, r.body)
  }

  /** Decodes a whole stream; the first bad frame ends it. */
  ghost function DecodeAll(d: Dec, frames: seq<Frame>): Result<Decoded> {
    if frames == [] then Ok(Decoded(d, []))
    else
      match DecodeAll(d, frames[..|frames| - 1])
      case Err => Err
      case Ok(front) =>
        match Decode(front.dec, frames[|frames| - 1])
        case Err => Err
        case Ok(last) => Ok(Decoded(last.dec, front.events + last.events))
  }

  lemma {:induction false} DecodeConcat(d: Dec, a: seq<Frame>, b: seq<Frame>)
    ensures DecodeAll(d, a + b) ==
      match DecodeAll(d, a)
      case Err => Err
      case Ok(x) =>
        match DecodeAll(x.dec, b)
        case Err => Err
        case Ok(y) => Ok(Decoded(y.dec, x.events + y.events))
  {
    hide Decode;
    if b == [] {
      assert a + b == a;
      if DecodeAll(d, a).Ok? { assert DecodeAll(d, a).value.events + [] == DecodeAll(d, a).value.events; }
    } else {
      var front, last := b[..|b| - 1], b[|b| - 1];
      assert (a + b)[..|a + b| - 1] == a + front;
      DecodeConcat(d, a, front);
      if DecodeAll(d, a).Ok? && DecodeAll(DecodeAll(d, a).value.dec, b).Ok? {
        var x := DecodeAll(d, a).value;
        var y := DecodeAll(x.dec, front).value;
        var z := Decode(y.dec, last).value;
        assert x.events + (y.events + z.events) == (x.events + y.events) + z.events;
      }
    }
  }
}

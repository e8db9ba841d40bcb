/** The stream decoder as the program keeps it: an object whose maps are updated frame by frame. */
module StreamDecoder {
  import opened Wrappers
  import opened StreamTypes
  import opened StreamDecoding
  import opened Ordering

  /** The members of a finite set in ascending order, as the program sorts the open tool indexes. */
  method Ascending(keys: set<int>) returns (order: seq<int>)
    ensures order == Sorted(keys)
  {
    order := [];
    var rest := keys;
    while |rest| > 0
      invariant Sorted(keys) == order + Sorted(rest)
      decreases rest
    {
      Inhabited(rest);
      var least := Minimum(rest);
      assert least == Least(rest);
      order, rest := order + [least], rest - {least};
    }
  }

  lemma Inhabited(s: set<int>)
    ensures s == {} || exists x :: x in s
  {
    assert (forall x :: x !in s) ==> s == {};
  }

  method Minimum(s: set<int>) returns (m: int)
    requires |s| > 0
    ensures m in s && forall x | x in s :: m <= x
  {
    Inhabited(s);
    m :| m in s;
    var rest := s - {m};
    while |rest| > 0
      invariant m in s && rest <= s && forall x | x in s && x !in rest :: m <= x
      decreases rest
    {
      Inhabited(rest);
      var x :| x in rest;
      if x < m { m := x; }
      rest := rest - {x};
    }
  }

  class Decoder {
    var started: bool
    var hadTools: bool
    var chatTools: map<int, string>
    var messageBlocks: map<int, OpenBlock>
    var responseTools: map<int, string>

    ghost function Memory(): Dec
      reads this
    {
      Dec(started, hadTools, chatTools, messageBlocks, responseTools)
    }

    constructor ()
      ensures Memory() == FRESH
    {
      started, hadTools, chatTools, messageBlocks, responseTools := false, false, map[], map[], map[];
    }

    method DecodeTools(pieces: seq<ToolPiece>) returns (events: seq<Event>)
      modifies `hadTools, `chatTools
      ensures Decoded(Memory(), events) == ChatTools(old(Memory()), pieces)
    {
      events := [];
      assert pieces[..0] == [];
      for i := 0 to |pieces|
        invariant Decoded(Memory(), events) == ChatTools(old(Memory()), pieces[..i])
      {
        assert pieces[..i + 1][..i] == pieces[..i];
        var p := pieces[i];
        ghost var before, sofar := Memory(), events;
        var callID := p.id;
        if p.index in chatTools {
          callID := chatTools[p.index];
        } else {
          if callID == "" { callID := "call_" + Decimal.Text(p.index); }
          chatTools := chatTools[p.index := callID];
          hadTools := true;
          events := events + [ToolStart(p.index, callID, p.name)];
        }
        if p.arguments != "" {
          events := events + [ToolDelta(p.index, callID, p.arguments)];
        }
        assert Memory() == ChatTool(before, p).dec;
        assert events == sofar + ChatTool(before, p).events;
      }
      assert pieces[..|pieces|] == pieces;
    }

    method DecodeFinish(reason: string) returns (events: seq<Event>)
      modifies `chatTools
      ensures Decoded(Memory(), events) == ChatFinish(old(Memory()), reason)
    {
      var indexes := Ascending(chatTools.Keys);
      events := [];
      for i := 0 to |indexes|
        invariant |events| == i && forall j | 0 <= j < i :: events[j] == ToolEnd(indexes[j], chatTools[indexes[j]])
      {
        events := events + [ToolEnd(indexes[i], chatTools[indexes[i]])];
      }
      assert events == ChatEnds(chatTools, indexes);
      chatTools := map[];
      events := events + [Finish(NormalizeChatStop(reason))];
    }

    method DecodeChoice(c: Choice) returns (events: seq<Event>)
      modifies `hadTools, `chatTools
      ensures Decoded(Memory(), events) == ChatChoice(old(Memory()), c)
    {
      hide ChatTools, ChatFinish;
      events := [];
      if c.reasoning.Some? && c.reasoning.value != "" {
        events := events + [Reasoning(0, c.reasoning.value)];
      }
      if c.content.Some? && c.content.value != "" {
        events := events + [Text(0, c.content.value)];
      }
      var tools := DecodeTools(c.tools);
      events := events + tools;
      if c.finish.Some? {
        var finish := DecodeFinish(c.finish.value);
        events := events + finish;
      }
    }

    method DecodeChatFrame(f: ChatFrame) returns (events: seq<Event>)
      modifies this
      ensures Decoded(Memory(), events) == DecodeChat(old(Memory()), f)
    {
      hide ChatChoice;
      if f.DoneMarker? {
        return [Done];
      }
      events := [];
      if !started {
        started := true;
        events := [Start];
      }
      ghost var begun, lead := Memory(), events;
      assert f.choices[..0] == [];
      for i := 0 to |f.choices|
        invariant Decoded(Memory(), events) == Decoded(ChatChoices(begun, f.choices[..i]).dec, lead + ChatChoices(begun, f.choices[..i]).events)
      {
        assert f.choices[..i + 1][..i] == f.choices[..i];
        var more := DecodeChoice(f.choices[i]);
        events := events + more;
      }
      assert f.choices[..|f.choices|] == f.choices;
      if UsagePresent(f.usage) {
        events := events + [UsageSeen(f.usage)];
      }
    }

    method DecodeMessagesFrame(f: MessagesFrame) returns (r: Result<seq<Event>>)
      modifies this
      ensures match DecodeMessages(old(Memory()), f)
        case Err => r.Err?
        case Ok(d) => r == Ok(d.events) && Memory() == d.dec
    {
      match f {
        case Ping => return Ok([]);
        case MessageStart(u) =>
          started := true;
          var events := [Start];
          if UsagePresent(u) { events := events + [UsageSeen(u)]; }
          assert events == DecodeMessages(old(Memory()), f).value.events;
          return Ok(events);
        case BlockStart(n, block) =>
          match block {
            case TextBlock(t) =>
              messageBlocks := messageBlocks[n := OpenBlock(TextKind, "")];
              return Ok(if t == "" then [] else [Text(n, t)]);
            case ThinkingBlock(t) =>
              messageBlocks := messageBlocks[n := OpenBlock(ThinkingKind, "")];
              return Ok(if t == "" then [] else [Reasoning(n, t)]);
            case RedactedBlock =>
              messageBlocks := messageBlocks[n := OpenBlock(RedactedKind, "")];
              return Ok([]);
            case ToolUseBlock(id, name, input) =>
              messageBlocks := messageBlocks[n := OpenBlock(ToolKind, id)];
              hadTools := true;
              var events := [ToolStart(n, id, name)];
              if input != "" && input != "{}" { events := events + [ToolDelta(n, id, input)]; }
              assert events == DecodeMessages(old(Memory()), f).value.events;
              return Ok(events);
            case OtherBlock =>
              messageBlocks := messageBlocks[n := OpenBlock(Unknown, "")];
              return Err;
          }
        case BlockDelta(n, change) =>
          var block := if n in messageBlocks then messageBlocks[n] else OpenBlock(Unknown, "");
          match change {
            case TextChange(t) => return Ok([Text(n, t)]);
            case InputChange(j) => return Ok([ToolDelta(n, block.callID, j)]);
            case ThinkingChange(t) =>
              if block.kind != ThinkingKind { return Err; }
              return Ok([Reasoning(n, t)]);
            case SignatureChange =>
              if block.kind != ThinkingKind { return Err; }
              return Ok([]);
            case OtherChange => return Err;
          }
        case BlockStop(n) =>
          var block := if n in messageBlocks then messageBlocks[n] else OpenBlock(Unknown, "");
          messageBlocks := messageBlocks - {n};
          return Ok(if block.kind == ToolKind then [ToolEnd(n, block.callID)] else []);
        case MessageDelta(stop, u) =>
          var events := [Finish(NormalizeMessagesStop(stop))];
          if UsagePresent(u) { events := events + [UsageSeen(u)]; }
          assert events == DecodeMessages(old(Memory()), f).value.events;
          return Ok(events);
        case MessageStop => return Ok([Done]);
        case MessagesFault => return Err;
      }
    }

    method DecodeResponsesFrame(f: ResponsesBody) returns (r: Result<seq<Event>>)
      modifies this
      ensures match DecodeResponses(old(Memory()), f)
        case Err => r.Err?
        case Ok(d) => r == Ok(d.events) && Memory() == d.dec
    {
      match f {
        case Created | InProgress =>
          if started { return Ok([]); }
          started := true;
          return Ok([Start]);
        case ItemAdded(n, item) =>
          if !item.CallItem? { return Ok([]); }
          hadTools := true;
          responseTools := responseTools[n := item.callID];
          var events := [ToolStart(n, item.callID, item.name)];
          if item.arguments != "" { events := events + [ToolDelta(n, item.callID, item.arguments)]; }
          assert events == DecodeResponses(old(Memory()), f).value.events;
          return Ok(events);
        case TextDelta(n, t) => return Ok([Text(n, t)]);
        case SummaryDelta(n, t) => return Ok([Reasoning(n, t)]);
        case ArgsDelta(n, t) => return Ok([ToolDelta(n, if n in responseTools then responseTools[n] else "", t)]);
        case ItemDone(n, item) =>
          if !item.CallItem? { return Ok([]); }
          var callID := item.callID;
          if callID == "" && n in responseTools { callID := responseTools[n]; }
          return Ok([ToolEnd(n, callID)]);
        case Completed(status, reason, _, u) =>
          var stop := "stop";
          if hadTools { stop := "tool_calls"; }
          if status == "incomplete" && reason == "max_output_tokens" { stop := "length"; }
          var events := [Finish(stop)];
          if UsagePresent(u) { events := events + [UsageSeen(u)]; }
          assert events == [Finish(stop)] + Reported(u);
          return Ok(events + [Done]);
        case ResponsesFault => return Err;
        case _ => return Ok([]);
      }
    }

    method DecodeFrame(f: Frame) returns (r: Result<seq<Event>>)
      modifies this
      ensures match Decode(old(Memory()), f)
        case Err => r.Err?
        case Ok(d) => r == Ok(d.events) && Memory() == d.dec
    {
      match f {
        case C(c) =>
          var events := DecodeChatFrame(c);
          r := Ok(events);
        case M(m) => r := DecodeMessagesFrame(m);
        case R(x) => r := DecodeResponsesFrame(x.body);
      }
    }
  }

  /** Decoding a stream frame by frame, up to the first bad frame. */
  method DecodeStream(frames: seq<Frame>) returns (r: Result<seq<Event>>)
    ensures match DecodeAll(FRESH, frames) case Err => r.Err? case Ok(d) => r == Ok(d.events)
  {
    hide Decode;
    var decoder := new Decoder();
    var events := [];
    assert frames[..0] == [];
    for i := 0 to |frames|
      invariant DecodeAll(FRESH, frames[..i]) == Ok(Decoded(decoder.Memory(), events))
    {
      assert frames[..i + 1][..i] == frames[..i];
      var more := decoder.DecodeFrame(frames[i]);
      if more.Err? {
        Spoiled(frames, i + 1);
        return Err;
      }
      events := events + more.value;
    }
    assert frames[..|frames|] == frames;
    r := Ok(events);
  }

  lemma Spoiled(frames: seq<Frame>, n: nat)
    requires n <= |frames| && DecodeAll(FRESH, frames[..n]).Err?
    ensures DecodeAll(FRESH, frames).Err?
  {
    hide Decode;
    DecodeConcat(FRESH, frames[..n], frames[n..]);
    assert frames[..n] + frames[n..] == frames;
  }
}

/** Decoding an Antigravity stream. A turn that calls tools is signed: its tool events are held back
    until the whole turn, signatures included, has been stored, because the next request must send the
    turn back unchanged. */
module Antigravity {
  import opened Wrappers
  import opened Sequences
  import opened StreamTypes

  // ---- JSON ----

  datatype Json = Null | Bool(b: bool) | Number(digits: string) | Str(s: string) | Arr(items: seq<Json>) | Obj(fields: map<string, Json>)

  /** How text reads as JSON; the decoder is part of the environment. */
  type Parser = string -> Option<Json>

  // ---- upstream documents ----

  datatype FunctionCall = FunctionCall(id: string, name: string, args: string)

  datatype Part = Part(text: string, thought: bool, signature: string, call: Option<FunctionCall>)

  datatype Candidate = Candidate(index: int, parts: seq<Part>, finish: string)

  datatype Document =
    | Fault // unreadable, an upstream error, a blocked prompt, or an early end marker
    | Document(candidates: seq<Candidate>, usagePresent: bool, usage: Result<Usage>)

  datatype ToolCall = ToolCall(id: string, name: string, arguments: string)

  /** A stored turn: the parts exactly as they came, and the calls they contain. */
  datatype Turn = Turn(parts: seq<Part>, calls: seq<ToolCall>, upstreamIDs: seq<string>)

  datatype Settings = Settings(
    storing: bool,            // tool turns are stored
    parse: Parser,
    validID: string -> bool,  // the upstream ID can be sent back safely
    mint: nat -> string)      // the n-th fresh call ID

  datatype State = State(
    started: bool, done: bool, toolIndex: nat, signed: bool,
    parts: seq<Part>, calls: seq<ToolCall>, upstreamIDs: seq<string>,
    pending: seq<Event>, saved: seq<Turn>, minted: nat)

  const FRESH := State(false, false, 0, false, [], [], [], [], [], 0)

  datatype Made = Made(state: State, events: seq<Event>)

  function Arguments(call: FunctionCall): string {
    if call.args == "" || call.args == "null" then "{}" else call.args
  }

  /** Records a function call and its three events. */
  function MakeCall(g: Settings, s: State, call: FunctionCall): Result<Made> {
    if (s.signed && !g.storing) || call.name == "" then Err
    else if g.parse(Arguments(call)) == None || !g.parse(Arguments(call)).value.Obj? then Err
    else if call.id != "" && !g.validID(call.id) then Err
    else
      var id := if g.storing || call.id == "" then g.mint(s.minted) else call.id;
      Ok(Made(
        s.(upstreamIDs := s.upstreamIDs + [call.id], calls := s.calls + [ToolCall(id, call.name, Arguments(call))],
           toolIndex := s.toolIndex + 1, minted := s.minted + 1),
        [ToolStart(s.toolIndex, id, call.name), ToolDelta(s.toolIndex, id, Arguments(call)), ToolEnd(s.toolIndex, id)]))
  }

  function Spoken(p: Part): seq<Event> {
    if p.text == "" then [] else if p.thought then [Reasoning(0, p.text)] else [Text(0, p.text)]
  }

  function MakePart(g: Settings, s: State, p: Part): Result<Made> {
    var kept := s.(parts := s.parts + [p]);
    if p.signature != "" && s.toolIndex > 0 && !g.storing then Err
    else
      var marked := if p.signature != "" then kept.(signed := true) else kept;
      match p.call
      case None => Ok(Made(marked, Spoken(p)))
      case Some(call) =>
        match MakeCall(g, marked, call)
        case Err => Err
        case Ok(m) => Ok(Made(m.state, m.events + Spoken(p)))
  }

  function MakeParts(g: Settings, s: State, ps: seq<Part>): Result<Made> {
    if ps == [] then Ok(Made(s, []))
    else
      match MakeParts(g, s, ps[..|ps| - 1])
      case Err => Err
      case Ok(front) =>
        match MakePart(g, front.state, ps[|ps| - 1])
        case Err => Err
        case Ok(last) => Ok(Made(last.state, front.events + last.events))
  }

  function MakeFinish(s: State, finish: string): Result<Made> {
    if finish == "" then Ok(Made(s, []))
    else if finish != "STOP" && finish != "MAX_TOKENS" then Err
    else
      var stop := if finish == "MAX_TOKENS" then "length" else if s.toolIndex > 0 then "tool_calls" else "stop";
      Ok(Made(s.(done := true), [Finish(stop)]))
  }

  function MakeCandidate(g: Settings, s: State, c: Candidate): Result<Made> {
    if c.index != 0 then Err
    else
      match MakeParts(g, s, c.parts)
      case Err => Err
      case Ok(m) =>
        match MakeFinish(m.state, c.finish)
        case Err => Err
        case Ok(f) => Ok(Made(f.state, m.events + f.events))
  }

  /** Everything one document means, before any event is held back or the turn is stored. */
  function Generate(g: Settings, s: State, d: Document): Result<Made> {
    if s.done || d.Fault? || |d.candidates| > 1 || (d.candidates == [] && !d.usagePresent) then Err
    else
      var opening := if s.started then [] else [Start];
      var c := if d.candidates == [] then Ok(Made(s.(started := true), [])) else MakeCandidate(g, s.(started := true), d.candidates[0]);
      if c.Err? || d.usage.Err? then Err
      else
        var usage := if d.usagePresent && UsagePresent(d.usage.value) then [UsageSeen(d.usage.value)] else [];
        var closing := if c.value.state.done then [Done] else [];
        Ok(Made(c.value.state, opening + c.value.events + usage + closing))
  }

  predicate Holding(g: Settings, s: State) {
    s.calls != [] && g.storing
  }

  /** One document through the decoder; `stored` tells whether the turn could be saved, if it must be. */
  function Decode(g: Settings, s: State, d: Document, stored: bool): Result<Made> {
    match Generate(g, s, d)
    case Err => Err
    case Ok(m) =>
      if !Holding(g, m.state) then Ok(m)
      else if !m.state.done then Ok(Made(m.state.(pending := m.state.pending + m.events), []))
      else if !stored then Err
      else
        var turn := Turn(m.state.parts, m.state.calls, m.state.upstreamIDs);
        Ok(Made(m.state.(saved := m.state.saved + [turn], pending := []), m.state.pending + m.events))
  }

  // ---- whole runs ----

  datatype Fed = Fed(document: Document, stored: bool)

  /** The state and all returned events of a run, as long as no document fails. */
  function Run(g: Settings, fed: seq<Fed>): Result<Made> {
    if fed == [] then Ok(Made(FRESH, []))
    else
      match Run(g, fed[..|fed| - 1])
      case Err => Err
      case Ok(front) =>
        match Decode(g, front.state, fed[|fed| - 1].document, fed[|fed| - 1].stored)
        case Err => Err
        case Ok(last) => Ok(Made(last.state, front.events + last.events))
  }

  /** All events the documents mean, in order. */
  function Meant(g: Settings, fed: seq<Fed>): seq<Event>
    requires Run(g, fed).Ok?
  {
    if fed == [] then []
    else
      var before := Run(g, fed[..|fed| - 1]).value.state;
      Meant(g, fed[..|fed| - 1]) + Generate(g, before, fed[|fed| - 1].document).value.events
  }

  predicate ToolEvent(ev: Event) {
    ev.ToolStart? || ev.ToolDelta? || ev.ToolEnd?
  }

  predicate Calls(calls: seq<ToolCall>, id: string) {
    exists i :: 0 <= i < |calls| && calls[i].id == id
  }

  /** All recorded arguments are JSON. */
  predicate Parsed(g: Settings, calls: seq<ToolCall>) {
    forall i | 0 <= i < |calls| :: g.parse(calls[i].arguments).Some?
  }

  /** What one part leaves alone and what it adds. */
  predicate Adds(g: Settings, s: State, m: Made, ps: seq<Part>) {
    && m.state == s.(parts := s.parts + ps, calls := m.state.calls, upstreamIDs := m.state.upstreamIDs,
                     toolIndex := m.state.toolIndex, signed := m.state.signed, minted := m.state.minted)
    && s.calls <= m.state.calls && (Parsed(g, s.calls) ==> Parsed(g, m.state.calls))
    && (forall ev | ev in m.events :: ev != Done)
    && (forall ev | ev in m.events && ToolEvent(ev) :: Calls(m.state.calls, ev.callID))
  }

  lemma PartAdds(g: Settings, s: State, p: Part)
    requires MakePart(g, s, p).Ok?
    ensures Adds(g, s, MakePart(g, s, p).value, [p])
  {
    hide MakeCall;
    var m := MakePart(g, s, p).value;
    if p.call.Some? {
      var marked := s.(parts := s.parts + [p], signed := s.signed || p.signature != "");
      CallAdds(g, marked, p.call.value);
      assert marked.parts + [] == marked.parts;
    }
  }

  lemma CallAdds(g: Settings, s: State, call: FunctionCall)
    requires MakeCall(g, s, call).Ok?
    ensures Adds(g, s, MakeCall(g, s, call).value, [])
  {
    var m := MakeCall(g, s, call).value;
    assert m.state.calls[|s.calls|].id == m.events[0].callID;
    assert Calls(m.state.calls, m.events[0].callID);
    assert s.parts + [] == s.parts;
  }

  lemma {:induction false} PartsAdd(g: Settings, s: State, ps: seq<Part>)
    requires MakeParts(g, s, ps).Ok?
    ensures Adds(g, s, MakeParts(g, s, ps).value, ps)
  {
    if ps != [] {
      hide MakePart;
      var front := MakeParts(g, s, ps[..|ps| - 1]).value;
      PartsAdd(g, s, ps[..|ps| - 1]);
      PartAdds(g, front.state, ps[|ps| - 1]);
      var m := MakeParts(g, s, ps).value;
      assert ps == ps[..|ps| - 1] + [ps[|ps| - 1]];
      forall ev | ev in m.events && ToolEvent(ev) ensures Calls(m.state.calls, ev.callID) {
        if ev in front.events {
          var i :| 0 <= i < |front.state.calls| && front.state.calls[i].id == ev.callID;
          assert m.state.calls[i].id == ev.callID;
        }
      }
    }
  }

  function FedParts(f: Fed): seq<Part> {
    PartsOf(f.document)
  }

  /** The parts a document carries. */
  function PartsOf(d: Document): seq<Part> {
    if d.Fault? || d.candidates == [] then [] else d.candidates[0].parts
  }

  lemma GenerateAdds(g: Settings, s: State, d: Document)
    requires Generate(g, s, d).Ok?
    ensures var m := Generate(g, s, d).value;
      && m.state.parts == s.parts + PartsOf(d)
      && s.calls <= m.state.calls && (Parsed(g, s.calls) ==> Parsed(g, m.state.calls))
      && m.state.pending == s.pending && m.state.saved == s.saved && m.state.started && !s.done
      && (m.state.done <==> Done in m.events)
      && forall ev | ev in m.events && ToolEvent(ev) :: Calls(m.state.calls, ev.callID)
  {
    hide MakeParts, UsagePresent;
    if d.candidates != [] { PartsAdd(g, s.(started := true), d.candidates[0].parts); }
  }

  predicate Named(calls: seq<ToolCall>, es: seq<Event>) {
    forall ev | ev in es && ToolEvent(ev) :: Calls(calls, ev.callID)
  }

  predicate Silent(es: seq<Event>) {
    forall ev | ev in es :: !ToolEvent(ev)
  }

  lemma NamedMore(a: seq<ToolCall>, b: seq<ToolCall>, es: seq<Event>)
    requires Named(a, es) && a <= b
    ensures Named(b, es) && (a == [] ==> Silent(es))
  {
    forall ev | ev in es && ToolEvent(ev) ensures Calls(b, ev.callID) {
      var i :| 0 <= i < |a| && a[i].id == ev.callID;
      assert b[i].id == ev.callID;
    }
  }

  /** What holds after every prefix of a run whose documents meant `meant` and carried `parts`. */
  ghost predicate Kept(g: Settings, meant: seq<Event>, parts: seq<Part>, m: Made) {
    && m.events + m.state.pending == meant
    && (m.state.done || !Holding(g, m.state) ==> m.state.pending == [])
    && m.state.parts == parts
    && Named(m.state.calls, meant) && Parsed(g, m.state.calls)
    && (g.storing && !m.state.done ==> Silent(m.events))
    && m.state.saved == if m.state.done && Holding(g, m.state)
                        then [Turn(m.state.parts, m.state.calls, m.state.upstreamIDs)] else []
  }

  /** One document: nothing is lost or moved between what was returned, held back and newly meant. */
  lemma StepKept(g: Settings, s: State, f: Fed)
    requires Decode(g, s, f.document, f.stored).Ok? && Named(s.calls, s.pending)
    requires s.done || !Holding(g, s) ==> s.pending == []
    ensures Generate(g, s, f.document).Ok? && !s.done
    ensures var m, d := Generate(g, s, f.document).value, Decode(g, s, f.document, f.stored).value;
      && d.events + d.state.pending == s.pending + m.events
      && (d.state.done || !Holding(g, d.state) ==> d.state.pending == [])
      && d.state.parts == s.parts + PartsOf(f.document)
      && s.calls <= d.state.calls && (Parsed(g, s.calls) ==> Parsed(g, d.state.calls))
      && Named(d.state.calls, s.pending + m.events)
      && (g.storing && !d.state.done ==> Silent(d.events))
      && d.state.saved == if d.state.done && Holding(g, d.state)
                          then s.saved + [Turn(d.state.parts, d.state.calls, d.state.upstreamIDs)] else s.saved
  {
    GenerateAdds(g, s, f.document);
    var m, d := Generate(g, s, f.document).value, Decode(g, s, f.document, f.stored).value;
    hide Generate, ToolEvent, Parsed;
    NamedMore(s.calls, m.state.calls, s.pending);
    NamedMore(m.state.calls, m.state.calls, m.events);
    assert Named(m.state.calls, m.events);
  }

  lemma KeptMore(g: Settings, meant: seq<Event>, parts: seq<Part>, before: Made, f: Fed)
    requires Kept(g, meant, parts, before) && Decode(g, before.state, f.document, f.stored).Ok?
    ensures Generate(g, before.state, f.document).Ok?
    ensures var d := Decode(g, before.state, f.document, f.stored).value;
      Kept(g, meant + Generate(g, before.state, f.document).value.events, parts + PartsOf(f.document),
           Made(d.state, before.events + d.events))
  {
    hide Generate, Decode, ToolEvent, Calls, PartsOf, Parsed;
    assert Named(before.state.calls, before.state.pending);
    StepKept(g, before.state, f);
    var m, d := Generate(g, before.state, f.document).value, Decode(g, before.state, f.document, f.stored).value;
    assert (before.events + d.events) + d.state.pending == before.events + (before.state.pending + m.events);
    assert before.events + (before.state.pending + m.events) == meant + m.events;
    NamedMore(before.state.calls, d.state.calls, meant);
  }

  lemma {:induction false} RunKept(g: Settings, fed: seq<Fed>)
    requires Run(g, fed).Ok?
    ensures Kept(g, Meant(g, fed), FlatMap(FedParts, fed), Run(g, fed).value)
  {
    if fed != [] {
      var front, f := fed[..|fed| - 1], fed[|fed| - 1];
      assert fed == front + [f];
      RunKept(g, front);
      MeantMore(g, front, f);
      FlatMapMore(FedParts, front, f);
      hide Generate, Decode, Run, Meant, FlatMap, Kept;
      KeptMore(g, Meant(g, front), FlatMap(FedParts, front), Run(g, front).value, f);
    }
  }

  lemma MeantMore(g: Settings, front: seq<Fed>, f: Fed)
    requires Run(g, front + [f]).Ok?
    ensures Run(g, front).Ok? && Decode(g, Run(g, front).value.state, f.document, f.stored).Ok?
    ensures Meant(g, front + [f]) == Meant(g, front) + Generate(g, Run(g, front).value.state, f.document).value.events
    ensures Run(g, front + [f]).value
         == Made(Decode(g, Run(g, front).value.state, f.document, f.stored).value.state,
                 Run(g, front).value.events + Decode(g, Run(g, front).value.state, f.document, f.stored).value.events)
  {
    hide Generate;
    assert (front + [f])[..|front|] == front;
  }

  // ---- main results about runs ----

  /** Once the stream is done, exactly the events the documents mean were returned, in order. */
  lemma {:induction false} NothingLost(g: Settings, fed: seq<Fed>)
    requires Run(g, fed).Ok? && Run(g, fed).value.state.done
    ensures Run(g, fed).value.events == Meant(g, fed)
  {
    hide Run, Meant, Holding, Named, Silent;
    RunKept(g, fed);
    assert Run(g, fed).value.events + [] == Run(g, fed).value.events;
  }

  /** When tool turns are stored, a tool event is returned only after the one turn with its call, all
      calls and all parts of the stream was stored. */
  lemma PersistBeforeEmit(g: Settings, fed: seq<Fed>, ev: Event)
    requires Run(g, fed).Ok? && g.storing && ev in Run(g, fed).value.events && ToolEvent(ev)
    ensures var s := Run(g, fed).value.state;
      && |s.saved| == 1 && s.saved[0].parts == FlatMap(FedParts, fed)
      && s.saved[0].calls == s.calls && Calls(s.saved[0].calls, ev.callID)
  {
    hide Run, Meant, FlatMap, Calls;
    RunKept(g, fed);
    assert ev in Meant(g, fed) && Calls(Run(g, fed).value.state.calls, ev.callID);
    NamedMore(Run(g, fed).value.state.calls, Run(g, fed).value.state.calls, Meant(g, fed));
  }

  // ---- what a client hears ----

  function SaidBy(ev: Event): string {
    if ev.Text? then ev.delta else ""
  }

  function TextOf(p: Part): string {
    if p.thought then "" else p.text
  }

  /** The calls a client assembles from tool events: arguments go to the call with the event's index. */
  function Assembled(es: seq<Event>): seq<ToolCall> {
    if es == [] then []
    else
      var front := Assembled(es[..|es| - 1]);
      match es[|es| - 1]
      case ToolStart(_, id, name) => front + [ToolCall(id, name, "")]
      case ToolDelta(i, _, d) =>
        if 0 <= i < |front| then front[i := front[i].(arguments := front[i].arguments + d)] else front
      case _ => front
  }

  lemma {:induction false} AssembledQuiet(es: seq<Event>, more: seq<Event>)
    requires Silent(more)
    ensures Assembled(es + more) == Assembled(es)
  {
    if more == [] {
      assert es + more == es;
    } else {
      var front, last := more[..|more| - 1], more[|more| - 1];
      assert (es + more)[..|es + more| - 1] == es + front;
      AssembledQuiet(es, front);
      assert last in more && !ToolEvent(last);
    }
  }

  lemma AssembledCall(es: seq<Event>, i: int, id: string, name: string, d: string)
    requires i == |Assembled(es)|
    ensures Assembled(es + [ToolStart(i, id, name), ToolDelta(i, id, d), ToolEnd(i, id)])
         == Assembled(es) + [ToolCall(id, name, d)]
  {
    var a, b, c := es + [ToolStart(i, id, name)], es + [ToolStart(i, id, name), ToolDelta(i, id, d)],
      es + [ToolStart(i, id, name), ToolDelta(i, id, d), ToolEnd(i, id)];
    assert a[..|a| - 1] == es && b[..|b| - 1] == a && c[..|c| - 1] == b;
    assert "" + d == d;
    var calls := Assembled(es);
    assert Assembled(a) == calls + [ToolCall(id, name, "")];
    assert Assembled(b) == calls + [ToolCall(id, name, d)];
  }

  /** A client that heard `es` has the decoder's calls, text and upstream IDs. */
  ghost predicate Heard(s: State, es: seq<Event>) {
    && Assembled(es) == s.calls && s.toolIndex == |s.calls| == |s.upstreamIDs|
    && FlatMap(SaidBy, es) == FlatMap(TextOf, s.parts)
  }

  lemma QuietHeard(s: State, t: State, es: seq<Event>, more: seq<Event>)
    requires Heard(s, es) && Silent(more) && (forall ev | ev in more :: !ev.Text?)
    requires t.calls == s.calls && t.toolIndex == s.toolIndex && t.upstreamIDs == s.upstreamIDs && t.parts == s.parts
    ensures Heard(t, es + more)
  {
    AssembledQuiet(es, more);
    FlatMapConcat(SaidBy, es, more);
    FlatMapNone(SaidBy, more);
  }

  lemma SpokenHeard(s: State, t: State, es: seq<Event>, p: Part)
    requires Heard(s, es) && t.parts == s.parts + [p]
    requires t.calls == s.calls && t.toolIndex == s.toolIndex && t.upstreamIDs == s.upstreamIDs
    ensures Heard(t, es + Spoken(p))
  {
    AssembledQuiet(es, Spoken(p));
    FlatMapConcat(SaidBy, es, Spoken(p));
    FlatMapMore(TextOf, s.parts, p);
    if p.text != "" { FlatMapOne(SaidBy, Spoken(p)[0]); }
    assert Spoken(p) == [] ==> FlatMap(SaidBy, Spoken(p)) == "";
  }

  lemma CallHeard(g: Settings, s: State, es: seq<Event>, call: FunctionCall)
    requires Heard(s, es) && MakeCall(g, s, call).Ok?
    ensures var m := MakeCall(g, s, call).value; Heard(m.state, es + m.events)
  {
    hide FlatMap;
    var m := MakeCall(g, s, call).value;
    AssembledCall(es, s.toolIndex, m.events[0].callID, call.name, Arguments(call));
    FlatMapConcat(SaidBy, es, m.events);
    FlatMapNone(SaidBy, m.events);
    assert FlatMap(SaidBy, es) + "" == FlatMap(SaidBy, es);
  }

  lemma PartHeard(g: Settings, s: State, es: seq<Event>, p: Part)
    requires Heard(s, es) && MakePart(g, s, p).Ok?
    ensures var m := MakePart(g, s, p).value; Heard(m.state, es + m.events)
  {
    hide Heard, MakeCall, Spoken;
    var m := MakePart(g, s, p).value;
    if p.call.Some? {
      var plain := s.(signed := s.signed || p.signature != "");
      assert Heard(plain, es) by { Same(s, plain, es); }
      var marked := plain.(parts := s.parts + [p]);
      CallSame(g, plain, marked, p.call.value);
      var c := MakeCall(g, plain, p.call.value).value;
      CallHeard(g, plain, es, p.call.value);
      SpokenHeard(c.state, m.state, es + c.events, p);
      assert (es + c.events) + Spoken(p) == es + m.events;
    } else {
      SpokenHeard(s, m.state, es, p);
    }
  }

  lemma Same(s: State, t: State, es: seq<Event>)
    requires Heard(s, es) && t == s.(started := t.started, signed := t.signed, done := t.done)
    ensures Heard(t, es)
  {
  }

  /** Making a call does not look at the parts. */
  lemma CallSame(g: Settings, s: State, t: State, call: FunctionCall)
    requires t == s.(parts := t.parts)
    ensures MakeCall(g, t, call) == match MakeCall(g, s, call)
      case Err => Err case Ok(m) => Ok(Made(m.state.(parts := t.parts), m.events))
    ensures MakeCall(g, s, call).Ok? ==> MakeCall(g, s, call).value.state.parts == s.parts
  {
  }

  lemma MakePartsMore(g: Settings, s: State, ps: seq<Part>) returns (front: Made, last: Made)
    requires ps != [] && MakeParts(g, s, ps).Ok?
    ensures MakeParts(g, s, ps[..|ps| - 1]) == Ok(front) && MakePart(g, front.state, ps[|ps| - 1]) == Ok(last)
    ensures MakeParts(g, s, ps) == Ok(Made(last.state, front.events + last.events))
  {
    hide MakePart;
    front := MakeParts(g, s, ps[..|ps| - 1]).value;
    last := MakePart(g, front.state, ps[|ps| - 1]).value;
  }

  lemma HeardOn(g: Settings, es: seq<Event>, front: Made, p: Part, last: Made, whole: Made)
    requires Heard(front.state, es + front.events) && MakePart(g, front.state, p) == Ok(last)
    requires whole == Made(last.state, front.events + last.events)
    ensures Heard(whole.state, es + whole.events)
  {
    hide *;
    PartHeard(g, front.state, es + front.events, p);
    assert (es + front.events) + last.events == es + (front.events + last.events);
  }

  lemma PartsHeardMore(g: Settings, s: State, es: seq<Event>, ps: seq<Part>)
    requires ps != [] && MakeParts(g, s, ps).Ok?
    requires MakeParts(g, s, ps[..|ps| - 1]).Ok? ==>
      Heard(MakeParts(g, s, ps[..|ps| - 1]).value.state, es + MakeParts(g, s, ps[..|ps| - 1]).value.events)
    ensures Heard(MakeParts(g, s, ps).value.state, es + MakeParts(g, s, ps).value.events)
  {
    var front, last := MakePartsMore(g, s, ps);
    hide *;
    HeardOn(g, es, front, ps[|ps| - 1], last, MakeParts(g, s, ps).value);
  }

  lemma {:induction false} PartsHeard(g: Settings, s: State, es: seq<Event>, ps: seq<Part>)
    requires Heard(s, es) && MakeParts(g, s, ps).Ok?
    ensures Heard(MakeParts(g, s, ps).value.state, es + MakeParts(g, s, ps).value.events)
  {
    hide Heard, MakePart;
    if ps == [] {
      assert es + [] == es;
    } else {
      PartsHeard(g, s, es, ps[..|ps| - 1]);
      PartsHeardMore(g, s, es, ps);
    }
  }

  lemma CandidateHeard(g: Settings, s: State, es: seq<Event>, c: Candidate)
    requires Heard(s, es) && MakeCandidate(g, s, c).Ok?
    ensures var m := MakeCandidate(g, s, c).value; Heard(m.state, es + m.events)
  {
    hide Heard, MakeParts;
    var ps := MakeParts(g, s, c.parts).value;
    PartsHeard(g, s, es, c.parts);
    var f := MakeFinish(ps.state, c.finish).value;
    QuietHeard(ps.state, f.state, es + ps.events, f.events);
    assert (es + ps.events) + f.events == es + (ps.events + f.events);
  }

  lemma GenerateHeard(g: Settings, s: State, es: seq<Event>, d: Document)
    requires Heard(s, es) && Generate(g, s, d).Ok?
    ensures var m := Generate(g, s, d).value; Heard(m.state, es + m.events)
  {
    hide Heard, MakeCandidate, UsagePresent;
    var m, begun := Generate(g, s, d).value, s.(started := true);
    var opening := if s.started then [] else [Start];
    var made := if d.candidates == [] then Made(begun, []) else MakeCandidate(g, begun, d.candidates[0]).value;
    QuietHeard(s, begun, es, opening);
    if d.candidates == [] {
      assert (es + opening) + made.events == es + opening;
    } else {
      CandidateHeard(g, begun, es + opening, d.candidates[0]);
    }
    var usage := if d.usagePresent && UsagePresent(d.usage.value) then [UsageSeen(d.usage.value)] else [];
    var rest := usage + if made.state.done then [Done] else [];
    QuietHeard(made.state, m.state, es + opening + made.events, rest);
    assert (es + opening + made.events) + rest == es + m.events;
  }

  lemma {:induction false} RunHeard(g: Settings, fed: seq<Fed>)
    requires Run(g, fed).Ok?
    ensures Heard(Run(g, fed).value.state, Meant(g, fed))
  {
    if fed != [] {
      var front, f := fed[..|fed| - 1], fed[|fed| - 1];
      assert fed == front + [f];
      RunHeard(g, front);
      MeantMore(g, front, f);
      hide Run, Meant, Generate, Heard;
      var s := Run(g, front).value.state;
      GenerateHeard(g, s, Meant(g, front), f.document);
      assert Run(g, fed).value.state == Generate(g, s, f.document).value.state.(pending := Run(g, fed).value.state.pending, saved := Run(g, fed).value.state.saved);
      Unheld(Generate(g, s, f.document).value.state, Run(g, fed).value.state, Meant(g, fed));
    }
  }

  lemma Unheld(s: State, t: State, es: seq<Event>)
    requires Heard(s, es) && t == s.(pending := t.pending, saved := t.saved)
    ensures Heard(t, es)
  {
  }

  /** The document that ends the stream reports the stop reason: a full budget, tool calls, or a plain stop. */
  lemma FinishReported(g: Settings, s: State, d: Document)
    requires Generate(g, s, d).Ok? && Generate(g, s, d).value.state.done
    ensures var m := Generate(g, s, d).value;
      && d.candidates != []
      && StopOf(m.events) == (if d.candidates[0].finish == "MAX_TOKENS" then "length"
                              else if m.state.toolIndex > 0 then "tool_calls" else "stop")
      && m.events[|m.events| - 1] == Done
  {
    hide MakeParts, UsagePresent, StopOf;
    var m, begun := Generate(g, s, d).value, s.(started := true);
    var opening := if s.started then [] else [Start];
    if d.candidates != [] { PartsAdd(g, begun, d.candidates[0].parts); }
    var ps := MakeParts(g, begun, d.candidates[0].parts).value;
    var f := MakeFinish(ps.state, d.candidates[0].finish).value;
    var rest := (if d.usagePresent && UsagePresent(d.usage.value) then [UsageSeen(d.usage.value)] else []) + [Done];
    assert m.events == ((opening + ps.events) + f.events) + rest;
    StopConcat((opening + ps.events) + f.events, rest);
    StopConcat(opening + ps.events, f.events);
    OneStop(f.events[0]);
    assert f.events == [f.events[0]] && f.events[0] in f.events;
  }

  lemma OneStop(ev: Event)
    requires ev.Finish?
    ensures StopOf([ev]) == ev.stop
  {
  }

  // ---- the decoder object ----

  class Decoder {
    const settings: Settings
    var started: bool
    var done: bool
    var toolIndex: nat
    var signedThought: bool
    var parts: seq<Part>
    var calls: seq<ToolCall>
    var upstreamIDs: seq<string>
    var pending: seq<Event>
    var saved: seq<Turn>
    var minted: nat

    ghost function Memory(): State
      reads this
    {
      State(started, done, toolIndex, signedThought, parts, calls, upstreamIDs, pending, saved, minted)
    }

    constructor (settings: Settings)
      ensures this.settings == settings && Memory() == FRESH
    {
      this.settings := settings;
      started, done, toolIndex, signedThought := false, false, 0, false;
      parts, calls, upstreamIDs, pending, saved, minted := [], [], [], [], [], 0;
    }

    method DecodeCall(call: FunctionCall) returns (r: Result<seq<Event>>)
      modifies `toolIndex, `calls, `upstreamIDs, `minted
      ensures match MakeCall(settings, old(Memory()), call)
        case Err => r.Err?
        case Ok(m) => r == Ok(m.events) && Memory() == m.state
    {
      if (signedThought && !settings.storing) || call.name == "" { return Err; }
      var args := if call.args == "" || call.args == "null" then "{}" else call.args;
      var value := settings.parse(args);
      if value == None || !value.value.Obj? { return Err; }
      var id := call.id;
      if id == "" {
        id := settings.mint(minted);
      } else if !settings.validID(id) {
        return Err;
      }
      upstreamIDs := upstreamIDs + [call.id];
      if settings.storing { id := settings.mint(minted); }
      minted := minted + 1;
      calls := calls + [ToolCall(id, call.name, args)];
      r := Ok([ToolStart(toolIndex, id, call.name), ToolDelta(toolIndex, id, args), ToolEnd(toolIndex, id)]);
      toolIndex := toolIndex + 1;
    }

    method DecodePart(p: Part) returns (r: Result<seq<Event>>)
      modifies `parts, `signedThought, `toolIndex, `calls, `upstreamIDs, `minted
      ensures match MakePart(settings, old(Memory()), p)
        case Err => r.Err?
        case Ok(m) => r == Ok(m.events) && Memory() == m.state
    {
      hide MakeCall;
      parts := parts + [p];
      if p.signature != "" {
        if toolIndex > 0 && !settings.storing { return Err; }
        signedThought := true;
      }
      var events := [];
      if p.call.Some? {
        var called := DecodeCall(p.call.value);
        if called.Err? { return Err; }
        events := called.value;
      }
      ghost var made := events;
      if p.text != "" {
        events := events + [if p.thought then Reasoning(0, p.text) else Text(0, p.text)];
      }
      assert events == made + Spoken(p) && Spoken(p) == [] + Spoken(p);
      r := Ok(events);
    }

    method DecodeParts(ps: seq<Part>) returns (r: Result<seq<Event>>)
      modifies `parts, `signedThought, `toolIndex, `calls, `upstreamIDs, `minted
      ensures match MakeParts(settings, old(Memory()), ps)
        case Err => r.Err?
        case Ok(m) => r == Ok(m.events) && Memory() == m.state
    {
      hide MakePart;
      var events := [];
      assert ps[..0] == [];
      for i := 0 to |ps|
        invariant MakeParts(settings, old(Memory()), ps[..i]) == Ok(Made(Memory(), events))
      {
        assert ps[..i + 1][..i] == ps[..i];
        var more := DecodePart(ps[i]);
        if more.Err? {
          PartsSpoiled(settings, old(Memory()), ps, i + 1);
          return Err;
        }
        events := events + more.value;
      }
      assert ps[..|ps|] == ps;
      r := Ok(events);
    }

    method DecodeCandidate(c: Candidate) returns (r: Result<seq<Event>>)
      modifies this
      ensures match MakeCandidate(settings, old(Memory()), c)
        case Err => r.Err?
        case Ok(m) => r == Ok(m.events) && Memory() == m.state
    {
      hide MakeParts;
      if c.index != 0 { return Err; }
      r := DecodeParts(c.parts);
      if r.Err? || c.finish == "" {
        assert r.Ok? ==> r.value + [] == r.value;
        return;
      }
      var stop := "stop";
      if c.finish == "MAX_TOKENS" {
        stop := "length";
      } else if c.finish != "STOP" {
        return Err;
      }
      if toolIndex > 0 && stop == "stop" { stop := "tool_calls"; }
      done := true;
      r := Ok(r.value + [Finish(stop)]);
    }

    method DecodeDocument(d: Document) returns (r: Result<seq<Event>>)
      modifies this
      ensures match Generate(settings, old(Memory()), d)
        case Err => r.Err?
        case Ok(m) => r == Ok(m.events) && Memory() == m.state
    {
      hide MakeCandidate;
      if done || d.Fault? || |d.candidates| > 1 { return Err; }
      var events := [];
      if !started {
        started := true;
        events := [Start];
      }
      if d.candidates == [] && !d.usagePresent { return Err; }
      ghost var lead, made := events, [];
      if d.candidates != [] {
        var more := DecodeCandidate(d.candidates[0]);
        if more.Err? { return Err; }
        events := events + more.value;
        made := more.value;
      }
      if d.usage.Err? { return Err; }
      if d.usagePresent && UsagePresent(d.usage.value) { events := events + [UsageSeen(d.usage.value)]; }
      if done { events := events + [Done]; }
      ghost var begun := old(Memory()).(started := true);
      assert d.candidates == [] ==> Memory() == begun && made == [];
      assert d.candidates != [] ==> MakeCandidate(settings, begun, d.candidates[0]) == Ok(Made(Memory(), made));
      assert events == lead + made + (if d.usagePresent && UsagePresent(d.usage.value) then [UsageSeen(d.usage.value)] else [])
        + if done then [Done] else [];
      r := Ok(events);
    }

    /** One document; `stored` is how saving the turn ends, if it comes to that. */
    method DecodeStored(d: Document, stored: bool) returns (r: Result<seq<Event>>)
      modifies this
      ensures match Decode(settings, old(Memory()), d, stored)
        case Err => r.Err?
        case Ok(m) => r == Ok(m.events) && Memory() == m.state
    {
      hide Generate;
      r := DecodeDocument(d);
      if r.Err? || calls == [] || !settings.storing { return; }
      if done {
        if !stored { return Err; }
        saved := saved + [Turn(parts, calls, upstreamIDs)];
      }
      pending := pending + r.value;
      if !done { return Ok([]); }
      r := Ok(pending);
      pending := [];
    }
  }

  lemma {:induction false} PartsSpoiled(g: Settings, s: State, ps: seq<Part>, n: nat)
    requires n <= |ps| && MakeParts(g, s, ps[..n]).Err?
    ensures MakeParts(g, s, ps).Err?
  {
    hide MakePart;
    if n < |ps| {
      assert ps[..|ps| - 1][..n] == ps[..n];
      PartsSpoiled(g, s, ps[..|ps| - 1], n);
    } else {
      assert ps[..n] == ps;
    }
  }
}

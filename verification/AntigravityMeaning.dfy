/** What an Antigravity stream means, said about its documents alone, and that the decoder's events mean
    exactly that. */
module AntigravityMeaning {
  import opened Wrappers
  import opened Sequences
  import opened StreamTypes
  import opened Antigravity

  /** What the events mean; call IDs are left to the stored turn. */
  datatype Sense =
    | Begun
    | Says(text: string)
    | Thinks(text: string)
    | Opens(index: int, name: string)
    | Hands(index: int, arguments: string)
    | Closes(index: int)
    | Stops(reason: string)
    | Counts(usage: Usage)
    | Over

  function SenseOf(e: Event): seq<Sense> {
    match e
    case Start => [Begun]
    case Text(_, d) => [Says(d)]
    case Reasoning(_, d) => [Thinks(d)]
    case ToolStart(i, _, name) => [Opens(i, name)]
    case ToolDelta(i, _, d) => [Hands(i, d)]
    case ToolEnd(i, _) => [Closes(i)]
    case Finish(reason) => [Stops(reason)]
    case UsageSeen(u) => [Sense.Counts(u)]
    case Done => [Over]
  }

  function CallNumber(parts: seq<Part>): nat {
    if parts == [] then 0 else CallNumber(parts[..|parts| - 1]) + if parts[|parts| - 1].call.Some? then 1 else 0
  }

  /** A part, after the parts before it: its call first, whole and numbered on, then its text or thought. */
  function PartSenses(before: seq<Part>, p: Part): seq<Sense> {
    (match p.call
     case None => []
     case Some(call) =>
       var n := CallNumber(before);
       [Opens(n, call.name), Hands(n, if call.args == "" || call.args == "null" then "{}" else call.args), Closes(n)])
    + (if p.text == "" then [] else if p.thought then [Thinks(p.text)] else [Says(p.text)])
  }

  function PartsSenses(before: seq<Part>, ps: seq<Part>): seq<Sense> {
    if ps == [] then []
    else PartsSenses(before, ps[..|ps| - 1]) + PartSenses(before + ps[..|ps| - 1], ps[|ps| - 1])
  }

  function FinishOf(d: Document): string {
    if d.Fault? || d.candidates == [] then "" else d.candidates[0].finish
  }

  /** A document after the ones before it, with the parts they carried. */
  function DocumentSenses(first: bool, before: seq<Part>, d: Document): seq<Sense> {
    (if first then [Begun] else [])
    + PartsSenses(before, PartsOf(d))
    + (if FinishOf(d) == "" then []
       else [Stops(if FinishOf(d) == "MAX_TOKENS" then "length" else if CallNumber(before + PartsOf(d)) > 0 then "tool_calls" else "stop")])
    + (if d.Document? && d.usagePresent && d.usage.Ok? && d.usage.value != NO_USAGE then [Sense.Counts(d.usage.value)] else [])
    + (if FinishOf(d) == "" then [] else [Over])
  }

  function Senses(fed: seq<Fed>): seq<Sense> {
    if fed == [] then []
    else
      var front := fed[..|fed| - 1];
      Senses(front) + DocumentSenses(front == [], FlatMap(FedParts, front), fed[|fed| - 1].document)
  }

  // ---- the decoder means the same ----

  /** The call counter stands at the number of calls in the parts. */
  predicate Numbered(s: State) {
    s.toolIndex == CallNumber(s.parts)
  }

  lemma {:induction false} FewSenses(es: seq<Event>)
    requires |es| <= 3
    ensures FlatMap(SenseOf, es) == (if |es| > 0 then SenseOf(es[0]) else []) + (if |es| > 1 then SenseOf(es[1]) else [])
                                    + (if |es| > 2 then SenseOf(es[2]) else [])
  {
    hide SenseOf;
    if es != [] { FewSenses(es[..|es| - 1]); }
  }

  /** What the decoder makes of parts. */
  ghost predicate Reads(s: State, m: Made, ps: seq<Part>, senses: seq<Sense>) {
    && m.state.parts == s.parts + ps && Numbered(m.state) && m.state.started == s.started && m.state.done == s.done
    && FlatMap(SenseOf, m.events) == senses
  }

  function SpokenSenses(p: Part): seq<Sense> {
    if p.text == "" then [] else if p.thought then [Thinks(p.text)] else [Says(p.text)]
  }

  lemma SpokenMeans(p: Part)
    ensures FlatMap(SenseOf, Spoken(p)) == SpokenSenses(p)
  {
    FewSenses(Spoken(p));
    hide FlatMap;
  }

  lemma CallMeans(g: Settings, s: State, call: FunctionCall)
    requires MakeCall(g, s, call).Ok?
    ensures var m := MakeCall(g, s, call).value;
      && m.state.parts == s.parts && m.state.toolIndex == s.toolIndex + 1 && m.state.started == s.started && m.state.done == s.done
      && FlatMap(SenseOf, m.events)
         == [Opens(s.toolIndex, call.name), Hands(s.toolIndex, if call.args == "" || call.args == "null" then "{}" else call.args), Closes(s.toolIndex)]
  {
    FewSenses(MakeCall(g, s, call).value.events);
    hide FlatMap;
  }

  lemma NumberedMore(s: State, p: Part)
    ensures CallNumber(s.parts + [p]) == CallNumber(s.parts) + if p.call.Some? then 1 else 0
  {
    assert (s.parts + [p])[..|s.parts|] == s.parts;
  }

  lemma PartMeans(g: Settings, s: State, p: Part)
    requires Numbered(s) && MakePart(g, s, p).Ok?
    ensures Reads(s, MakePart(g, s, p).value, [p], PartSenses(s.parts, p))
  {
    NumberedMore(s, p);
    SpokenMeans(p);
    hide FlatMap, MakeCall, CallNumber, Spoken;
    if p.call.Some? {
      var marked := s.(parts := s.parts + [p], signed := s.signed || p.signature != "");
      var made := MakeCall(g, marked, p.call.value).value;
      CallMeans(g, marked, p.call.value);
      FlatMapConcat(SenseOf, made.events, Spoken(p));
    }
  }

  lemma ReadsMore(s: State, front: Made, ps: seq<Part>, x: seq<Sense>, last: Made, p: Part, y: seq<Sense>)
    requires Reads(s, front, ps, x) && Reads(front.state, last, [p], y)
    ensures Reads(s, Made(last.state, front.events + last.events), ps + [p], x + y)
  {
    hide FlatMap, Numbered;
    FlatMapConcat(SenseOf, front.events, last.events);
    assert s.parts + ps + [p] == s.parts + (ps + [p]);
  }

  lemma ReadsParts(s: State, m: Made, ps: seq<Part>, senses: seq<Sense>)
    requires Reads(s, m, ps, senses)
    ensures Numbered(m.state) && m.state.parts == s.parts + ps
  {
    hide Numbered, FlatMap;
  }

  lemma ReadsOn(g: Settings, s: State, front: Made, most: seq<Part>, x: seq<Sense>, p: Part, last: Made)
    requires Reads(s, front, most, x) && MakePart(g, front.state, p) == Ok(last)
    ensures Reads(s, Made(last.state, front.events + last.events), most + [p], x + PartSenses(s.parts + most, p))
  {
    ReadsParts(s, front, most, x);
    hide *;
    PartMeans(g, front.state, p);
    ReadsMore(s, front, most, x, last, p, PartSenses(front.state.parts, p));
  }

  lemma SensesLast(before: seq<Part>, ps: seq<Part>)
    requires ps != []
    ensures PartsSenses(before, ps) == PartsSenses(before, ps[..|ps| - 1]) + PartSenses(before + ps[..|ps| - 1], ps[|ps| - 1])
    ensures ps == ps[..|ps| - 1] + [ps[|ps| - 1]]
  {
  }

  lemma PartsMeanMore(g: Settings, s: State, ps: seq<Part>)
    requires ps != [] && MakeParts(g, s, ps).Ok?
    requires MakeParts(g, s, ps[..|ps| - 1]).Ok? ==>
      Reads(s, MakeParts(g, s, ps[..|ps| - 1]).value, ps[..|ps| - 1], PartsSenses(s.parts, ps[..|ps| - 1]))
    ensures Reads(s, MakeParts(g, s, ps).value, ps, PartsSenses(s.parts, ps))
  {
    hide *;
    var front, last := MakePartsMore(g, s, ps);
    SensesLast(s.parts, ps);
    ReadsOn(g, s, front, ps[..|ps| - 1], PartsSenses(s.parts, ps[..|ps| - 1]), ps[|ps| - 1], last);
  }

  lemma {:induction false} PartsMean(g: Settings, s: State, ps: seq<Part>)
    requires Numbered(s) && MakeParts(g, s, ps).Ok?
    ensures Reads(s, MakeParts(g, s, ps).value, ps, PartsSenses(s.parts, ps))
  {
    if ps == [] {
      assert s.parts + [] == s.parts;
    } else {
      var front, last := MakePartsMore(g, s, ps);
      PartsMean(g, s, ps[..|ps| - 1]);
      hide *;
      PartsMeanMore(g, s, ps);
    }
  }

  lemma Edge(es: seq<Event>)
    requires |es| <= 1
    ensures FlatMap(SenseOf, es) == if es == [] then [] else SenseOf(es[0])
  {
    FewSenses(es);
    hide FlatMap, SenseOf;
  }

  /** The decoder's events of one document. */
  lemma DocumentMeans(g: Settings, s: State, d: Document)
    requires Numbered(s) && Generate(g, s, d).Ok?
    ensures var m := Generate(g, s, d).value;
      && m.state.parts == s.parts + PartsOf(d) && Numbered(m.state) && m.state.started
      && FlatMap(SenseOf, m.events) == DocumentSenses(!s.started, s.parts, d)
  {
    var p := DocumentParts(g, s, d);
    var opening, finish, usage, closing := DocumentEvents(g, s, d, p);
    hide FlatMap, Generate, PartsSenses, CallNumber, SenseOf;
    Joined5(opening, p.events, finish, usage, closing);
    Edge(opening);
    Edge(finish);
    Edge(usage);
    Edge(closing);
    EdgesAre(s, d, opening, finish, usage, closing);
  }

  lemma EdgesAre(s: State, d: Document, opening: seq<Event>, finish: seq<Event>, usage: seq<Event>, closing: seq<Event>)
    requires opening == if s.started then [] else [Start]
    requires finish == if FinishOf(d) == "" then []
      else [Finish(if FinishOf(d) == "MAX_TOKENS" then "length" else if CallNumber(s.parts + PartsOf(d)) > 0 then "tool_calls" else "stop")]
    requires d.Document? && (d.usagePresent ==> d.usage.Ok?)
    requires usage == if d.usagePresent && UsagePresent(d.usage.value) then [UsageSeen(d.usage.value)] else []
    requires closing == if FinishOf(d) == "" then [] else [Done]
    ensures DocumentSenses(!s.started, s.parts, d)
         == (if opening == [] then [] else SenseOf(opening[0])) + PartsSenses(s.parts, PartsOf(d))
            + (if finish == [] then [] else SenseOf(finish[0])) + (if usage == [] then [] else SenseOf(usage[0]))
            + (if closing == [] then [] else SenseOf(closing[0]))
  {
    hide PartsSenses, CallNumber;
  }

  /** What the decoder makes of the parts of a document. */
  lemma DocumentParts(g: Settings, s: State, d: Document) returns (p: Made)
    requires Numbered(s) && Generate(g, s, d).Ok?
    ensures p.state.parts == s.parts + PartsOf(d) && Numbered(p.state) && p.state.started && p.state.done == s.done
    ensures FlatMap(SenseOf, p.events) == PartsSenses(s.parts, PartsOf(d))
    ensures if d.candidates == [] then p == Made(s.(started := true), []) else MakeParts(g, s.(started := true), PartsOf(d)) == Ok(p)
  {
    var begun := s.(started := true);
    assert s.parts + [] == s.parts;
    hide MakeParts;
    if d.candidates == [] {
      p := Made(begun, []);
    } else {
      p := MakeParts(g, begun, PartsOf(d)).value;
      PartsMean(g, begun, PartsOf(d));
    }
  }

  lemma Joined5(a: seq<Event>, b: seq<Event>, c: seq<Event>, d: seq<Event>, e: seq<Event>)
    ensures FlatMap(SenseOf, a + b + c + d + e)
         == FlatMap(SenseOf, a) + FlatMap(SenseOf, b) + FlatMap(SenseOf, c) + FlatMap(SenseOf, d) + FlatMap(SenseOf, e)
  {
    hide FlatMap;
    FlatMapConcat(SenseOf, a + b + c + d, e);
    FlatMapConcat(SenseOf, a + b + c, d);
    FlatMapConcat(SenseOf, a + b, c);
    FlatMapConcat(SenseOf, a, b);
  }

  /** The events of a document: an opening, those of its parts, and its end. */
  lemma DocumentEvents(g: Settings, s: State, d: Document, p: Made)
      returns (opening: seq<Event>, finish: seq<Event>, usage: seq<Event>, closing: seq<Event>)
    requires Generate(g, s, d).Ok? && p.state.parts == s.parts + PartsOf(d) && Numbered(p.state) && p.state.started && p.state.done == s.done
    requires if d.candidates == [] then p == Made(s.(started := true), []) else MakeParts(g, s.(started := true), PartsOf(d)) == Ok(p)
    ensures var m := Generate(g, s, d).value;
      && m.state.parts == p.state.parts && Numbered(m.state) && m.state.started
      && m.events == opening + p.events + finish + usage + closing
    ensures d.Document? && (d.usagePresent ==> d.usage.Ok?)
    ensures opening == if s.started then [] else [Start]
    ensures finish == if FinishOf(d) == "" then []
      else [Finish(if FinishOf(d) == "MAX_TOKENS" then "length" else if CallNumber(s.parts + PartsOf(d)) > 0 then "tool_calls" else "stop")]
    ensures usage == if d.usagePresent && UsagePresent(d.usage.value) then [UsageSeen(d.usage.value)] else []
    ensures closing == if FinishOf(d) == "" then [] else [Done]
  {
    hide MakeParts, CallNumber;
    opening := if s.started then [] else [Start];
    finish := if FinishOf(d) == "" then [] else MakeFinish(p.state, FinishOf(d)).value.events;
    usage := if d.usagePresent && UsagePresent(d.usage.value) then [UsageSeen(d.usage.value)] else [];
    closing := if FinishOf(d) == "" then [] else [Done];
    assert opening + (p.events + finish) == opening + p.events + finish;
  }

  lemma DecodeKeeps(g: Settings, s: State, f: Fed)
    requires Decode(g, s, f.document, f.stored).Ok?
    ensures Generate(g, s, f.document).Ok?
    ensures var m, t := Generate(g, s, f.document).value.state, Decode(g, s, f.document, f.stored).value.state;
      t == m.(pending := t.pending, saved := t.saved)
  {
    hide Generate;
  }

  /** Main result: over every run the events of the documents mean what the documents carry, in order:
      each part's call, numbered on, then its text or thought; the end with its reason; the usage. */
  lemma {:induction false} RunMeans(g: Settings, fed: seq<Fed>)
    requires Run(g, fed).Ok?
    ensures FlatMap(SenseOf, Meant(g, fed)) == Senses(fed)
    ensures Numbered(Run(g, fed).value.state) && Run(g, fed).value.state.parts == FlatMap(FedParts, fed)
    ensures Run(g, fed).value.state.started == (fed != [])
  {
    if fed != [] {
      var front, f := fed[..|fed| - 1], fed[|fed| - 1];
      assert fed == front + [f];
      RunMeans(g, front);
      MeantMore(g, front, f);
      var s := Run(g, front).value.state;
      DecodeKeeps(g, s, f);
      DocumentMeans(g, s, f.document);
      FlatMapConcat(SenseOf, Meant(g, front), Generate(g, s, f.document).value.events);
      hide Run, Meant, Generate, Decode, DocumentSenses, CallNumber, SenseOf;
    }
  }

  /** So do the events a finished run has returned. */
  lemma ReturnedMeans(g: Settings, fed: seq<Fed>)
    requires Run(g, fed).Ok? && Run(g, fed).value.state.done
    ensures FlatMap(SenseOf, Run(g, fed).value.events) == Senses(fed)
  {
    hide Run, Meant, Senses;
    NothingLost(g, fed);
    RunMeans(g, fed);
  }

  // ---- which streams are accepted ----

  predicate Signs(parts: seq<Part>) {
    exists p :: p in parts && p.signature != ""
  }

  predicate HasCall(parts: seq<Part>) {
    exists p :: p in parts && p.call.Some?
  }

  /** A call has a name, a JSON object as arguments, and an ID that can be sent back, or none. */
  predicate CallFits(g: Settings, call: FunctionCall) {
    var args := if call.args == "" || call.args == "null" then "{}" else call.args;
    call.name != "" && g.parse(args).Some? && g.parse(args).value.Obj? && (call.id == "" || g.validID(call.id))
  }

  predicate PartFits(g: Settings, p: Part) {
    p.call.Some? ==> CallFits(g, p.call.value)
  }

  /** Without a store for turns, calls and signatures cannot stand in one stream. */
  predicate Unsigned(g: Settings, parts: seq<Part>) {
    g.storing || !Signs(parts) || !HasCall(parts)
  }

  predicate PartsFit(g: Settings, before: seq<Part>, ps: seq<Part>) {
    (forall p | p in ps :: PartFits(g, p)) && Unsigned(g, before + ps)
  }

  /** A document that is accepted after the parts before it. */
  predicate DocumentFits(g: Settings, before: seq<Part>, d: Document) {
    && d.Document? && |d.candidates| <= 1 && (d.candidates == [] ==> d.usagePresent) && d.usage.Ok?
    && (d.candidates != [] ==> d.candidates[0].index == 0 && FinishOf(d) in {"", "STOP", "MAX_TOKENS"} && PartsFit(g, before, PartsOf(d)))
  }

  /** The stream fits at `k`: it has not ended before, the document fits, and a turn with calls that ends
      here could be stored. */
  predicate FitsAt(g: Settings, fed: seq<Fed>, k: nat)
    requires k < |fed|
  {
    var before, d := FlatMap(FedParts, fed[..k]), fed[k].document;
    && (k > 0 ==> FinishOf(fed[k - 1].document) == "") && DocumentFits(g, before, d)
    && (g.storing && HasCall(before + PartsOf(d)) && FinishOf(d) != "" ==> fed[k].stored)
  }

  /** What the decoder remembers of the parts. */
  predicate Remembers(s: State) {
    (s.signed <==> Signs(s.parts)) && (s.toolIndex > 0 <==> HasCall(s.parts)) && |s.calls| == s.toolIndex
  }

  lemma SignsMore(parts: seq<Part>, p: Part)
    ensures Signs(parts + [p]) <==> Signs(parts) || p.signature != ""
    ensures HasCall(parts + [p]) <==> HasCall(parts) || p.call.Some?
  {
    if Signs(parts) { var q :| q in parts && q.signature != ""; assert q in parts + [p]; }
    if HasCall(parts) { var q :| q in parts && q.call.Some?; assert q in parts + [p]; }
    assert p in parts + [p];
  }

  lemma PartAccepted(g: Settings, s: State, p: Part)
    requires Remembers(s) && Unsigned(g, s.parts)
    ensures MakePart(g, s, p).Ok? <==> PartFits(g, p) && Unsigned(g, s.parts + [p])
    ensures MakePart(g, s, p).Ok? ==> Remembers(MakePart(g, s, p).value.state) && MakePart(g, s, p).value.state.parts == s.parts + [p]
  {
    SignsMore(s.parts, p);
    hide Signs, HasCall;
  }

  lemma UnsignedFront(g: Settings, a: seq<Part>, b: seq<Part>)
    ensures Unsigned(g, a + b) ==> Unsigned(g, a)
  {
    if Signs(a) && HasCall(a) {
      var p :| p in a && p.signature != "";
      var q :| q in a && q.call.Some?;
      assert p in a + b && q in a + b;
    }
  }

  lemma {:induction false} PartsAccepted(g: Settings, s: State, ps: seq<Part>)
    requires Remembers(s) && Unsigned(g, s.parts)
    ensures MakeParts(g, s, ps).Ok? <==> PartsFit(g, s.parts, ps)
    ensures MakeParts(g, s, ps).Ok? ==> Remembers(MakeParts(g, s, ps).value.state) && MakeParts(g, s, ps).value.state.parts == s.parts + ps
  {
    hide MakePart, PartFits, Remembers, Signs, HasCall, Unsigned;
    if ps == [] {
      assert s.parts + [] == s.parts;
    } else {
      var front, p := ps[..|ps| - 1], ps[|ps| - 1];
      assert ps == front + [p] && s.parts + front + [p] == s.parts + ps;
      PartsAccepted(g, s, front);
      UnsignedFront(g, s.parts + front, [p]);
      if MakeParts(g, s, front).Ok? { PartAccepted(g, MakeParts(g, s, front).value.state, p); }
    }
  }

  lemma DocumentAccepted(g: Settings, s: State, d: Document)
    requires Remembers(s) && Unsigned(g, s.parts)
    ensures Generate(g, s, d).Ok? <==> !s.done && DocumentFits(g, s.parts, d)
    ensures Generate(g, s, d).Ok? ==>
      var t := Generate(g, s, d).value.state;
      Remembers(t) && t.parts == s.parts + PartsOf(d) && Unsigned(g, t.parts) && (t.done <==> FinishOf(d) != "")
  {
    var begun := s.(started := true);
    assert s.parts + [] == s.parts;
    PartsAccepted(g, begun, PartsOf(d));
    if MakeParts(g, begun, PartsOf(d)).Ok? { PartsAdd(g, begun, PartsOf(d)); }
    hide MakeParts, PartFits, Signs, HasCall;
  }

  /** Main result: the decoder accepts a stream exactly if every document fits where it stands. */
  lemma {:induction false} RunAccepted(g: Settings, fed: seq<Fed>)
    ensures Run(g, fed).Ok? <==> forall k | 0 <= k < |fed| :: FitsAt(g, fed, k)
    ensures Run(g, fed).Ok? ==>
      var s := Run(g, fed).value.state;
      && Remembers(s) && s.parts == FlatMap(FedParts, fed) && Unsigned(g, s.parts)
      && (s.done <==> fed != [] && FinishOf(fed[|fed| - 1].document) != "")
  {
    if fed != [] {
      var front, f := fed[..|fed| - 1], fed[|fed| - 1];
      assert fed == front + [f];
      RunAccepted(g, front);
      FitsFront(g, front, f);
      FlatMapMore(FedParts, front, f);
      if Run(g, front).Ok? {
        var s := Run(g, front).value.state;
        DocumentAccepted(g, s, f.document);
        DecodeAccepted(g, s, f);
      }
      hide FitsAt, Decode, DocumentFits, Remembers, Unsigned, FlatMap;
    } else {
      hide FlatMap;
    }
  }

  /** Decoding a document that fits fails only if its turn could not be stored. */
  lemma DecodeAccepted(g: Settings, s: State, f: Fed)
    ensures Decode(g, s, f.document, f.stored).Ok? <==>
      Generate(g, s, f.document).Ok?
      && var t := Generate(g, s, f.document).value.state; (g.storing && t.calls != [] && t.done ==> f.stored)
    ensures Decode(g, s, f.document, f.stored).Ok? ==>
      var m, t := Generate(g, s, f.document).value.state, Decode(g, s, f.document, f.stored).value.state;
      t == m.(pending := t.pending, saved := t.saved)
  {
    hide Generate;
  }

  lemma FitsFront(g: Settings, front: seq<Fed>, f: Fed)
    ensures (forall k | 0 <= k < |front + [f]| :: FitsAt(g, front + [f], k)) <==>
      (forall k | 0 <= k < |front| :: FitsAt(g, front, k)) && FitsAt(g, front + [f], |front|)
  {
    var fed := front + [f];
    forall k | 0 <= k < |front| ensures FitsAt(g, fed, k) == FitsAt(g, front, k) {
      assert fed[..k] == front[..k];
    }
    hide FitsAt;
  }
}

/** What an upstream stream means, said about its frames and their order alone, and that the decoders
    report exactly that. */
module StreamMeaning {
  import opened Wrappers
  import opened Sequences
  import opened Ordering
  import opened StreamTypes
  import opened StreamDecoding

  // ---- usage: each counter is the one reported last ----

  function UsagesIn(f: Frame): seq<Usage> {
    match f
    case C(Chunk(_, u)) => [u]
    case M(MessageStart(u)) => [u]
    case M(MessageDelta(_, u)) => [u]
    case R(ResponsesFrame(_, Completed(_, _, _, u))) => [u]
    case _ => []
  }

  function Latest(pick: Usage -> Option<int>, us: seq<Usage>): Option<int> {
    if us == [] then None
    else if pick(us[|us| - 1]).Some? then pick(us[|us| - 1])
    else Latest(pick, us[..|us| - 1])
  }

  /** The counters reported last, each on its own. */
  function LatestUsage(us: seq<Usage>): Usage {
    Usage(Latest((u: Usage) => u.input, us), Latest((u: Usage) => u.cacheRead, us), Latest((u: Usage) => u.cacheWrite, us),
          Latest((u: Usage) => u.output, us), Latest((u: Usage) => u.reasoning, us), Latest((u: Usage) => u.total, us))
  }

  lemma LatestMore(us: seq<Usage>, u: Usage)
    ensures LatestUsage(us + [u]) == MergeUsage(LatestUsage(us), u)
  {
    assert (us + [u])[..|us|] == us;
  }

  lemma LatestNone()
    ensures LatestUsage([]) == NO_USAGE
  {
  }

  predicate Silent(es: seq<Event>) {
    forall e | e in es :: !e.UsageSeen?
  }

  lemma {:induction false} SilentUsage(es: seq<Event>)
    requires Silent(es)
    ensures UsageOf(es) == NO_USAGE
  {
    if es != [] { SilentUsage(es[..|es| - 1]); }
  }

  lemma MergeNone(u: Usage)
    ensures MergeUsage(u, NO_USAGE) == u && MergeUsage(NO_USAGE, u) == u
  {
  }

  /** Events without usage, then the usage of the frame, then perhaps done. */
  lemma SilentReported(es: seq<Event>, u: Usage)
    requires Silent(es)
    ensures UsageOf(es + Reported(u)) == u && UsageOf(es + Reported(u) + [Done]) == u
  {
    SilentUsage(es);
    SilentUsage([Done]);
    MergeNone(u);
    UsageConcat(es, Reported(u));
    UsageConcat(es + Reported(u), [Done]);
    assert u != NO_USAGE ==> [UsageSeen(u)][..0] == [];
    hide MergeUsage;
  }

  lemma {:induction false} ToolsSilent(d: Dec, ps: seq<ToolPiece>)
    ensures Silent(ChatTools(d, ps).events)
  {
    if ps != [] {
      ToolsSilent(d, ps[..|ps| - 1]);
      ToolSilent(ChatTools(d, ps[..|ps| - 1]).dec, ps[|ps| - 1]);
      hide ChatTool;
    }
  }

  lemma ToolSilent(d: Dec, p: ToolPiece)
    ensures Silent(ChatTool(d, p).events)
  {
  }

  lemma ChoiceSilent(d: Dec, c: Choice)
    ensures Silent(ChatChoice(d, c).events)
  {
    ToolsSilent(d, c.tools);
    hide ChatTools, NormalizeChatStop;
  }

  lemma {:induction false} ChoicesSilent(d: Dec, cs: seq<Choice>)
    ensures Silent(ChatChoices(d, cs).events)
  {
    if cs != [] {
      ChoicesSilent(d, cs[..|cs| - 1]);
      ChoiceSilent(ChatChoices(d, cs[..|cs| - 1]).dec, cs[|cs| - 1]);
      hide ChatChoice;
    }
  }

  /** The usage a frame carries, none if it carries none. */
  function UsageIn(f: Frame): Usage {
    if UsagesIn(f) == [] then NO_USAGE else UsagesIn(f)[0]
  }

  /** One frame reports the counters it carries. */
  lemma FrameUsage(d: Dec, f: Frame)
    requires Decode(d, f).Ok?
    ensures UsageOf(Decode(d, f).value.events) == UsageIn(f)
  {
    var es := Decode(d, f).value.events;
    match f
    case C(Chunk(choices, u)) =>
      ChoicesSilent(d.(started := true), choices);
      SilentReported((if d.started then [] else [Start]) + ChatChoices(d.(started := true), choices).events, u);
    case C(DoneMarker) => SilentUsage(es);
    case M(MessageStart(u)) => SilentReported([Start], u);
    case M(MessageDelta(stop, u)) => SilentReported([Finish(NormalizeMessagesStop(stop))], u);
    case M(_) => SilentUsage(es);
    case R(ResponsesFrame(_, Completed(status, reason, output, u))) => SilentReported([es[0]], u);
    case R(_) => SilentUsage(es);
  }

  function UsagesBy(e: Event): seq<Usage> {
    if e.UsageSeen? then [e.usage] else []
  }

  /** The usage of a sequence of events is what its reports said last, counter by counter. */
  lemma {:induction false} UsageHeard(es: seq<Event>)
    ensures UsageOf(es) == LatestUsage(FlatMap(UsagesBy, es))
  {
    LatestNone();
    if es != [] {
      UsageHeard(es[..|es| - 1]);
      LatestJoined(FlatMap(UsagesBy, es[..|es| - 1]), UsagesBy(es[|es| - 1]));
      MergeNone(UsageOf(es[..|es| - 1]));
      hide MergeUsage, LatestUsage;
    }
  }

  /** Main result: every decodable stream reports, counter by counter, what its frames reported last. */
  lemma {:induction false} UsageMeans(frames: seq<Frame>)
    requires DecodeAll(FRESH, frames).Ok?
    ensures UsageOf(DecodeAll(FRESH, frames).value.events) == LatestUsage(FlatMap(UsagesIn, frames))
  {
    LatestNone();
    if frames != [] {
      var front, last := frames[..|frames| - 1], frames[|frames| - 1];
      var x := DecodeAll(FRESH, front).value;
      UsageMeans(front);
      FrameUsage(x.dec, last);
      UsageConcat(x.events, Decode(x.dec, last).value.events);
      LatestJoined(FlatMap(UsagesIn, front), UsagesIn(last));
    }
  }

  lemma LatestJoined(us: seq<Usage>, more: seq<Usage>)
    requires |more| <= 1
    ensures LatestUsage(us + more) == MergeUsage(LatestUsage(us), if more == [] then NO_USAGE else more[0])
  {
    if more == [] {
      assert us + more == us;
      MergeNone(LatestUsage(us));
    } else {
      LatestMore(us, more[0]);
      assert more == [more[0]];
    }
    hide MergeUsage, LatestUsage;
  }

  // ---- text and thoughts: what the frames carry, one after the other ----

  function Worth(t: Option<string>): string {
    if t.Some? then t.value else ""
  }

  function ChoiceText(c: Choice): string {
    Worth(c.content)
  }

  function ChoiceThought(c: Choice): string {
    Worth(c.reasoning)
  }

  function TextIn(f: Frame): string {
    match f
    case C(Chunk(choices, _)) => FlatMap(ChoiceText, choices)
    case M(BlockStart(_, TextBlock(t))) => t
    case M(BlockDelta(_, TextChange(t))) => t
    case R(ResponsesFrame(_, TextDelta(_, t))) => t
    case _ => ""
  }

  function ThoughtIn(f: Frame): string {
    match f
    case C(Chunk(choices, _)) => FlatMap(ChoiceThought, choices)
    case M(BlockStart(_, ThinkingBlock(t))) => t
    case M(BlockDelta(_, ThinkingChange(t))) => t
    case R(ResponsesFrame(_, SummaryDelta(_, t))) => t
    case _ => ""
  }

  function TextBy(e: Event): string {
    if e.Text? then e.delta else ""
  }

  function ThoughtBy(e: Event): string {
    if e.Reasoning? then e.delta else ""
  }

  /** The events say `text` and think `thought`. */
  ghost predicate Says(es: seq<Event>, text: string, thought: string) {
    FlatMap(TextBy, es) == text && FlatMap(ThoughtBy, es) == thought
  }

  lemma SaysBoth(a: seq<Event>, t: string, u: string, b: seq<Event>, v: string, w: string)
    requires Says(a, t, u) && Says(b, v, w)
    ensures Says(a + b, t + v, u + w)
  {
    FlatMapConcat(TextBy, a, b);
    FlatMapConcat(ThoughtBy, a, b);
  }

  lemma SaysOne(e: Event)
    ensures Says([e], TextBy(e), ThoughtBy(e))
  {
    FlatMapOne(TextBy, e);
    FlatMapOne(ThoughtBy, e);
  }

  lemma SaysNothing(es: seq<Event>)
    requires forall e | e in es :: !e.Text? && !e.Reasoning?
    ensures Says(es, "", "")
  {
    FlatMapNone(TextBy, es);
    FlatMapNone(ThoughtBy, es);
  }

  lemma ToolSays(d: Dec, p: ToolPiece)
    ensures Says(ChatTool(d, p).events, "", "")
  {
    SaysNothing(ChatTool(d, p).events);
  }

  lemma {:induction false} ToolsSay(d: Dec, ps: seq<ToolPiece>)
    ensures Says(ChatTools(d, ps).events, "", "")
  {
    if ps == [] {
      SaysNothing([]);
    } else {
      var front := ChatTools(d, ps[..|ps| - 1]);
      ToolsSay(d, ps[..|ps| - 1]);
      ToolSays(front.dec, ps[|ps| - 1]);
      SaysBoth(front.events, "", "", ChatTool(front.dec, ps[|ps| - 1]).events, "", "");
      hide ChatTool, Says;
    }
  }

  lemma FinishSays(d: Dec, reason: string)
    ensures Says(ChatFinish(d, reason).events, "", "")
  {
    SaysNothing(ChatFinish(d, reason).events);
  }

  lemma SpokenSays(c: Choice)
    ensures Says(if c.reasoning.Some? && c.reasoning.value != "" then [Reasoning(0, c.reasoning.value)] else [], "", ChoiceThought(c))
    ensures Says(if c.content.Some? && c.content.value != "" then [Text(0, c.content.value)] else [], ChoiceText(c), "")
  {
    SaysNothing([]);
    SaysOne(Reasoning(0, ChoiceThought(c)));
    SaysOne(Text(0, ChoiceText(c)));
  }

  lemma ChoiceSays(d: Dec, c: Choice)
    ensures Says(ChatChoice(d, c).events, ChoiceText(c), ChoiceThought(c))
  {
    var t := ChatTools(d, c.tools);
    var f := if c.finish.Some? then ChatFinish(t.dec, c.finish.value) else Decoded(t.dec, []);
    ToolsSay(d, c.tools);
    if c.finish.Some? { FinishSays(t.dec, c.finish.value); } else { SaysNothing([]); }
    SpokenSays(c);
    hide Says, ChatTools, ChatFinish, ChoiceText, ChoiceThought;
    SaysFour(if c.reasoning.Some? && c.reasoning.value != "" then [Reasoning(0, c.reasoning.value)] else [], ChoiceThought(c),
             if c.content.Some? && c.content.value != "" then [Text(0, c.content.value)] else [], ChoiceText(c), t.events, f.events);
  }

  lemma SaysFour(thought: seq<Event>, y: string, said: seq<Event>, x: string, tools: seq<Event>, end: seq<Event>)
    requires Says(thought, "", y) && Says(said, x, "") && Says(tools, "", "") && Says(end, "", "")
    ensures Says(thought + said + tools + end, x, y)
  {
    hide Says;
    SaysBoth(thought, "", y, said, x, "");
    SaysBoth(thought + said, "" + x, y + "", tools, "", "");
    SaysBoth(thought + said + tools, "" + x + "", y + "" + "", end, "", "");
    assert "" + x + "" + "" == x && y + "" + "" + "" == y;
  }

  lemma {:induction false} ChoicesSay(d: Dec, cs: seq<Choice>)
    ensures Says(ChatChoices(d, cs).events, FlatMap(ChoiceText, cs), FlatMap(ChoiceThought, cs))
  {
    if cs == [] {
      SaysNothing([]);
    } else {
      var front, last := ChatChoices(d, cs[..|cs| - 1]), cs[|cs| - 1];
      ChoicesSay(d, cs[..|cs| - 1]);
      ChoiceSays(front.dec, last);
      SaysBoth(front.events, FlatMap(ChoiceText, cs[..|cs| - 1]), FlatMap(ChoiceThought, cs[..|cs| - 1]),
               ChatChoice(front.dec, last).events, ChoiceText(last), ChoiceThought(last));
      hide ChatChoice, Says;
    }
  }

  lemma ChunkSays(d: Dec, choices: seq<Choice>, u: Usage)
    ensures Says(DecodeChat(d, Chunk(choices, u)).events, FlatMap(ChoiceText, choices), FlatMap(ChoiceThought, choices))
  {
    var start := if d.started then [] else [Start];
    var es := ChatChoices(d.(started := true), choices).events;
    ChoicesSay(d.(started := true), choices);
    SaysNothing(start);
    SaysNothing(Reported(u));
    hide Says, ChatChoices, FlatMap, Reported;
    SaysBetween(start, es, FlatMap(ChoiceText, choices), FlatMap(ChoiceThought, choices), Reported(u));
  }

  lemma SaysBetween(a: seq<Event>, es: seq<Event>, text: string, thought: string, b: seq<Event>)
    requires Says(a, "", "") && Says(es, text, thought) && Says(b, "", "")
    ensures Says(a + es + b, text, thought)
  {
    hide Says;
    SaysBoth(a, "", "", es, text, thought);
    assert "" + text == text && "" + thought == thought;
    SaysBoth(a + es, text, thought, b, "", "");
    assert text + "" == text && thought + "" == thought;
  }

  lemma MessagesSay(d: Dec, f: MessagesFrame)
    requires DecodeMessages(d, f).Ok?
    ensures Says(DecodeMessages(d, f).value.events, TextIn(M(f)), ThoughtIn(M(f)))
  {
    hide Says;
    var es := DecodeMessages(d, f).value.events;
    if |es| == 1 && (es[0].Text? || es[0].Reasoning?) {
      SaysOne(es[0]);
    } else {
      SaysNothing(es);
    }
  }

  lemma ResponsesSay(d: Dec, f: ResponsesFrame)
    requires DecodeResponses(d, f.body).Ok?
    ensures Says(DecodeResponses(d, f.body).value.events, TextIn(R(f)), ThoughtIn(R(f)))
  {
    hide Says;
    var es := DecodeResponses(d, f.body).value.events;
    if |es| == 1 && (es[0].Text? || es[0].Reasoning?) {
      SaysOne(es[0]);
    } else {
      SaysNothing(es);
    }
  }

  lemma FrameSays(d: Dec, f: Frame)
    requires Decode(d, f).Ok?
    ensures Says(Decode(d, f).value.events, TextIn(f), ThoughtIn(f))
  {
    match f
    case C(Chunk(choices, u)) => ChunkSays(d, choices, u);
    case C(DoneMarker) => SaysNothing([Done]);
    case M(m) => MessagesSay(d, m);
    case R(r) => ResponsesSay(d, r);
    hide Says, DecodeMessages, DecodeResponses;
  }

  /** Main result: every decodable stream says and thinks exactly what its frames carry, in their order. */
  lemma {:induction false} ProseMeans(frames: seq<Frame>)
    requires DecodeAll(FRESH, frames).Ok?
    ensures FlatMap(TextBy, DecodeAll(FRESH, frames).value.events) == FlatMap(TextIn, frames)
    ensures FlatMap(ThoughtBy, DecodeAll(FRESH, frames).value.events) == FlatMap(ThoughtIn, frames)
  {
    if frames != [] {
      var front, last := frames[..|frames| - 1], frames[|frames| - 1];
      var x := DecodeAll(FRESH, front).value;
      ProseMeans(front);
      FrameSays(x.dec, last);
      SaysBoth(x.events, FlatMap(TextIn, front), FlatMap(ThoughtIn, front), Decode(x.dec, last).value.events, TextIn(last), ThoughtIn(last));
      hide Decode, TextIn, ThoughtIn;
    }
  }

  // ---- everything in order: what a frame means after the frames before it ----

  /** What the events of a stream mean; empty deltas mean nothing. */
  datatype Sense =
    | Began
    | Voiced(text: string)
    | Pondered(text: string)
    | CallOpened(index: int, callID: string, name: string)
    | CallFed(index: int, callID: string, arguments: string)
    | CallClosed(index: int, callID: string)
    | Stopped(reason: string)
    | Counted(usage: Usage)
    | Over

  function SenseOf(e: Event): seq<Sense> {
    match e
    case Start => [Began]
    case Text(_, d) => if d == "" then [] else [Voiced(d)]
    case Reasoning(_, d) => if d == "" then [] else [Pondered(d)]
    case ToolStart(i, id, name) => [CallOpened(i, id, name)]
    case ToolDelta(i, id, d) => if d == "" then [] else [CallFed(i, id, d)]
    case ToolEnd(i, id) => [CallClosed(i, id)]
    case Finish(reason) => [Stopped(reason)]
    case UsageSeen(u) => [Counted(u)]
    case Done => [Over]
  }

  function Spoken(text: string): seq<Sense> {
    if text == "" then [] else [Voiced(text)]
  }

  function Mused(text: string): seq<Sense> {
    if text == "" then [] else [Pondered(text)]
  }

  function Handed(index: int, id: string, arguments: string): seq<Sense> {
    if arguments == "" then [] else [CallFed(index, id, arguments)]
  }

  /** The stop reasons clients know: out of budget, or tools to call, or simply done. */
  function Reason(budget: bool, tools: bool): string {
    if budget then "length" else if tools then "tool_calls" else "stop"
  }

  function Counts(u: Usage): seq<Sense> {
    if u == NO_USAGE then [] else [Counted(u)]
  }

  // Chat streams, as the fields of their choices in order.
  datatype Sign = Idea(text: string) | Word(text: string) | Tool(piece: ToolPiece) | End(reason: string)

  function ToolSign(p: ToolPiece): seq<Sign> {
    [Tool(p)]
  }

  function ChoiceSigns(c: Choice): seq<Sign> {
    (if c.reasoning.Some? then [Idea(c.reasoning.value)] else [])
    + (if c.content.Some? then [Word(c.content.value)] else [])
    + FlatMap(ToolSign, c.tools)
    + (if c.finish.Some? then [End(c.finish.value)] else [])
  }

  function SignsIn(f: Frame): seq<Sign> {
    match f
    case C(Chunk(choices, _)) => FlatMap(ChoiceSigns, choices)
    case _ => []
  }

  /** The tools that were begun and not ended by a finish reason. */
  function OpenTools(signs: seq<Sign>): set<int> {
    if signs == [] then {}
    else match signs[|signs| - 1]
      case End(_) => {}
      case Tool(p) => OpenTools(signs[..|signs| - 1]) + {p.index}
      case _ => OpenTools(signs[..|signs| - 1])
  }

  /** The call ID of an open tool: that of the piece that began it, or one made up from its index. */
  function ToolID(signs: seq<Sign>, i: int): string {
    if signs == [] then ""
    else
      var front, last := signs[..|signs| - 1], signs[|signs| - 1];
      if last.Tool? && last.piece.index == i && i !in OpenTools(front) then
        if last.piece.id == "" then "call_" + Decimal.Text(i) else last.piece.id
      else ToolID(front, i)
  }

  function EndSenses(signs: seq<Sign>, order: seq<int>): seq<Sense> {
    seq(|order|, j requires 0 <= j < |order| => CallClosed(order[j], ToolID(signs, order[j])))
  }

  ghost function SignSenses(before: seq<Sign>, s: Sign): seq<Sense> {
    match s
    case Idea(t) => Mused(t)
    case Word(t) => Spoken(t)
    case Tool(p) =>
      var id := ToolID(before + [s], p.index);
      (if p.index in OpenTools(before) then [] else [CallOpened(p.index, id, p.name)]) + Handed(p.index, id, p.arguments)
    case End(reason) =>
      EndSenses(before, Sorted(OpenTools(before)))
      + [Stopped(Reason(reason == "length", reason == "tool_calls" || reason == "function_call"))]
  }

  ghost function SensesAfter(before: seq<Sign>, signs: seq<Sign>): seq<Sense> {
    if signs == [] then []
    else SensesAfter(before, signs[..|signs| - 1]) + SignSenses(before + signs[..|signs| - 1], signs[|signs| - 1])
  }

  // Messages and Responses streams.

  /** The block started at an index and not stopped since. */
  function StandingBlock(frames: seq<Frame>, n: int): Option<Block> {
    if frames == [] then None
    else match frames[|frames| - 1]
      case M(BlockStart(k, b)) => if k == n then Some(b) else StandingBlock(frames[..|frames| - 1], n)
      case M(BlockStop(k)) => if k == n then None else StandingBlock(frames[..|frames| - 1], n)
      case _ => StandingBlock(frames[..|frames| - 1], n)
  }

  function BlockID(frames: seq<Frame>, n: int): string {
    match StandingBlock(frames, n)
    case Some(ToolUseBlock(id, _, _)) => id
    case _ => ""
  }

  /** The call ID of the call last added at an output index. */
  function ItemID(frames: seq<Frame>, n: int): Option<string> {
    if frames == [] then None
    else match frames[|frames| - 1]
      case R(ResponsesFrame(_, ItemAdded(k, CallItem(_, id, _, _)))) =>
        if k == n then Some(id) else ItemID(frames[..|frames| - 1], n)
      case _ => ItemID(frames[..|frames| - 1], n)
  }

  predicate Begins(f: Frame) {
    match f
    case C(Chunk(_, _)) => true
    case M(MessageStart(_)) => true
    case R(ResponsesFrame(_, body)) => body.Created? || body.InProgress?
    case _ => false
  }

  predicate Begun(frames: seq<Frame>) {
    frames != [] && (Begins(frames[|frames| - 1]) || Begun(frames[..|frames| - 1]))
  }

  predicate Calls(f: Frame) {
    match f
    case C(_) => exists s :: s in SignsIn(f) && s.Tool?
    case M(BlockStart(_, ToolUseBlock(_, _, _))) => true
    case R(ResponsesFrame(_, ItemAdded(_, CallItem(_, _, _, _)))) => true
    case _ => false
  }

  predicate Called(frames: seq<Frame>) {
    frames != [] && (Calls(frames[|frames| - 1]) || Called(frames[..|frames| - 1]))
  }

  /** What a frame means after the frames before it. */
  ghost function FrameSenses(before: seq<Frame>, f: Frame): seq<Sense> {
    match f
    case C(DoneMarker) => [Over]
    case C(Chunk(_, u)) =>
      (if Begun(before) then [] else [Began]) + SensesAfter(FlatMap(SignsIn, before), SignsIn(f)) + Counts(u)
    case M(MessageStart(u)) => [Began] + Counts(u)
    case M(BlockStart(_, TextBlock(t))) => Spoken(t)
    case M(BlockStart(_, ThinkingBlock(t))) => Mused(t)
    case M(BlockStart(n, ToolUseBlock(id, name, input))) =>
      [CallOpened(n, id, name)] + if input == "{}" then [] else Handed(n, id, input)
    case M(BlockDelta(_, TextChange(t))) => Spoken(t)
    case M(BlockDelta(_, ThinkingChange(t))) => Mused(t)
    case M(BlockDelta(n, InputChange(j))) => Handed(n, BlockID(before, n), j)
    case M(BlockStop(n)) =>
      if StandingBlock(before, n).Some? && StandingBlock(before, n).value.ToolUseBlock? then [CallClosed(n, BlockID(before, n))] else []
    case M(MessageDelta(stop, u)) => [Stopped(Reason(stop == "max_tokens", stop == "tool_use"))] + Counts(u)
    case M(MessageStop) => [Over]
    case M(_) => []
    case R(ResponsesFrame(_, body)) => BodySenses(before, body)
  }

  function BodySenses(before: seq<Frame>, body: ResponsesBody): seq<Sense> {
    match body
    case Created => if Begun(before) then [] else [Began]
    case InProgress => if Begun(before) then [] else [Began]
    case ItemAdded(n, CallItem(_, id, name, arguments)) => [CallOpened(n, id, name)] + Handed(n, id, arguments)
    case TextDelta(_, t) => Spoken(t)
    case SummaryDelta(_, t) => Mused(t)
    case ArgsDelta(n, t) => Handed(n, Worth(ItemID(before, n)), t)
    case ItemDone(n, CallItem(_, id, _, _)) => [CallClosed(n, if id != "" then id else Worth(ItemID(before, n)))]
    case Completed(status, reason, _, u) =>
      [Stopped(Reason(status == "incomplete" && reason == "max_output_tokens", Called(before)))] + Counts(u) + [Over]
    case _ => []
  }

  ghost function Senses(frames: seq<Frame>): seq<Sense> {
    if frames == [] then []
    else Senses(frames[..|frames| - 1]) + FrameSenses(frames[..|frames| - 1], frames[|frames| - 1])
  }

  /** A frame the gateway understands at its place: no error, no unknown block or change, and thinking and
      its signature only for a thinking block that is open. */
  predicate Understood(before: seq<Frame>, f: Frame) {
    match f
    case M(MessagesFault) => false
    case M(BlockStart(_, OtherBlock)) => false
    case M(BlockDelta(_, OtherChange)) => false
    case M(BlockDelta(n, ThinkingChange(_))) => StandingBlock(before, n).Some? && StandingBlock(before, n).value.ThinkingBlock?
    case M(BlockDelta(n, SignatureChange)) => StandingBlock(before, n).Some? && StandingBlock(before, n).value.ThinkingBlock?
    case R(ResponsesFrame(_, ResponsesFault)) => false
    case _ => true
  }

  // ---- the decoder's memory says the same ----

  predicate KeepsTools(d: Dec, signs: seq<Sign>) {
    && d.chatTools.Keys == OpenTools(signs) && (d.chatTools != map[] ==> d.hadTools)
    && forall i | i in d.chatTools :: d.chatTools[i] == ToolID(signs, i)
  }

  predicate SameBlock(o: OpenBlock, b: Block) {
    match b
    case TextBlock(_) => o == OpenBlock(TextKind, "")
    case ThinkingBlock(_) => o == OpenBlock(ThinkingKind, "")
    case RedactedBlock => o == OpenBlock(RedactedKind, "")
    case ToolUseBlock(id, _, _) => o == OpenBlock(ToolKind, id)
    case OtherBlock => false
  }

  ghost predicate KeepsBlocks(d: Dec, frames: seq<Frame>) {
    forall n :: StandsAt(d.blocks, n, StandingBlock(frames, n))
  }

  ghost predicate KeepsItems(d: Dec, frames: seq<Frame>) {
    forall n :: ItemID(frames, n) == if n in d.responseTools then Some(d.responseTools[n]) else None
  }

  ghost predicate Keeps(d: Dec, frames: seq<Frame>) {
    && d.started == Begun(frames) && d.hadTools == Called(frames)
    && KeepsTools(d, FlatMap(SignsIn, frames)) && KeepsBlocks(d, frames) && KeepsItems(d, frames)
  }

  // ---- Chat ----

  predicate HasTool(signs: seq<Sign>) {
    exists s :: s in signs && s.Tool?
  }

  /** Decoding these fields reports what they mean and keeps the open tools. */
  ghost predicate ChatMeans(d: Dec, before: seq<Sign>, signs: seq<Sign>, r: Decoded) {
    && KeepsTools(r.dec, before + signs)
    && FlatMap(SenseOf, r.events) == SensesAfter(before, signs)
    && r.dec == d.(chatTools := r.dec.chatTools, hadTools := d.hadTools || HasTool(signs))
  }

  lemma {:induction false} SensesJoined(before: seq<Sign>, a: seq<Sign>, b: seq<Sign>)
    ensures SensesAfter(before, a + b) == SensesAfter(before, a) + SensesAfter(before + a, b)
  {
    hide SignSenses;
    if b == [] {
      assert a + b == a;
    } else {
      var front, last := b[..|b| - 1], b[|b| - 1];
      SensesJoined(before, a, front);
      SensesLast(before, a + b);
      SensesLast(before + a, b);
      assert (a + b)[..|a + b| - 1] == a + front && before + (a + front) == before + a + front;
      hide SensesAfter;
    }
  }

  lemma SensesLast(before: seq<Sign>, signs: seq<Sign>)
    requires signs != []
    ensures SensesAfter(before, signs)
         == SensesAfter(before, signs[..|signs| - 1]) + SignSenses(before + signs[..|signs| - 1], signs[|signs| - 1])
  {
  }

  lemma SensesOfOne(before: seq<Sign>, s: Sign)
    ensures SensesAfter(before, [s]) == SignSenses(before, s)
  {
    assert [s][..0] == [] && before + [] == before;
    hide SignSenses;
  }

  lemma ChatBoth(d: Dec, before: seq<Sign>, a: seq<Sign>, x: Decoded, b: seq<Sign>, y: Decoded)
    requires ChatMeans(d, before, a, x) && ChatMeans(x.dec, before + a, b, y)
    ensures ChatMeans(d, before, a + b, Decoded(y.dec, x.events + y.events))
  {
    hide KeepsTools, SensesAfter, FlatMap, HasTool;
    assert before + (a + b) == before + a + b;
    SensesJoined(before, a, b);
    FlatMapConcat(SenseOf, x.events, y.events);
    ToolsJoined(a, b);
  }

  lemma ToolsJoined(a: seq<Sign>, b: seq<Sign>)
    ensures HasTool(a + b) <==> HasTool(a) || HasTool(b)
  {
  }

  lemma ChatNothing(d: Dec, before: seq<Sign>)
    requires KeepsTools(d, before)
    ensures ChatMeans(d, before, [], Decoded(d, []))
  {
    assert before + [] == before;
  }

  lemma ToolMeans(d: Dec, before: seq<Sign>, p: ToolPiece)
    requires KeepsTools(d, before)
    ensures ChatMeans(d, before, [Tool(p)], ChatTool(d, p))
  {
    SensesOfOne(before, Tool(p));
    ToolKeeps(d, before, p);
    ToolSenses(d, before, p);
    assert Tool(p) in [Tool(p)];
    hide KeepsTools, SensesAfter, FlatMap, SignSenses;
  }

  lemma ToolSenses(d: Dec, before: seq<Sign>, p: ToolPiece)
    requires KeepsTools(d, before)
    ensures FlatMap(SenseOf, ChatTool(d, p).events) == SignSenses(before, Tool(p))
  {
    ToolKeeps(d, before, p);
    assert p.index in d.chatTools <==> p.index in OpenTools(before);
    hide KeepsTools, OpenTools, ToolID, FlatMap, ChatTool;
    var id := ToolID(before + [Tool(p)], p.index);
    TwoSenses(if p.index in d.chatTools then [] else [ToolStart(p.index, id, p.name)],
              if p.arguments == "" then [] else [ToolDelta(p.index, id, p.arguments)]);
  }

  lemma ToolKeeps(d: Dec, before: seq<Sign>, p: ToolPiece)
    requires KeepsTools(d, before)
    ensures KeepsTools(ChatTool(d, p).dec, before + [Tool(p)])
    ensures var id := ToolID(before + [Tool(p)], p.index);
      ChatTool(d, p).events == (if p.index in d.chatTools then [] else [ToolStart(p.index, id, p.name)])
                               + (if p.arguments == "" then [] else [ToolDelta(p.index, id, p.arguments)])
  {
    assert (before + [Tool(p)])[..|before|] == before;
  }

  lemma TwoSenses(a: seq<Event>, b: seq<Event>)
    requires |a| <= 1 && |b| <= 1
    ensures FlatMap(SenseOf, a + b) == (if a == [] then [] else SenseOf(a[0])) + (if b == [] then [] else SenseOf(b[0]))
  {
    FlatMapConcat(SenseOf, a, b);
    if a != [] { assert a == [a[0]]; FlatMapOne(SenseOf, a[0]); }
    if b != [] { assert b == [b[0]]; FlatMapOne(SenseOf, b[0]); }
    hide SenseOf;
  }

  lemma {:induction false} ToolsMean(d: Dec, before: seq<Sign>, ps: seq<ToolPiece>)
    requires KeepsTools(d, before)
    ensures ChatMeans(d, before, FlatMap(ToolSign, ps), ChatTools(d, ps))
  {
    if ps == [] {
      ChatNothing(d, before);
    } else {
      var front, last := ps[..|ps| - 1], ps[|ps| - 1];
      ToolsMean(d, before, front);
      var x := ChatTools(d, front);
      ToolMeans(x.dec, before + FlatMap(ToolSign, front), last);
      ChatBoth(d, before, FlatMap(ToolSign, front), x, [Tool(last)], ChatTool(x.dec, last));
      hide ChatTool, KeepsTools;
    }
  }

  lemma {:induction false} EndsMean(tools: map<int, string>, order: seq<int>, before: seq<Sign>)
    requires forall j | 0 <= j < |order| :: order[j] in tools && tools[order[j]] == ToolID(before, order[j])
    ensures FlatMap(SenseOf, ChatEnds(tools, order)) == EndSenses(before, order)
    decreases |order|
  {
    hide ToolID;
    if order != [] {
      var front, last := order[..|order| - 1], order[|order| - 1];
      EndsMean(tools, front, before);
      assert ChatEnds(tools, order) == ChatEnds(tools, front) + [ToolEnd(last, tools[last])];
      FlatMapMore(SenseOf, ChatEnds(tools, front), ToolEnd(last, tools[last]));
      assert EndSenses(before, order) == EndSenses(before, front) + [CallClosed(last, ToolID(before, last))];
    }
  }

  lemma FinishMeans(d: Dec, before: seq<Sign>, reason: string)
    requires KeepsTools(d, before)
    ensures ChatMeans(d, before, [End(reason)], ChatFinish(d, reason))
  {
    FinishKeeps(d, before, reason);
    SensesOfOne(before, End(reason));
    FinishSenses(d, before, reason);
    assert !HasTool([End(reason)]);
    hide KeepsTools, SensesAfter, FlatMap, SignSenses, ChatEnds;
  }

  lemma FinishSenses(d: Dec, before: seq<Sign>, reason: string)
    requires KeepsTools(d, before)
    ensures FlatMap(SenseOf, ChatFinish(d, reason).events) == SignSenses(before, End(reason))
  {
    var order := Sorted(d.chatTools.Keys);
    SortedAscending(d.chatTools.Keys);
    EndsMean(d.chatTools, order, before);
    hide FlatMap, EndSenses, OpenTools, Sorted, ToolID;
    FlatMapMore(SenseOf, ChatEnds(d.chatTools, order), Finish(NormalizeChatStop(reason)));
  }

  lemma FinishKeeps(d: Dec, before: seq<Sign>, reason: string)
    requires KeepsTools(d, before)
    ensures KeepsTools(ChatFinish(d, reason).dec, before + [End(reason)])
  {
    assert (before + [End(reason)])[..|before|] == before;
  }

  lemma WordMeans(d: Dec, before: seq<Sign>, s: Sign, es: seq<Event>)
    requires KeepsTools(d, before) && (s.Idea? || s.Word?)
    requires es == if s.text == "" then [] else [if s.Idea? then Reasoning(0, s.text) else Text(0, s.text)]
    ensures ChatMeans(d, before, [s], Decoded(d, es))
  {
    assert (before + [s])[..|before|] == before;
    SensesOfOne(before, s);
    TwoSenses(es, []);
    assert es + [] == es;
  }

  lemma ChoiceMeans(d: Dec, before: seq<Sign>, c: Choice)
    requires KeepsTools(d, before)
    ensures ChatMeans(d, before, ChoiceSigns(c), ChatChoice(d, c))
  {
    var x := Decoded(d, if c.reasoning.Some? && c.reasoning.value != "" then [Reasoning(0, c.reasoning.value)] else []);
    var y := Decoded(d, if c.content.Some? && c.content.value != "" then [Text(0, c.content.value)] else []);
    var a := if c.reasoning.Some? then [Idea(c.reasoning.value)] else [];
    var b := if c.content.Some? then [Word(c.content.value)] else [];
    var e := if c.finish.Some? then [End(c.finish.value)] else [];
    var t := ChatTools(d, c.tools);
    var f := if c.finish.Some? then ChatFinish(t.dec, c.finish.value) else Decoded(t.dec, []);
    ChatNothing(d, before);
    if a != [] { WordMeans(d, before, a[0], x.events); }
    ChatNothingAfter(d, before, a, x);
    if b != [] { WordMeans(d, before + a, b[0], y.events); }
    ChatBoth(d, before, a, x, b, y);
    ChatNothingAfter(d, before, a + b, Decoded(d, x.events + y.events));
    ToolsMean(d, before + (a + b), c.tools);
    ChatBoth(d, before, a + b, Decoded(d, x.events + y.events), FlatMap(ToolSign, c.tools), t);
    var sofar := a + b + FlatMap(ToolSign, c.tools);
    ChatNothingAfter(d, before, sofar, Decoded(t.dec, x.events + y.events + t.events));
    if e != [] { FinishMeans(t.dec, before + sofar, c.finish.value); }
    ChatBoth(d, before, sofar, Decoded(t.dec, x.events + y.events + t.events), e, f);
    hide ChatMeans, KeepsTools, ChatTools, ChatFinish;
  }

  /** Nothing more to decode after these fields. */
  lemma ChatNothingAfter(d: Dec, before: seq<Sign>, signs: seq<Sign>, r: Decoded)
    requires ChatMeans(d, before, signs, r)
    ensures KeepsTools(r.dec, before + signs) && ChatMeans(r.dec, before + signs, [], Decoded(r.dec, []))
  {
    ChatNothing(r.dec, before + signs);
  }

  lemma {:induction false} ChoicesMean(d: Dec, before: seq<Sign>, cs: seq<Choice>)
    requires KeepsTools(d, before)
    ensures ChatMeans(d, before, FlatMap(ChoiceSigns, cs), ChatChoices(d, cs))
  {
    if cs == [] {
      ChatNothing(d, before);
    } else {
      var front, last := cs[..|cs| - 1], cs[|cs| - 1];
      ChoicesMean(d, before, front);
      var x := ChatChoices(d, front);
      ChoiceMeans(x.dec, before + FlatMap(ChoiceSigns, front), last);
      ChatBoth(d, before, FlatMap(ChoiceSigns, front), x, ChoiceSigns(last), ChatChoice(x.dec, last));
      hide ChatChoice, KeepsTools, ChoiceSigns;
    }
  }

  // ---- one frame ----

  /** The standing block at `n` once a frame has come. */
  function BlockAfter(before: seq<Frame>, f: Frame, n: int): Option<Block> {
    match f
    case M(BlockStart(k, b)) => if k == n then Some(b) else StandingBlock(before, n)
    case M(BlockStop(k)) => if k == n then None else StandingBlock(before, n)
    case _ => StandingBlock(before, n)
  }

  function ItemAfter(before: seq<Frame>, f: Frame, n: int): Option<string> {
    match f
    case R(ResponsesFrame(_, ItemAdded(k, CallItem(_, id, _, _)))) => if k == n then Some(id) else ItemID(before, n)
    case _ => ItemID(before, n)
  }

  /** One more frame: what the history says then. */
  lemma HistoryMore(before: seq<Frame>, f: Frame)
    ensures Begun(before + [f]) == (Begins(f) || Begun(before)) && Called(before + [f]) == (Calls(f) || Called(before))
    ensures FlatMap(SignsIn, before + [f]) == FlatMap(SignsIn, before) + SignsIn(f)
    ensures forall n :: StandingBlock(before + [f], n) == BlockAfter(before, f, n)
    ensures forall n :: ItemID(before + [f], n) == ItemAfter(before, f, n)
  {
    assert (before + [f])[..|before|] == before;
    hide Begins, Calls, SignsIn;
  }

  /** The memory after a frame, part by part. */
  lemma KeepsMore(d: Dec, before: seq<Frame>, f: Frame, e: Dec)
    requires Keeps(d, before)
    requires e.started == (Begins(f) || d.started) && e.hadTools == (Calls(f) || d.hadTools)
    requires KeepsTools(e, FlatMap(SignsIn, before) + SignsIn(f))
    requires forall n :: StandsAt(e.blocks, n, BlockAfter(before, f, n))
    requires forall n :: ItemAfter(before, f, n) == if n in e.responseTools then Some(e.responseTools[n]) else None
    ensures Keeps(e, before + [f])
  {
    hide KeepsTools, Begins, Calls, SignsIn, BlockAfter, ItemAfter, SameBlock, FlatMap, StandingBlock, ItemID, Begun, Called;
    HistoryMore(before, f);
  }

  lemma {:induction false} SensesShort(es: seq<Event>)
    requires |es| <= 3
    ensures FlatMap(SenseOf, es) == (if |es| > 0 then SenseOf(es[0]) else []) + (if |es| > 1 then SenseOf(es[1]) else [])
                                    + (if |es| > 2 then SenseOf(es[2]) else [])
  {
    hide SenseOf;
    if es != [] { SensesShort(es[..|es| - 1]); }
  }

  lemma ChunkKeeps(d: Dec, before: seq<Frame>, choices: seq<Choice>, u: Usage)
    requires Keeps(d, before)
    ensures Keeps(DecodeChat(d, Chunk(choices, u)).dec, before + [C(Chunk(choices, u))])
  {
    ChoicesMean(d.(started := true), FlatMap(SignsIn, before), choices);
    hide KeepsTools, SensesAfter, ChatChoices, Begun, Called, FlatMap, Reported, StandingBlock, ItemID;
    KeepsMore(d, before, C(Chunk(choices, u)), ChatChoices(d.(started := true), choices).dec);
  }

  lemma ChunkSenses(d: Dec, before: seq<Frame>, choices: seq<Choice>, u: Usage)
    requires Keeps(d, before)
    ensures FlatMap(SenseOf, DecodeChat(d, Chunk(choices, u)).events) == FrameSenses(before, C(Chunk(choices, u)))
  {
    hide KeepsTools, KeepsBlocks, KeepsItems, SensesAfter, ChatChoices, SignsIn, Begun, Called, FlatMap, StandingBlock, ItemID;
    var start, c := if d.started then [] else [Start], ChatChoices(d.(started := true), choices);
    SameTools(d, d.(started := true), FlatMap(SignsIn, before));
    ChoicesMean(d.(started := true), FlatMap(SignsIn, before), choices);
    EdgesMean(d, before, start, u);
    FlatMapConcat(SenseOf, start, c.events);
    FlatMapConcat(SenseOf, start + c.events, Reported(u));
    ChunkSigns(choices, u);
  }

  lemma ChunkSigns(choices: seq<Choice>, u: Usage)
    ensures SignsIn(C(Chunk(choices, u))) == FlatMap(ChoiceSigns, choices)
  {
  }

  /** What stands before and after the choices of a chunk. */
  lemma EdgesMean(d: Dec, before: seq<Frame>, start: seq<Event>, u: Usage)
    requires d.started == Begun(before) && start == if d.started then [] else [Start]
    ensures FlatMap(SenseOf, start) == if Begun(before) then [] else [Began]
    ensures FlatMap(SenseOf, Reported(u)) == Counts(u)
  {
    hide FlatMap;
    SensesShort(start);
    SensesShort(Reported(u));
  }

  lemma MessagesKeep(d: Dec, before: seq<Frame>, f: MessagesFrame)
    requires Keeps(d, before) && DecodeMessages(d, f).Ok?
    ensures Keeps(DecodeMessages(d, f).value.dec, before + [M(f)])
  {
    MessagesBlocks(d, before, f);
    hide NormalizeMessagesStop, Reported, KeepsTools, Begun, Called, FlatMap, StandingBlock, ItemID, BlockAfter, SameBlock, KeepsBlocks;
    assert FlatMap(SignsIn, before) + [] == FlatMap(SignsIn, before);
    SameTools(d, DecodeMessages(d, f).value.dec, FlatMap(SignsIn, before));
    KeepsMore(d, before, M(f), DecodeMessages(d, f).value.dec);
  }

  lemma MessagesBlocks(d: Dec, before: seq<Frame>, f: MessagesFrame)
    requires KeepsBlocks(d, before) && DecodeMessages(d, f).Ok?
    ensures var blocks := DecodeMessages(d, f).value.dec.blocks;
      forall n :: StandsAt(blocks, n, BlockAfter(before, M(f), n))
  {
    hide NormalizeMessagesStop, Reported, StandingBlock;
  }

  /** The memory of a block agrees with the history. */
  predicate StandsAt(blocks: map<int, OpenBlock>, n: int, standing: Option<Block>) {
    if n in blocks then standing.Some? && SameBlock(blocks[n], standing.value) else standing == None
  }

  lemma SameTools(d: Dec, e: Dec, signs: seq<Sign>)
    requires KeepsTools(d, signs) && e.chatTools == d.chatTools && (d.hadTools ==> e.hadTools)
    ensures KeepsTools(e, signs)
  {
  }

  lemma MessagesSenses(d: Dec, before: seq<Frame>, f: MessagesFrame)
    requires Keeps(d, before) && DecodeMessages(d, f).Ok?
    ensures FlatMap(SenseOf, DecodeMessages(d, f).value.events) == FrameSenses(before, M(f))
  {
    hide KeepsTools, KeepsItems, Begun, Called, FlatMap, StandingBlock, ItemID;
    SensesShort(DecodeMessages(d, f).value.events);
  }

  lemma MessagesUnderstood(d: Dec, before: seq<Frame>, f: MessagesFrame)
    requires Keeps(d, before)
    ensures DecodeMessages(d, f).Ok? <==> Understood(before, M(f))
  {
    hide KeepsTools, KeepsItems, Begun, Called, FlatMap, StandingBlock, ItemID;
  }

  lemma ResponsesKeep(d: Dec, before: seq<Frame>, f: ResponsesFrame)
    requires Keeps(d, before) && DecodeResponses(d, f.body).Ok?
    ensures Keeps(DecodeResponses(d, f.body).value.dec, before + [R(f)])
  {
    hide KeepsTools, Begun, Called, FlatMap, StandingBlock, ItemID;
    assert FlatMap(SignsIn, before) + [] == FlatMap(SignsIn, before);
    SameTools(d, DecodeResponses(d, f.body).value.dec, FlatMap(SignsIn, before));
    KeepsMore(d, before, R(f), DecodeResponses(d, f.body).value.dec);
  }

  lemma ResponsesSenses(d: Dec, before: seq<Frame>, f: ResponsesFrame)
    requires Keeps(d, before) && DecodeResponses(d, f.body).Ok?
    ensures FlatMap(SenseOf, DecodeResponses(d, f.body).value.events) == FrameSenses(before, R(f))
  {
    hide KeepsTools, KeepsBlocks, Begun, Called, FlatMap, StandingBlock, ItemID;
    SensesShort(DecodeResponses(d, f.body).value.events);
  }

  /** A frame is decoded exactly if it is understood at its place, and reports what it means there. */
  lemma FrameMeans(d: Dec, before: seq<Frame>, f: Frame)
    requires Keeps(d, before)
    ensures Decode(d, f).Ok? <==> Understood(before, f)
    ensures Decode(d, f).Ok? ==> Keeps(Decode(d, f).value.dec, before + [f])
                                 && FlatMap(SenseOf, Decode(d, f).value.events) == FrameSenses(before, f)
  {
    hide Keeps, FlatMap, FrameSenses, DecodeMessages, DecodeResponses;
    match f
    case C(Chunk(choices, u)) =>
      ChunkKeeps(d, before, choices, u);
      ChunkSenses(d, before, choices, u);
    case C(DoneMarker) => MarkerMeans(d, before);
    case M(m) =>
      MessagesUnderstood(d, before, m);
      if DecodeMessages(d, m).Ok? { MessagesKeep(d, before, m); MessagesSenses(d, before, m); }
    case R(r) =>
      ResponsesUnderstood(d, before, r);
      if DecodeResponses(d, r.body).Ok? { ResponsesKeep(d, before, r); ResponsesSenses(d, before, r); }
  }

  lemma ResponsesUnderstood(d: Dec, before: seq<Frame>, f: ResponsesFrame)
    ensures DecodeResponses(d, f.body).Ok? <==> Understood(before, R(f))
  {
  }

  lemma MarkerMeans(d: Dec, before: seq<Frame>)
    requires Keeps(d, before)
    ensures Keeps(d, before + [C(DoneMarker)]) && FlatMap(SenseOf, [Done]) == FrameSenses(before, C(DoneMarker))
  {
    SensesShort([Done]);
    hide KeepsTools, Begun, Called, FlatMap, StandingBlock, ItemID;
    assert FlatMap(SignsIn, before) + [] == FlatMap(SignsIn, before);
    KeepsMore(d, before, C(DoneMarker), d);
  }

  lemma KeepsNothing()
    ensures Keeps(FRESH, [])
  {
  }

  /** Main result: a stream is decoded exactly if every frame is understood after those before it, and
      then the events mean what the frames mean, in their order. */
  lemma {:induction false} StreamMeans(frames: seq<Frame>)
    ensures DecodeAll(FRESH, frames).Ok? <==> forall k | 0 <= k < |frames| :: Understood(frames[..k], frames[k])
    ensures DecodeAll(FRESH, frames).Ok? ==> FlatMap(SenseOf, DecodeAll(FRESH, frames).value.events) == Senses(frames)
  {
    KeptAlong(frames);
  }

  lemma {:induction false} KeptAlong(frames: seq<Frame>)
    ensures DecodeAll(FRESH, frames).Ok? <==> forall k | 0 <= k < |frames| :: Understood(frames[..k], frames[k])
    ensures DecodeAll(FRESH, frames).Ok? ==> Keeps(DecodeAll(FRESH, frames).value.dec, frames)
                                             && FlatMap(SenseOf, DecodeAll(FRESH, frames).value.events) == Senses(frames)
  {
    hide Decode, Understood, Keeps, FrameSenses;
    if frames == [] {
      KeepsNothing();
    } else {
      var front, last := frames[..|frames| - 1], frames[|frames| - 1];
      KeptAlong(front);
      assert forall k | 0 <= k < |front| :: frames[..k] == front[..k];
      if DecodeAll(FRESH, front).Ok? {
        var x := DecodeAll(FRESH, front).value;
        FrameMeans(x.dec, front, last);
        assert front + [last] == frames;
        if Decode(x.dec, last).Ok? { FlatMapConcat(SenseOf, x.events, Decode(x.dec, last).value.events); }
      }
    }
  }

  // ---- the stop reason ----

  /** The reason of the last stop, empty when there was none. */
  function LastStop(senses: seq<Sense>): string {
    if senses == [] then ""
    else if senses[|senses| - 1].Stopped? then senses[|senses| - 1].reason
    else LastStop(senses[..|senses| - 1])
  }

  lemma LastStopMore(senses: seq<Sense>, more: seq<Sense>)
    requires |more| <= 1
    ensures LastStop(senses + more) == if more != [] && more[0].Stopped? then more[0].reason else LastStop(senses)
  {
    if more == [] { assert senses + more == senses; } else { assert (senses + more)[..|senses|] == senses; }
  }

  lemma {:induction false} StopHeard(es: seq<Event>)
    ensures StopOf(es) == LastStop(FlatMap(SenseOf, es))
  {
    if es != [] {
      StopHeard(es[..|es| - 1]);
      LastStopMore(FlatMap(SenseOf, es[..|es| - 1]), SenseOf(es[|es| - 1]));
    }
  }

  /** Main result: the stop reason of a decodable stream is that of the last frame that stops it: out of
      budget, tools to call, or done, as that frame's own words say. */
  lemma StopMeans(frames: seq<Frame>)
    requires DecodeAll(FRESH, frames).Ok?
    ensures StopOf(DecodeAll(FRESH, frames).value.events) == LastStop(Senses(frames))
  {
    StreamMeans(frames);
    StopHeard(DecodeAll(FRESH, frames).value.events);
  }
}

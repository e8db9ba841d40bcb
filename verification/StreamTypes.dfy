/** The canonical stream events and the wire frames of the three client protocols.
    JSON objects are datatypes; a frame keeps the fields the decoders read. Minted identifiers,
    the model name and the creation time are not part of a frame. */
module StreamTypes {
  import opened Wrappers
  import opened Sequences

  datatype Protocol = Chat | Messages | Responses

  datatype Usage = Usage(
    input: Option<int>, cacheRead: Option<int>, cacheWrite: Option<int>,
    output: Option<int>, reasoning: Option<int>, total: Option<int>)

  const NO_USAGE := Usage(None, None, None, None, None, None)

  predicate UsagePresent(u: Usage) {
    u != NO_USAGE
  }

  function Newer<T>(was: Option<T>, now: Option<T>): Option<T> {
    if now.Some? then now else was
  }

  function MergeUsage(u: Usage, v: Usage): Usage {
    Usage(Newer(u.input, v.input), Newer(u.cacheRead, v.cacheRead), Newer(u.cacheWrite, v.cacheWrite),
          Newer(u.output, v.output), Newer(u.reasoning, v.reasoning), Newer(u.total, v.total))
  }

  function Known(n: Option<int>): Option<int> {
    Some(if n.Some? then n.value else 0)
  }

  function ChatUsage(u: Usage): Usage {
    Usage(Known(u.input), Known(u.cacheRead), None, Known(u.output), Known(u.reasoning), Known(u.total))
  }

  function MessagesUsage(u: Usage): Usage {
    Usage(Known(u.input), Known(u.cacheRead), Known(u.cacheWrite), Known(u.output), None, None)
  }

  function ResponsesUsage(u: Usage): Usage {
    ChatUsage(u)
  }

  /** Canonical events, the currency between decoders and encoder. */
  datatype Event =
    | Start
    | Text(index: int, delta: string)
    | Reasoning(index: int, delta: string)
    | ToolStart(index: int, callID: string, name: string)
    | ToolDelta(index: int, callID: string, delta: string)
    | ToolEnd(index: int, callID: string)
    | Finish(stop: string)
    | UsageSeen(usage: Usage)
    | Done

  // Chat Completions chunks.
  datatype ToolPiece = ToolPiece(index: int, id: string, name: string, arguments: string)

  datatype Choice = Choice(
    reasoning: Option<string>, content: Option<string>, tools: seq<ToolPiece>, finish: Option<string>)

  datatype ChatFrame = Chunk(choices: seq<Choice>, usage: Usage) | DoneMarker

  // Anthropic Messages events.
  datatype Block =
    | TextBlock(text: string)
    | ThinkingBlock(thinking: string)
    | RedactedBlock
    | ToolUseBlock(id: string, name: string, input: string)
    | OtherBlock

  datatype BlockChange =
    | TextChange(text: string)
    | ThinkingChange(thinking: string)
    | InputChange(json: string)
    | SignatureChange
    | OtherChange

  datatype MessagesFrame =
    | MessageStart(usage: Usage)
    | BlockStart(index: int, block: Block)
    | BlockDelta(index: int, change: BlockChange)
    | BlockStop(index: int)
    | MessageDelta(stop: string, usage: Usage)
    | MessageStop
    | Ping
    | MessagesFault

  // OpenAI Responses events.
  datatype Item =
    | MessageItem(completed: bool, content: seq<string>)
    | ReasoningItem(summary: seq<string>)
    | CallItem(completed: bool, callID: string, name: string, arguments: string)

  datatype ResponsesBody =
    | Created
    | InProgress
    | ItemAdded(index: int, item: Item)
    | ItemDone(index: int, item: Item)
    | PartAdded(index: int)
    | TextDelta(index: int, delta: string)
    | TextDone(index: int, text: string)
    | PartDone(index: int, text: string)
    | SummaryPartAdded(index: int)
    | SummaryDelta(index: int, delta: string)
    | SummaryDone(index: int, text: string)
    | SummaryPartDone(index: int, text: string)
    | ArgsDelta(index: int, delta: string)
    | ArgsDone(index: int, arguments: string)
    | Completed(status: string, incompleteReason: string, output: seq<Option<Item>>, usage: Usage)
    | ResponsesFault

  datatype ResponsesFrame = ResponsesFrame(sequence: nat, body: ResponsesBody)

  datatype Frame = C(chat: ChatFrame) | M(message: MessagesFrame) | R(response: ResponsesFrame)

  // Stop reasons, canonical to wire and back.
  function ChatStop(reason: string): string {
    if reason == "tool_calls" || reason == "length" then reason else "stop"
  }

  function MessagesStop(reason: string): string {
    if reason == "tool_calls" then "tool_use" else if reason == "length" then "max_tokens" else "end_turn"
  }

  function NormalizeChatStop(reason: string): string {
    if reason == "length" then "length"
    else if reason == "tool_calls" || reason == "function_call" then "tool_calls"
    else "stop"
  }

  function NormalizeMessagesStop(reason: string): string {
    if reason == "max_tokens" then "length" else if reason == "tool_use" then "tool_calls" else "stop"
  }

  // What a canonical sequence means, independently of any wire format.

  /** One piece of content: what the model said, thought, opened or passed as arguments. */
  datatype Content =
    | Said(text: string)
    | Thought(text: string)
    | Opened(callID: string, name: string)
    | Passed(callID: string, arguments: string)

  function ContentOf(e: Event): seq<Content> {
    match e
    case Text(_, d) => if d == "" then [] else [Said(d)]
    case Reasoning(_, d) => if d == "" then [] else [Thought(d)]
    case ToolStart(_, id, name) => [Opened(id, name)]
    case ToolDelta(_, id, d) => if d == "" then [] else [Passed(id, d)]
    case _ => []
  }

  /** The content pieces of a sequence in order, without empty deltas and wire indexes. */
  function Core(es: seq<Event>): seq<Content> {
    FlatMap(ContentOf, es)
  }

  /** The stop reason last reported, empty when none was. */
  function StopOf(es: seq<Event>): string {
    if es == [] then ""
    else match es[|es| - 1] case Finish(stop) => stop case _ => StopOf(es[..|es| - 1])
  }

  /** The usage counters accumulated over a sequence. */
  function UsageOf(es: seq<Event>): Usage {
    if es == [] then NO_USAGE
    else match es[|es| - 1]
         case UsageSeen(u) => MergeUsage(UsageOf(es[..|es| - 1]), u)
         case _ => UsageOf(es[..|es| - 1])
  }

  predicate Undone(es: seq<Event>) {
    Done !in es
  }

  lemma {:induction false} StopConcat(a: seq<Event>, b: seq<Event>)
    ensures StopOf(a + b) == if exists e :: e in b && e.Finish? then StopOf(b) else StopOf(a)
  {
    if b == [] {
      assert a + b == a;
    } else {
      assert (a + b)[..|a + b| - 1] == a + b[..|b| - 1];
      StopConcat(a, b[..|b| - 1]);
      assert b == b[..|b| - 1] + [b[|b| - 1]];
    }
  }

  lemma {:induction false} UsageConcat(a: seq<Event>, b: seq<Event>)
    ensures UsageOf(a + b) == MergeUsage(UsageOf(a), UsageOf(b))
  {
    if b == [] {
      assert a + b == a;
    } else {
      assert (a + b)[..|a + b| - 1] == a + b[..|b| - 1];
      UsageConcat(a, b[..|b| - 1]);
    }
  }
}

/**
 * The immutable conversation state: messages, token usage, the context window and the
 * aggregate conversation record, with the pure transitions that return a new record.
 * Identifiers and clock readings are parameters (`Stamp`), not generated.
 */
module State {
  import opened Wrappers

  datatype Role = User | Assistant | System | Tool

  datatype Status = Active | Paused | Completed | Error

  /** A clock reading: a message timestamp or the version stamp of a state. */
  type Stamp = int

  /** A metadata or tool-call value, known by what `str()` renders it as. */
  datatype Value = PyNone | Rendered(text: string)

  /** `str(v)` */
  function Str(v: Value): string {
    match v
    case PyNone => "None"
    case Rendered(t) => t
  }

  /**
   * A message. The metadata dictionary is kept as its items in insertion order, which is
   * the order `dict.values()` yields them in. Its keys are distinct, as a dictionary's are;
   * the model assumes so and does not check it, and the token count charges each item listed.
   */
  datatype Message = Message(
    id: string,
    role: Role,
    content: string,
    timestamp: Stamp,
    metadata: seq<(string, Value)>,
    toolCalls: Option<seq<Value>>)

  /** `Message.create`: a missing metadata dictionary becomes the empty one; tool calls are kept as given. */
  function CreateMessage(id: string, role: Role, content: string, metadata: Option<seq<(string, Value)>>,
                         toolCalls: Option<seq<Value>>, now: Stamp): (m: Message)
    ensures m.id == id && m.role == role && m.content == content && m.timestamp == now
    ensures m.metadata == (if metadata.Some? then metadata.value else [])
    ensures m.toolCalls == toolCalls
  {
    Message(id, role, content, now, metadata.GetOr([]), toolCalls)
  }

  datatype TokenUsage = TokenUsage(promptTokens: int, completionTokens: int, totalTokens: int) {
    /** Componentwise sum of two usages. */
    function Add(other: TokenUsage): (r: TokenUsage)
      ensures r.promptTokens - promptTokens == other.promptTokens
      ensures r.completionTokens - completionTokens == other.completionTokens
      ensures r.totalTokens - totalTokens == other.totalTokens
    {
      TokenUsage(promptTokens + other.promptTokens,
                 completionTokens + other.completionTokens,
                 totalTokens + other.totalTokens)
    }
  }

  const ZeroUsage := TokenUsage(0, 0, 0)

  /** `TokenUsage.add` is associative and commutative, with the zero usage as its identity. */
  lemma TokenUsageMonoid(a: TokenUsage, b: TokenUsage, c: TokenUsage)
    ensures a.Add(b).Add(c) == a.Add(b.Add(c))
    ensures a.Add(b) == b.Add(a)
    ensures a.Add(ZeroUsage) == a && ZeroUsage.Add(a) == a
  {
  }

  type Positive = n: int | 0 < n witness 1

  /** An exact rational number, standing for the source's floats. */
  datatype Fraction = Fraction(num: int, den: Positive)

  predicate AtLeast(a: Fraction, b: Fraction) {
    a.num * b.den >= b.num * a.den
  }

  /** The default compaction threshold, 0.85. */
  const DefaultThreshold := Fraction(85, 100)

  datatype ContextWindow = ContextWindow(maxTokens: int, currentTokens: int, compactionThreshold: Fraction) {
    /** `current_tokens / max_tokens`, or 0 when `max_tokens <= 0`. */
    function Utilization(): (u: Fraction)
      ensures maxTokens <= 0 ==> u.num == 0
      ensures maxTokens > 0 ==> u.num * maxTokens == currentTokens * u.den
    {
      if maxTokens > 0 then Fraction(currentTokens, maxTokens) else Fraction(0, 1)
    }

    /** `utilization >= compaction_threshold` */
    predicate NeedsCompaction()
      ensures NeedsCompaction() <==>
        if maxTokens > 0 then currentTokens * compactionThreshold.den >= compactionThreshold.num * maxTokens
        else compactionThreshold.num <= 0
    {
      AtLeast(Utilization(), compactionThreshold)
    }
  }

  datatype ConversationState = ConversationState(
    id: string,
    messages: seq<Message>,
    status: Status,
    contextWindow: ContextWindow,
    tokenUsage: TokenUsage,
    metadata: map<string, Value>,
    createdAt: Stamp,
    updatedAt: Stamp)
  {
    /** Append `m` and charge `tokenCount` to the total usage and to the context window. */
    function AddMessage(m: Message, tokenCount: int, now: Stamp): (r: ConversationState)
      ensures r.messages == messages + [m]
      ensures r.tokenUsage.totalTokens == tokenUsage.totalTokens + tokenCount
      ensures r.tokenUsage.promptTokens == tokenUsage.promptTokens
      ensures r.tokenUsage.completionTokens == tokenUsage.completionTokens
      ensures r.contextWindow.currentTokens == contextWindow.currentTokens + tokenCount
      ensures r.contextWindow.maxTokens == contextWindow.maxTokens
      ensures r.contextWindow.compactionThreshold == contextWindow.compactionThreshold
      ensures r == this.(messages := r.messages, tokenUsage := r.tokenUsage,
                         contextWindow := r.contextWindow, updatedAt := now)
    {
      this.(messages := messages + [m],
            tokenUsage := tokenUsage.Add(TokenUsage(0, 0, tokenCount)),
            contextWindow := contextWindow.(currentTokens := contextWindow.currentTokens + tokenCount),
            updatedAt := now)
    }

    function UpdateStatus(s: Status, now: Stamp): (r: ConversationState)
      ensures r.status == s && r.updatedAt == now
      ensures r.(status := status, updatedAt := updatedAt) == this
    {
      this.(status := s, updatedAt := now)
    }

    /** Replace the message list and the window's token count wholesale. */
    function Compact(newMessages: seq<Message>, newTokenCount: int, now: Stamp): (r: ConversationState)
      ensures r.messages == newMessages && r.contextWindow.currentTokens == newTokenCount
      ensures r.updatedAt == now
      ensures r.contextWindow.maxTokens == contextWindow.maxTokens
      ensures r.contextWindow.compactionThreshold == contextWindow.compactionThreshold
      ensures r.(messages := messages, contextWindow := contextWindow, updatedAt := updatedAt) == this
    {
      this.(messages := newMessages,
            contextWindow := contextWindow.(currentTokens := newTokenCount),
            updatedAt := now)
    }

    /** `{**metadata, key: value}` */
    function UpdateMetadata(key: string, value: Value, now: Stamp): (r: ConversationState)
      ensures key in r.metadata && r.metadata[key] == value
      ensures forall k :: k != key ==> (k in r.metadata <==> k in metadata)
      ensures forall k :: k != key && k in metadata ==> r.metadata[k] == metadata[k]
      ensures r.updatedAt == now
      ensures r.(metadata := metadata, updatedAt := updatedAt) == this
    {
      this.(metadata := metadata[key := value], updatedAt := now)
    }
  }

  /** `ConversationState.create`: an empty, active conversation with a zero budget charge. */
  function CreateState(id: string, maxTokens: int, metadata: Option<map<string, Value>>, now: Stamp): (r: ConversationState)
    ensures r.id == id && r.messages == [] && r.status == Active
    ensures r.contextWindow == ContextWindow(maxTokens, 0, DefaultThreshold)
    ensures r.tokenUsage == ZeroUsage
    ensures r.metadata == (if metadata.Some? then metadata.value else map[])
    ensures r.createdAt == r.updatedAt == now
  {
    ConversationState(id, [], Active, ContextWindow(maxTokens, 0, DefaultThreshold), ZeroUsage,
                      metadata.GetOr(map[]), now, now)
  }
}

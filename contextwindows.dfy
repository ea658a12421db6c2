/**
 * The context-window manager: it owns a token counter and a default strategy, keeps a list of
 * compaction callbacks, and turns a conversation state into a compacted message list and its
 * recomputed token count. Callbacks are foreign code; here a callback is a handle, and whether
 * it raises is a parameter of the call that notifies it.
 */
module ContextWindows {
  import opened Wrappers
  import opened State
  import opened Tokens
  import opened Compaction
  import PySeq

  /** A registered compaction callback. */
  type Callback = nat

  /** The strategy used when none is given: chronological, five recent messages, 0.7 ratio. */
  const DefaultStrategy := CompactionStrategy("chronological", 1, 5, true, true, Fraction(7, 10))

  /** Floor division of a non-negative number leaves a remainder below the divisor. */
  lemma FloorDivBounds(a: nat, d: Positive)
    ensures 0 <= a / d && d * (a / d) <= a < d * (a / d) + d
  {
    assert a == d * (a / d) + a % d;
  }

  /** Python's `int(x)` of an exact rational `a / d`: truncation toward zero. */
  function TruncDiv(a: int, d: Positive): (q: int)
    ensures 0 <= a ==> 0 <= q && d * q <= a < d * q + d
    ensures a < 0 ==> q <= 0 && a <= d * q < a + d
  {
    if a >= 0 then
      FloorDivBounds(a, d);
      a / d
    else
      FloorDivBounds(-a, d);
      -((-a) / d)
  }

  /** `int(max_tokens * (1 - max_compaction_ratio))`, with the ratio an exact fraction. */
  function TargetTokens(maxTokens: int, ratio: Fraction): int {
    TruncDiv(maxTokens * (ratio.den - ratio.num), ratio.den)
  }

  /** For a ratio between 0 and 1 and a non-negative window, the target lies between 0 and the window size. */
  lemma TargetWithinWindow(maxTokens: int, ratio: Fraction)
    requires 0 <= maxTokens && 0 <= ratio.num <= ratio.den
    ensures 0 <= TargetTokens(maxTokens, ratio) <= maxTokens
  {
    var d := ratio.den;
    var a := maxTokens * (d - ratio.num);
    assert 0 <= a <= maxTokens * d by {
      assert 0 <= d - ratio.num <= d;
    }
    var q := TruncDiv(a, d);
    assert d * q <= d * maxTokens;
  }

  /** The default strategy asks for 30% of the window: `int(1000 * (1 - 0.7)) == 300`. */
  lemma DefaultTarget()
    ensures TargetTokens(1000, DefaultStrategy.maxCompactionRatio) == 300
    ensures TargetTokens(-10, DefaultStrategy.maxCompactionRatio) == -3
  {
  }

  /**
   * What `compact_conversation` returns for a strategy: the compacted list and its token cost,
   * or the compactor's error for a name it does not know.
   */
  function CompactionOutcome(count: Counter, state: ConversationState, s: CompactionStrategy): (r: Result<(seq<Message>, int), string>)
  {
    match ApplyStrategy(count, state.messages, TargetTokens(state.contextWindow.maxTokens, s.maxCompactionRatio), s)
    case None => Failure("Unknown compaction strategy: " + s.name)
    case Some(compacted) => Success((compacted, Total(count, compacted)))
  }

  /** The outcome fails exactly for an unregistered name, and otherwise reports the cost of the list it returns. */
  lemma CompactionOutcomeSpec(count: Counter, state: ConversationState, s: CompactionStrategy)
    ensures var r := CompactionOutcome(count, state, s);
      && (r.Failure? <==> s.name !in StrategyNames)
      && (r.Failure? ==> r.error == "Unknown compaction strategy: " + s.name)
      && (r.Success? ==> r.value.1 == Total(count, r.value.0))
  {
  }

  /** Installing a successful outcome into the state makes the window's count the cost of its messages again. */
  lemma CompactionOutcomeRestoresAccounting(count: Counter, state: ConversationState, s: CompactionStrategy, now: Stamp)
    requires CompactionOutcome(count, state, s).Success?
    ensures var (ms, tokens) := CompactionOutcome(count, state, s).value;
      TokensConsistent(count, state.Compact(ms, tokens, now))
  {
  }

  /** The chronological default never returns a list that ends anywhere but in the recent window. */
  lemma DefaultOutcomeKeepsRecent(count: Counter, state: ConversationState)
    ensures CompactionOutcome(count, state, DefaultStrategy).Success?
    ensures EndsWith(CompactionOutcome(count, state, DefaultStrategy).value.0, Recent(state.messages, 5))
  {
    ChronologicalKeepsRecent(count, state.messages, TargetTokens(state.contextWindow.maxTokens, Fraction(7, 10)), DefaultStrategy);
  }

  /** `get_utilization_info` without its percent string: it reads only the state. */
  datatype UtilizationInfo = UtilizationInfo(
    currentTokens: int,
    maxTokens: int,
    utilization: Fraction,
    needsCompaction: bool,
    threshold: Fraction,
    availableTokens: int,
    messageCount: nat)

  function GetUtilizationInfo(state: ConversationState): (info: UtilizationInfo)
    ensures info.currentTokens == state.contextWindow.currentTokens && info.maxTokens == state.contextWindow.maxTokens
    ensures info.utilization == state.contextWindow.Utilization()
    ensures info.threshold == state.contextWindow.compactionThreshold
    ensures info.needsCompaction == state.contextWindow.NeedsCompaction()
    ensures info.availableTokens == info.maxTokens - info.currentTokens
    ensures info.needsCompaction <==> AtLeast(info.utilization, info.threshold)
    ensures info.messageCount == |state.messages|
  {
    var w := state.contextWindow;
    UtilizationInfo(w.currentTokens, w.maxTokens, w.Utilization(), w.NeedsCompaction(), w.compactionThreshold,
                    w.maxTokens - w.currentTokens, |state.messages|)
  }

  /**
   * With a threshold of at most 1, a window that does not yet need compaction still has room:
   * the reported available tokens are positive.
   */
  lemma RoomBelowThreshold(state: ConversationState)
    requires state.contextWindow.maxTokens > 0
    requires state.contextWindow.compactionThreshold.num <= state.contextWindow.compactionThreshold.den
    requires !GetUtilizationInfo(state).needsCompaction
    ensures GetUtilizationInfo(state).availableTokens > 0
  {
    var w := state.contextWindow;
    var t := w.compactionThreshold;
    assert w.currentTokens * t.den < t.num * w.maxTokens;
    assert t.num * w.maxTokens <= t.den * w.maxTokens;
  }

  class ContextWindowManager {
    const count: Counter
    const defaultStrategy: CompactionStrategy
    var callbacks: seq<Callback>

    /** A missing counter means the simple word counter; a missing strategy means `DefaultStrategy`. */
    constructor(counter: Option<Counter>, strategy: Option<CompactionStrategy>)
      ensures count == (if counter.Some? then counter.value else MessageTokens)
      ensures defaultStrategy == strategy.GetOr(DefaultStrategy)
      ensures callbacks == []
    {
      var c: Counter := MessageTokens;
      if counter.Some? {
        c := counter.value;
      }
      count := c;
      defaultStrategy := strategy.GetOr(DefaultStrategy);
      callbacks := [];
    }

    method AddCompactionCallback(cb: Callback)
      modifies this
      ensures callbacks == old(callbacks) + [cb]
    {
      callbacks := callbacks + [cb];
    }

    /**
     * Compact with the given strategy, or the default one, then call every callback in
     * registration order. A callback that raises is logged and the loop goes on; `notified`
     * lists the callbacks called and `errors` those whose exception was logged. An unknown
     * strategy raises before any callback runs.
     */
    method CompactConversation(state: ConversationState, strategy: Option<CompactionStrategy>, raises: Callback -> bool)
      returns (r: Result<(seq<Message>, int), string>, notified: seq<Callback>, errors: seq<Callback>)
      ensures r == CompactionOutcome(count, state, strategy.GetOr(defaultStrategy))
      ensures r.Success? ==> notified == callbacks && errors == PySeq.Filter(callbacks, raises)
      ensures r.Failure? ==> notified == [] && errors == []
    {
      var s := strategy.GetOr(defaultStrategy);
      var target := TargetTokens(state.contextWindow.maxTokens, s.maxCompactionRatio);
      var result := Compact(count, state.messages, target, s);
      if result.Failure? {
        return Failure(result.error), [], [];
      }
      notified, errors := [], [];
      var i := 0;
      while i < |callbacks|
        invariant 0 <= i <= |callbacks|
        invariant notified == callbacks[..i]
        invariant errors == PySeq.Filter(callbacks[..i], raises)
      {
        var cb := callbacks[i];
        assert callbacks[..i + 1] == callbacks[..i] + [cb];
        PySeq.FilterSnoc(callbacks[..i], cb, raises);
        notified := notified + [cb];
        if raises(cb) {
          errors := errors + [cb];
        }
        i := i + 1;
      }
      assert callbacks[..|callbacks|] == callbacks;
      var compacted := result.value.compactedMessages;
      r := Success((compacted, Total(count, compacted)));
    }

    /** Compact only when the window needs it; otherwise return nothing and notify no one. */
    method CheckAndCompact(state: ConversationState, strategy: Option<CompactionStrategy>, raises: Callback -> bool)
      returns (r: Result<Option<(seq<Message>, int)>, string>, notified: seq<Callback>, errors: seq<Callback>)
      ensures !state.contextWindow.NeedsCompaction() ==> r == Success(None) && notified == [] && errors == []
      ensures state.contextWindow.NeedsCompaction() ==>
        match CompactionOutcome(count, state, strategy.GetOr(defaultStrategy))
        case Failure(e) => r == Failure(e) && notified == [] && errors == []
        case Success(v) => r == Success(Some(v)) && notified == callbacks && errors == PySeq.Filter(callbacks, raises)
    {
      if !state.contextWindow.NeedsCompaction() {
        return Success(None), [], [];
      }
      var outcome;
      outcome, notified, errors := CompactConversation(state, strategy, raises);
      if outcome.Failure? {
        r := Failure(outcome.error);
      } else {
        r := Success(Some(outcome.value));
      }
    }
  }
}

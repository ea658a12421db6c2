/**
 * The conversation manager: the façade that owns a state manager and a context-window manager,
 * charges every added message its own token cost, and subscribes a handler that compacts the
 * conversation whenever a state change leaves it over the compaction threshold.
 *
 * The handler dispatches from inside the state manager's notification loop, so dispatches nest.
 * The nesting depth is bounded by `depth` (a dispatch at depth 0 runs no handler), which stands
 * for the interpreter's recursion limit; an error there is swallowed by the handler like any other.
 * The reducer reads the clock afresh for every dispatch; a dispatch made by the handler reads it
 * one tick after the dispatch that triggered the handler.
 */
module Conversations {
  import opened Wrappers
  import opened State
  import opened Tokens
  import opened Compaction
  import opened ContextWindows
  import opened Reducing
  import opened StateManagement
  import PySeq

  function AddMessageAction(m: Message, tokenCount: int): Action {
    Action("ADD_MESSAGE", EmptyPayload.(message := Some(m), tokenCount := Some(tokenCount)))
  }

  function CompactAction(ms: seq<Message>, tokenCount: int): Action {
    Action("COMPACT_CONVERSATION", EmptyPayload.(messages := Some(ms), tokenCount := Some(tokenCount)))
  }

  function StatusAction(s: Status): Action {
    Action("UPDATE_STATUS", EmptyPayload.(status := Some(s)))
  }

  function MetadataAction(key: string, value: Value): Action {
    Action("UPDATE_METADATA", EmptyPayload.(key := Some(key), value := value))
  }

  /**
   * A state the handler compacts into itself: it needs compaction, and the strategy returns its
   * messages and their token count unchanged, so compacting it changes only the update time.
   */
  predicate CompactsToItself(count: Counter, strategy: CompactionStrategy, state: ConversationState) {
    && state.contextWindow.NeedsCompaction()
    && CompactionOutcome(count, state, strategy) == Success((state.messages, state.contextWindow.currentTokens))
  }

  /** Whether a state compacts into itself does not depend on its update time. */
  lemma CompactsToItselfIgnoresStamp(count: Counter, strategy: CompactionStrategy, state: ConversationState, t: Stamp)
    ensures CompactsToItself(count, strategy, state.(updatedAt := t)) == CompactsToItself(count, strategy, state)
  {
  }

  /**
   * A conversation of at most five messages that needs compaction compacts into itself under the
   * default strategy: chronological compaction returns a list that short unchanged. One message of
   * 200 words (260 tokens) in a 200-token window is such a conversation.
   */
  lemma ShortOverfullCompactsToItself(count: Counter, state: ConversationState)
    requires |state.messages| <= 5
    requires TokensConsistent(count, state)
    requires state.contextWindow.NeedsCompaction()
    ensures CompactsToItself(count, DefaultStrategy, state)
  {
  }

  /** A handle that occurs once in a list occurs neither before nor after its position. */
  lemma OccursOnceAt(s: seq<Subscriber>, x: Subscriber, i: nat)
    requires i < |s| && s[i] == x && multiset(s)[x] == 1
    ensures x !in s[..i] && x !in s[i + 1..]
  {
    assert s == s[..i] + [x] + s[i + 1..];
    assert multiset(s) == multiset(s[..i]) + multiset{x} + multiset(s[i + 1..]);
  }

  /** The test `get_messages` applies: `msg.role == role`. */
  function HasRole(role: Role): Message -> bool {
    (m: Message) => m.role == role
  }

  /** The metadata a new manager's conversation starts with. */
  const CreatedBy := map["created_by" := Rendered("ConversationManager")]

  class ConversationManager {
    const stateManager: StateManager
    const windowManager: ContextWindowManager
    /** `_on_state_change`, as subscribed to the state manager. */
    const handler: Subscriber
    /** `_on_compaction`, as registered with the context-window manager; it only logs. */
    const compactionCallback: Callback

    /** The accounting invariant: the window's count is the cost of the messages, under the manager's own counter. */
    predicate Valid()
      reads this, stateManager
    {
      && stateManager.middleware == DefaultChain
      && TokensConsistent(windowManager.count, stateManager.state)
    }

    /** Whether the handler, given `state`, compacts: depth left, over the threshold, and a known default strategy. */
    predicate AutoCompacts(state: ConversationState, depth: nat) {
      && depth > 0
      && state.contextWindow.NeedsCompaction()
      && CompactionOutcome(windowManager.count, state, windowManager.defaultStrategy).Success?
    }

    /** The COMPACT_CONVERSATION action the handler dispatches for `state`. */
    function HandlerAction(state: ConversationState): Action
      requires CompactionOutcome(windowManager.count, state, windowManager.defaultStrategy).Success?
    {
      var (ms, tokens) := CompactionOutcome(windowManager.count, state, windowManager.defaultStrategy).value;
      CompactAction(ms, tokens)
    }

    constructor(maxTokens: int, strategy: Option<CompactionStrategy>, id: string, now: Stamp,
                handler: Subscriber, compactionCallback: Callback)
      ensures Valid()
      ensures stateManager.state == CreateState(id, maxTokens, Some(CreatedBy), now)
      ensures stateManager.subscribers == [handler]
      ensures windowManager.count == MessageTokens
      ensures windowManager.defaultStrategy == strategy.GetOr(DefaultStrategy)
      ensures windowManager.callbacks == [compactionCallback]
      ensures fresh(stateManager) && fresh(windowManager)
    {
      var initial := CreateState(id, maxTokens, Some(CreatedBy), now);
      var sm := new StateManager(initial, DefaultChain);
      var wm := new ContextWindowManager(None, strategy);
      wm.AddCompactionCallback(compactionCallback);
      sm.Subscribe(handler);
      stateManager := sm;
      windowManager := wm;
      this.handler := handler;
      this.compactionCallback := compactionCallback;
    }

    /**
     * Dispatch `action` and run the handler for each notification it receives. `trace` lists
     * the actions dispatched, this one first. Unless the state changed, the handler is still
     * subscribed and it compacts, the new state is the pipeline's result and nothing else is
     * dispatched. With the handler subscribed once: when the new state compacts and the compacted
     * state does not, the state ends compacted after exactly one COMPACT_CONVERSATION; when the new
     * state compacts into itself, every level compacts again and the nesting reaches its bound.
     */
    method Dispatch(action: Action, now: Stamp, raises: Subscriber -> bool, depth: nat) returns (trace: seq<Action>)
      requires Valid()
      requires TokensConsistent(windowManager.count, Reduce(stateManager.state, action, now))
      modifies stateManager
      ensures Valid()
      ensures stateManager.subscribers == old(stateManager.subscribers)
      ensures |trace| >= 1 && trace[0] == action
      ensures var next := RunChain(DefaultChain, old(stateManager.state), action, now);
        (next == old(stateManager.state) || handler !in stateManager.subscribers || !AutoCompacts(next, depth))
          ==> stateManager.state == next && trace == [action]
      ensures var next := RunChain(DefaultChain, old(stateManager.state), action, now);
        next != old(stateManager.state) && multiset(stateManager.subscribers)[handler] == 1 && AutoCompacts(next, depth) ==>
          var c := RunChain(DefaultChain, next, HandlerAction(next), now + 1);
          (c == next || !AutoCompacts(c, depth - 1)) ==> stateManager.state == c && trace == [action, HandlerAction(next)]
      ensures var next := RunChain(DefaultChain, old(stateManager.state), action, now);
        (next != old(stateManager.state) && multiset(stateManager.subscribers)[handler] == 1 &&
         CompactsToItself(windowManager.count, windowManager.defaultStrategy, next) && next.updatedAt != now + 1)
          ==> |trace| == depth + 1
      decreases depth, 1
    {
      ChainOutcome(DefaultChain, stateManager.state, action, now);
      var h := handler;
      var next, notified, errors := stateManager.Dispatch(action, now, (s: Subscriber) => s != h && raises(s));
      assert next == old(stateManager.state) || handler !in stateManager.subscribers ==> handler !in notified;
      ghost var once := next != old(stateManager.state) && multiset(stateManager.subscribers)[handler] == 1;
      ghost var selfCompacting := CompactsToItself(windowManager.count, windowManager.defaultStrategy, next) && next.updatedAt != now + 1;
      trace := [action];
      var i := 0;
      while i < |notified|
        invariant 0 <= i <= |notified|
        invariant Valid()
        invariant stateManager.subscribers == old(stateManager.subscribers)
        invariant once ==> notified == stateManager.subscribers
        invariant |trace| >= 1 && trace[0] == action
        invariant (handler !in notified || !AutoCompacts(next, depth)) ==> stateManager.state == next && trace == [action]
        invariant handler !in notified[..i] ==> stateManager.state == next && trace == [action]
        invariant once && AutoCompacts(next, depth) && handler in notified[..i] ==>
          var c := RunChain(DefaultChain, next, HandlerAction(next), now + 1);
          (c == next || !AutoCompacts(c, depth - 1)) ==> stateManager.state == c && trace == [action, HandlerAction(next)]
        invariant once && selfCompacting && handler in notified[..i] ==> |trace| == depth + 1
      {
        assert notified[..i + 1] == notified[..i] + [notified[i]];
        if notified[i] == handler {
          if once {
            OccursOnceAt(notified, handler, i);
          }
          var more := OnStateChange(next, now, raises, depth);
          trace := trace + more;
        }
        i := i + 1;
      }
      assert notified[..i] == notified;
    }

    /**
     * `_on_state_change`: ask the context-window manager whether `state` needs compaction and,
     * if it returns a result, dispatch COMPACT_CONVERSATION with it, one clock tick later. A
     * failure is swallowed.
     */
    method OnStateChange(state: ConversationState, now: Stamp, raises: Subscriber -> bool, depth: nat) returns (trace: seq<Action>)
      requires Valid()
      modifies stateManager
      ensures Valid()
      ensures stateManager.subscribers == old(stateManager.subscribers)
      ensures !AutoCompacts(state, depth) ==> trace == [] && stateManager.state == old(stateManager.state)
      ensures AutoCompacts(state, depth) ==>
        var c := RunChain(DefaultChain, old(stateManager.state), HandlerAction(state), now + 1);
        && |trace| >= 1 && trace[0] == HandlerAction(state)
        && ((c == old(stateManager.state) || handler !in stateManager.subscribers || !AutoCompacts(c, depth - 1))
              ==> stateManager.state == c && trace == [HandlerAction(state)])
      ensures (state == old(stateManager.state) && multiset(stateManager.subscribers)[handler] == 1 &&
               CompactsToItself(windowManager.count, windowManager.defaultStrategy, state) && state.updatedAt != now + 1)
                ==> |trace| == depth
      decreases depth, 0
    {
      if depth == 0 {
        return [];
      }
      var r, notified, errors := windowManager.CheckAndCompact(state, None, (c: Callback) => false);
      if r.Failure? || r.value.None? {
        return [];
      }
      var (ms, tokens) := r.value.value;
      CompactionOutcomeSpec(windowManager.count, state, windowManager.defaultStrategy);
      var action := CompactAction(ms, tokens);
      assert action == HandlerAction(state);
      if state == stateManager.state && CompactsToItself(windowManager.count, windowManager.defaultStrategy, state) {
        // the compacted state is this one, stamped later, and it compacts into itself again
        DefaultChainSpec(stateManager.state, action, now + 1);
        CompactsToItselfIgnoresStamp(windowManager.count, windowManager.defaultStrategy, state, now + 1);
      }
      trace := Dispatch(action, now + 1, raises, depth - 1);
    }

    /** `add_message`: create the message and dispatch it with its own token cost. */
    method AddMessage(role: Role, content: string, metadata: Option<seq<(string, Value)>>, toolCalls: Option<seq<Value>>,
                      id: string, now: Stamp, raises: Subscriber -> bool, depth: nat)
      returns (m: Message, trace: seq<Action>)
      requires Valid()
      modifies stateManager
      ensures Valid()
      ensures m == CreateMessage(id, role, content, metadata, toolCalls, now)
      ensures |trace| >= 1 && trace[0] == AddMessageAction(m, windowManager.count(m))
      ensures var added := old(stateManager.state).AddMessage(m, windowManager.count(m), now);
        (handler !in stateManager.subscribers || !AutoCompacts(added, depth)) ==> stateManager.state == added
      ensures var added := old(stateManager.state).AddMessage(m, windowManager.count(m), now);
        multiset(stateManager.subscribers)[handler] == 1 && AutoCompacts(added, depth) ==>
          var c := RunChain(DefaultChain, added, HandlerAction(added), now + 1);
          (c == added || !AutoCompacts(c, depth - 1)) ==> stateManager.state == c && trace == [trace[0], HandlerAction(added)]
      ensures var added := old(stateManager.state).AddMessage(m, windowManager.count(m), now);
        (multiset(stateManager.subscribers)[handler] == 1 && CompactsToItself(windowManager.count, windowManager.defaultStrategy, added))
          ==> |trace| == depth + 1
    {
      m := CreateMessage(id, role, content, metadata, toolCalls, now);
      var tokens := windowManager.count(m);
      AddMessageKeepsAccounting(windowManager.count, stateManager.state, m, now);
      DefaultChainSpec(stateManager.state, AddMessageAction(m, tokens), now);
      assert |stateManager.state.AddMessage(m, tokens, now).messages| > |stateManager.state.messages|;
      trace := Dispatch(AddMessageAction(m, tokens), now, raises, depth);
    }

    method UpdateStatus(status: Status, now: Stamp, raises: Subscriber -> bool, depth: nat) returns (trace: seq<Action>)
      requires Valid()
      modifies stateManager
      ensures Valid()
      ensures |trace| >= 1 && trace[0] == StatusAction(status)
      ensures var updated := old(stateManager.state).UpdateStatus(status, now);
        (handler !in stateManager.subscribers || !AutoCompacts(updated, depth)) ==> stateManager.state == updated
      ensures var updated := old(stateManager.state).UpdateStatus(status, now);
        updated != old(stateManager.state) && multiset(stateManager.subscribers)[handler] == 1 && AutoCompacts(updated, depth) ==>
          var c := RunChain(DefaultChain, updated, HandlerAction(updated), now + 1);
          (c == updated || !AutoCompacts(c, depth - 1)) ==> stateManager.state == c && trace == [StatusAction(status), HandlerAction(updated)]
      ensures var updated := old(stateManager.state).UpdateStatus(status, now);
        (updated != old(stateManager.state) && multiset(stateManager.subscribers)[handler] == 1 &&
         CompactsToItself(windowManager.count, windowManager.defaultStrategy, updated))
          ==> |trace| == depth + 1
    {
      DefaultChainSpec(stateManager.state, StatusAction(status), now);
      trace := Dispatch(StatusAction(status), now, raises, depth);
    }

    method UpdateMetadata(key: string, value: Value, now: Stamp, raises: Subscriber -> bool, depth: nat) returns (trace: seq<Action>)
      requires Valid()
      modifies stateManager
      ensures Valid()
      ensures |trace| >= 1 && trace[0] == MetadataAction(key, value)
      ensures var updated := old(stateManager.state).UpdateMetadata(key, value, now);
        (handler !in stateManager.subscribers || !AutoCompacts(updated, depth)) ==> stateManager.state == updated
      ensures var updated := old(stateManager.state).UpdateMetadata(key, value, now);
        updated != old(stateManager.state) && multiset(stateManager.subscribers)[handler] == 1 && AutoCompacts(updated, depth) ==>
          var c := RunChain(DefaultChain, updated, HandlerAction(updated), now + 1);
          (c == updated || !AutoCompacts(c, depth - 1)) ==> stateManager.state == c && trace == [MetadataAction(key, value), HandlerAction(updated)]
      ensures var updated := old(stateManager.state).UpdateMetadata(key, value, now);
        (updated != old(stateManager.state) && multiset(stateManager.subscribers)[handler] == 1 &&
         CompactsToItself(windowManager.count, windowManager.defaultStrategy, updated))
          ==> |trace| == depth + 1
    {
      DefaultChainSpec(stateManager.state, MetadataAction(key, value), now);
      trace := Dispatch(MetadataAction(key, value), now, raises, depth);
    }

    /**
     * `force_compaction`: compact the current state, dispatch the result, and report it. The
     * report is read back from the state after the dispatch; without a follow-up automatic
     * compaction its original messages are the compacted ones and it reports 0 tokens saved.
     * An unknown strategy name raises before anything is dispatched.
     */
    method ForceCompaction(strategy: Option<CompactionStrategy>, now: Stamp, raises: Subscriber -> bool, depth: nat)
      returns (r: Result<CompactionResult, string>, trace: seq<Action>)
      requires Valid()
      modifies stateManager
      ensures Valid()
      ensures var outcome := CompactionOutcome(windowManager.count, old(stateManager.state), strategy.GetOr(windowManager.defaultStrategy));
        && (r.Failure? <==> outcome.Failure?)
        && (r.Failure? ==> r.error == outcome.error && stateManager.state == old(stateManager.state) && trace == [])
        && (r.Success? ==>
              && r.value.compactedMessages == outcome.value.0
              && r.value.originalMessages == stateManager.state.messages
              && r.value.tokensSaved == stateManager.state.contextWindow.currentTokens - outcome.value.1
              && r.value.strategyUsed == (if strategy.Some? then strategy.value.name else "default")
              && |trace| >= 1 && trace[0] == CompactAction(outcome.value.0, outcome.value.1))
      ensures r.Success? && (handler !in stateManager.subscribers || depth == 0) ==>
        r.value.originalMessages == r.value.compactedMessages && r.value.tokensSaved == 0
      // When the compacted state needs no follow-up compaction, it is the new state and the report saves nothing.
      ensures r.Success? ==>
        var outcome := CompactionOutcome(windowManager.count, old(stateManager.state), strategy.GetOr(windowManager.defaultStrategy));
        var next := RunChain(DefaultChain, old(stateManager.state), CompactAction(outcome.value.0, outcome.value.1), now);
        (!AutoCompacts(next, depth) ==>
          stateManager.state == next && r.value.originalMessages == r.value.compactedMessages && r.value.tokensSaved == 0)
    {
      var outcome, notified, errors := windowManager.CompactConversation(stateManager.state, strategy, (c: Callback) => false);
      if outcome.Failure? {
        return Failure(outcome.error), [];
      }
      var (ms, tokens) := outcome.value;
      CompactionOutcomeSpec(windowManager.count, stateManager.state, strategy.GetOr(windowManager.defaultStrategy));
      DefaultChainSpec(stateManager.state, CompactAction(ms, tokens), now);
      trace := Dispatch(CompactAction(ms, tokens), now, raises, depth);
      var current := stateManager.state;
      var name := if strategy.Some? then strategy.value.name else "default";
      r := Success(CompactionResult(current.messages, ms, current.contextWindow.currentTokens - tokens, name));
    }

    /**
     * `get_messages`: the messages with the given role, in their order, or all of them without a
     * role.
     */
    function GetMessages(role: Option<Role>): (r: seq<Message>)
      reads this, stateManager
      ensures role.None? ==> r == stateManager.state.messages
      ensures role.Some? ==> forall i :: 0 <= i < |r| ==> r[i].role == role.value
      ensures role.Some? ==> forall m :: multiset(r)[m] == if m.role == role.value then multiset(stateManager.state.messages)[m] else 0
      ensures role.Some? ==> exists idx :: PySeq.SelectsInOrder(stateManager.state.messages, r, idx, HasRole(role.value))
    {
      var ms := stateManager.state.messages;
      if role.Some? then
        var keep := HasRole(role.value);
        assert forall m :: multiset(PySeq.Filter(ms, keep))[m] == if keep(m) then multiset(ms)[m] else 0 by {
          forall m {
            PySeq.FilterCount(ms, keep, m);
          }
        }
        PySeq.FilterInOrder(ms, keep);
        PySeq.Filter(ms, keep)
      else ms
    }

    /** `get_recent_messages`: the last `n` messages, all of them when there are fewer, none for `n <= 0`. */
    function GetRecentMessages(n: int): (r: seq<Message>)
      reads this, stateManager
      ensures n <= 0 ==> r == []
      ensures 0 < n <= |stateManager.state.messages| ==> r == stateManager.state.messages[|stateManager.state.messages| - n..]
      ensures n > |stateManager.state.messages| ==> r == stateManager.state.messages
    {
      var ms := stateManager.state.messages;
      if n > 0 then
        PySeq.LastElements(ms, n);
        PySeq.SliceFrom(ms, -n)
      else []
    }

    method SubscribeToChanges(cb: Subscriber)
      requires Valid()
      modifies stateManager
      ensures Valid()
      ensures stateManager.subscribers == old(stateManager.subscribers) + [cb]
      ensures stateManager.state == old(stateManager.state)
    {
      stateManager.Subscribe(cb);
    }

    /**
     * `close`: unsubscribe the handler. Subscribed once, it is gone afterwards, so no later
     * dispatch compacts automatically, and closing again changes nothing.
     */
    method Close()
      requires Valid()
      modifies stateManager
      ensures Valid()
      ensures stateManager.subscribers == RemoveFirst(old(stateManager.subscribers), handler)
      ensures multiset(old(stateManager.subscribers))[handler] <= 1 ==> handler !in stateManager.subscribers
    {
      if multiset(stateManager.subscribers)[handler] <= 1 {
        UnsubscribeTwiceIsSafe(stateManager.subscribers, handler);
      }
      stateManager.Unsubscribe(handler);
    }
  }
}

/**
 * The conversation reducer and the middleware that wraps it. An action is a type name and a
 * payload; the payload is a dictionary in the source, here a record whose `Option` fields are
 * `None` when the key is absent (or, for the keys read without a default, holds `None`).
 * Everything here is a function of the current state, the action and the clock reading.
 */
module Reducing {
  import opened Wrappers
  import opened State

  datatype Payload = Payload(
    message: Option<Message>,
    tokenCount: Option<int>,
    status: Option<Status>,
    messages: Option<seq<Message>>,
    key: Option<string>,
    value: Value,
    maxTokens: Option<int>)

  /** `action.payload or {}`: every key absent. */
  const EmptyPayload := Payload(None, None, None, None, None, PyNone, None)

  datatype Action = Action(kind: string, payload: Payload)

  /** The action types the reducer acts on. */
  const ActionTypes: set<string> :=
    {"ADD_MESSAGE", "UPDATE_STATUS", "COMPACT_CONVERSATION", "UPDATE_METADATA", "UPDATE_CONTEXT_WINDOW"}

  /** `ConversationReducer.__call__` */
  function Reduce(state: ConversationState, action: Action, now: Stamp): (r: ConversationState)
    ensures r.id == state.id && r.createdAt == state.createdAt
    ensures action.kind !in ActionTypes ==> r == state
  {
    var p := action.payload;
    if action.kind == "ADD_MESSAGE" then
      if p.message.Some? then state.AddMessage(p.message.value, p.tokenCount.GetOr(0), now) else state
    else if action.kind == "UPDATE_STATUS" then
      if p.status.Some? then state.UpdateStatus(p.status.value, now) else state
    else if action.kind == "COMPACT_CONVERSATION" then
      state.Compact(p.messages.GetOr([]), p.tokenCount.GetOr(0), now)
    else if action.kind == "UPDATE_METADATA" then
      if p.key.Some? then state.UpdateMetadata(p.key.value, p.value, now) else state
    else if action.kind == "UPDATE_CONTEXT_WINDOW" then
      // `if max_tokens:` is false for a missing value and for 0
      if p.maxTokens.Some? && p.maxTokens.value != 0 then
        state.(contextWindow := state.contextWindow.(maxTokens := p.maxTokens.value))
      else state
    else state
  }

  /** An ADD_MESSAGE without a message, or an UPDATE_STATUS without a status, changes nothing. */
  lemma ReduceMissingFieldNoOp(state: ConversationState, action: Action, now: Stamp)
    requires || (action.kind == "ADD_MESSAGE" && action.payload.message.None?)
             || (action.kind == "UPDATE_STATUS" && action.payload.status.None?)
    ensures Reduce(state, action, now) == state
  {
  }

  /** ADD_MESSAGE appends the message and charges its token count, 0 when the count is missing. */
  lemma ReduceAddMessage(state: ConversationState, m: Message, tokenCount: Option<int>, now: Stamp)
    ensures var r := Reduce(state, Action("ADD_MESSAGE", EmptyPayload.(message := Some(m), tokenCount := tokenCount)), now);
      var charged := if tokenCount.Some? then tokenCount.value else 0;
      && r.messages == state.messages + [m]
      && r.contextWindow.currentTokens == state.contextWindow.currentTokens + charged
      && r.tokenUsage.totalTokens == state.tokenUsage.totalTokens + charged
      && r.status == state.status && r.metadata == state.metadata
  {
  }

  /** COMPACT_CONVERSATION always applies; missing fields mean no messages and 0 tokens. */
  lemma ReduceCompactAlwaysApplies(state: ConversationState, p: Payload, now: Stamp)
    ensures var r := Reduce(state, Action("COMPACT_CONVERSATION", p), now);
      && r.messages == (if p.messages.Some? then p.messages.value else [])
      && r.contextWindow.currentTokens == (if p.tokenCount.Some? then p.tokenCount.value else 0)
      && r.updatedAt == now
      && r.tokenUsage == state.tokenUsage && r.status == state.status && r.metadata == state.metadata
  {
  }

  /** UPDATE_METADATA applies whenever a key is given, also when the value is `None`. */
  lemma ReduceMetadata(state: ConversationState, key: string, value: Value, now: Stamp)
    ensures var r := Reduce(state, Action("UPDATE_METADATA", EmptyPayload.(key := Some(key), value := value)), now);
      && r.metadata == state.metadata[key := value]
      && r.messages == state.messages && r.contextWindow == state.contextWindow && r.updatedAt == now
  {
  }

  /**
   * UPDATE_CONTEXT_WINDOW with a missing or zero size does nothing; otherwise it replaces only
   * the window size, and, unlike every other transition, leaves `updated_at` alone.
   */
  lemma ReduceContextWindow(state: ConversationState, maxTokens: Option<int>, now: Stamp)
    ensures var r := Reduce(state, Action("UPDATE_CONTEXT_WINDOW", EmptyPayload.(maxTokens := maxTokens)), now);
      && (maxTokens.None? || maxTokens == Some(0) ==> r == state)
      && (maxTokens.Some? && maxTokens.value != 0 ==>
            && r.contextWindow.maxTokens == maxTokens.value
            && r == state.(contextWindow := state.contextWindow.(maxTokens := r.contextWindow.maxTokens)))
  {
  }

  // ---------------------------------------------------------------------------------------
  // Middleware

  datatype Middleware = Validation | Logging

  /** `ValidationMiddleware._validate_action`: the payload of ADD_MESSAGE and UPDATE_STATUS must hold its object. */
  predicate ValidAction(action: Action) {
    && (action.kind == "ADD_MESSAGE" ==> action.payload.message.Some?)
    && (action.kind == "UPDATE_STATUS" ==> action.payload.status.Some?)
  }

  /** `ValidationMiddleware._validate_state`; the length test in the source can never fail. */
  predicate ValidState(state: ConversationState) {
    state.contextWindow.currentTokens >= 0
  }

  /**
   * The pipeline `_build_middleware_chain` builds: the first middleware is outermost and the
   * reducer is innermost. Every middleware sees the manager's current state `state`.
   */
  function RunChain(chain: seq<Middleware>, state: ConversationState, action: Action, now: Stamp): (r: ConversationState)
  {
    if chain == [] then Reduce(state, action, now)
    else match chain[0]
      case Logging => RunChain(chain[1..], state, action, now)
      case Validation =>
        if !ValidAction(action) then state
        else
          var next := RunChain(chain[1..], state, action, now);
          if ValidState(next) then next else state
  }

  /** Middleware never invents a state: the pipeline returns the reducer's result or the state it started from. */
  lemma {:induction false} ChainOutcome(chain: seq<Middleware>, state: ConversationState, action: Action, now: Stamp)
    ensures RunChain(chain, state, action, now) in {state, Reduce(state, action, now)}
  {
    if chain != [] {
      ChainOutcome(chain[1..], state, action, now);
    }
  }

  /** Logging middleware passes the action through unchanged, wherever it sits in the chain. */
  lemma {:induction false} LoggingTransparent(before: seq<Middleware>, after: seq<Middleware>, state: ConversationState, action: Action, now: Stamp)
    ensures RunChain(before + [Logging] + after, state, action, now) == RunChain(before + after, state, action, now)
  {
    if before == [] {
      assert before + [Logging] + after == [Logging] + after;
      assert ([Logging] + after)[1..] == after;
      assert before + after == after;
    } else {
      LoggingTransparent(before[1..], after, state, action, now);
      assert (before + [Logging] + after)[1..] == before[1..] + [Logging] + after;
      assert (before + after)[1..] == before[1..] + after;
    }
  }

  /**
   * With validation anywhere in the chain, an invalid action changes nothing, and no state
   * with a negative token count is ever let through.
   */
  lemma {:induction false} ValidationGuards(chain: seq<Middleware>, state: ConversationState, action: Action, now: Stamp)
    requires Validation in chain
    ensures !ValidAction(action) ==> RunChain(chain, state, action, now) == state
    ensures RunChain(chain, state, action, now) == state || ValidState(RunChain(chain, state, action, now))
  {
    if chain[0] != Validation {
      assert chain == [chain[0]] + chain[1..];
      ValidationGuards(chain[1..], state, action, now);
    }
  }

  /** The default pipeline, validation then logging. */
  const DefaultChain := [Validation, Logging]

  /** The default pipeline applies the reducer exactly when the action is valid and the result is. */
  lemma DefaultChainSpec(state: ConversationState, action: Action, now: Stamp)
    ensures RunChain(DefaultChain, state, action, now)
         == if ValidAction(action) && ValidState(Reduce(state, action, now)) then Reduce(state, action, now) else state
  {
    assert DefaultChain[1..] == [Logging];
    assert [Logging][1..] == [];
    assert RunChain([Logging], state, action, now) == Reduce(state, action, now);
  }

  /** Unfolds `RunChain` on the empty pipeline: the bare reducer, as `_apply_middleware` does without
      middleware. Not a property of its own (that is `ChainOutcome`). */
  lemma EmptyChainIsReducer(state: ConversationState, action: Action, now: Stamp)
    ensures RunChain([], state, action, now) == Reduce(state, action, now)
  {
  }
}

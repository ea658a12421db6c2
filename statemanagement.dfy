/**
 * The state manager: it holds the current conversation state, runs every dispatched action
 * through the middleware pipeline and the reducer, and notifies its subscribers when the state
 * changes. Subscribers are foreign callbacks; here a subscriber is a handle, and whether it
 * raises when notified is a parameter of the dispatch.
 */
module StateManagement {
  import opened State
  import opened Reducing
  import PySeq

  /** A subscribed callback. Two handles are equal when Python's `==` holds of the callbacks. */
  type Subscriber = nat

  /** `list.remove(x)` guarded by `x in list`: drop the first occurrence, if any. */
  function RemoveFirst(s: seq<Subscriber>, x: Subscriber): (r: seq<Subscriber>)
    ensures x !in s ==> r == s
  {
    if s == [] then []
    else if s[0] == x then s[1..]
    else [s[0]] + RemoveFirst(s[1..], x)
  }

  /** Removing a present handle drops its first occurrence, at index `i`, and keeps the rest in order. */
  lemma {:induction false} RemoveFirstAt(s: seq<Subscriber>, x: Subscriber) returns (i: nat)
    requires x in s
    ensures i < |s| && s[i] == x && x !in s[..i]
    ensures RemoveFirst(s, x) == s[..i] + s[i + 1..]
  {
    if s[0] == x {
      i := 0;
    } else {
      var tail := s[1..];
      var j := RemoveFirstAt(tail, x);
      i := j + 1;
      assert s[..i] == [s[0]] + tail[..j];
      assert s[i + 1..] == tail[j + 1..];
    }
  }

  /** Removing a present handle drops exactly one occurrence of it. */
  lemma {:induction false} RemoveFirstCount(s: seq<Subscriber>, x: Subscriber)
    requires x in s
    ensures multiset(RemoveFirst(s, x)) == multiset(s) - multiset{x}
  {
    var head, tail := s[0], s[1..];
    assert multiset(s) == multiset{head} + multiset(tail) by {
      assert s == [head] + tail;
    }
    if head != x {
      RemoveFirstCount(tail, x);
      assert RemoveFirst(s, x) == [head] + RemoveFirst(tail, x);
    }
  }

  /** A callback subscribed once is gone after one unsubscribe, so a second unsubscribe changes nothing. */
  lemma UnsubscribeTwiceIsSafe(s: seq<Subscriber>, x: Subscriber)
    requires multiset(s)[x] <= 1
    ensures x !in RemoveFirst(s, x)
    ensures RemoveFirst(RemoveFirst(s, x), x) == RemoveFirst(s, x)
  {
    if x in s {
      RemoveFirstCount(s, x);
      assert multiset(RemoveFirst(s, x))[x] == 0;
    }
  }

  class StateManager {
    var state: ConversationState
    const middleware: seq<Middleware>
    var subscribers: seq<Subscriber>

    /** The reducer is the conversation reducer; `middleware or []` makes a missing list empty. */
    constructor(initial: ConversationState, middleware: seq<Middleware>)
      ensures state == initial && this.middleware == middleware && subscribers == []
    {
      state := initial;
      this.middleware := middleware;
      subscribers := [];
    }

    method Subscribe(cb: Subscriber)
      modifies this
      ensures subscribers == old(subscribers) + [cb]
      ensures state == old(state)
    {
      subscribers := subscribers + [cb];
    }

    /** The function `subscribe` returns: remove the callback if it is still subscribed. */
    method Unsubscribe(cb: Subscriber)
      modifies this
      ensures subscribers == RemoveFirst(old(subscribers), cb)
      ensures state == old(state)
    {
      subscribers := RemoveFirst(subscribers, cb);
    }

    /**
     * `_notify_subscribers`: call each subscriber in order; a subscriber that raises is logged
     * and the loop goes on to the next one.
     */
    method NotifySubscribers(raises: Subscriber -> bool) returns (notified: seq<Subscriber>, errors: seq<Subscriber>)
      ensures notified == subscribers
      ensures errors == PySeq.Filter(subscribers, raises)
    {
      notified, errors := [], [];
      var i := 0;
      while i < |subscribers|
        invariant 0 <= i <= |subscribers|
        invariant notified == subscribers[..i]
        invariant errors == PySeq.Filter(subscribers[..i], raises)
      {
        var sub := subscribers[i];
        assert subscribers[..i + 1] == subscribers[..i] + [sub];
        PySeq.FilterSnoc(subscribers[..i], sub, raises);
        notified := notified + [sub];
        if raises(sub) {
          errors := errors + [sub];
        }
        i := i + 1;
      }
      assert subscribers[..|subscribers|] == subscribers;
    }

    /**
     * `dispatch`: run the pipeline; when the result differs from the current state, install it
     * and notify every subscriber, otherwise notify no one. The new current state is returned.
     */
    method Dispatch(action: Action, now: Stamp, raises: Subscriber -> bool)
      returns (r: ConversationState, notified: seq<Subscriber>, errors: seq<Subscriber>)
      modifies this
      ensures state == RunChain(middleware, old(state), action, now) && r == state
      ensures subscribers == old(subscribers)
      ensures state != old(state) ==> notified == subscribers && errors == PySeq.Filter(subscribers, raises)
      ensures state == old(state) ==> notified == [] && errors == []
    {
      var next := RunChain(middleware, state, action, now);
      notified, errors := [], [];
      if next != state {
        state := next;
        notified, errors := NotifySubscribers(raises);
      }
      r := state;
    }

    method Reset(newState: ConversationState)
      modifies this
      ensures state == newState && subscribers == old(subscribers)
    {
      state := newState;
    }
  }

  /** A dispatch through the default pipeline never leaves a negative token count behind a valid one. */
  lemma DispatchKeepsTokensNonNegative(state: ConversationState, action: Action, now: Stamp)
    requires ValidState(state)
    ensures ValidState(RunChain(DefaultChain, state, action, now))
  {
    DefaultChainSpec(state, action, now);
  }
}

/**
 * Token counting. A counter is any function from a message to its cost (the pluggable
 * `TokenCounter` interface); the simple counter charges 1.3 tokens per whitespace-separated
 * word, rounded down, and for a message adds a fixed framing overhead plus the cost of its
 * metadata and tool calls.
 */
module Tokens {
  import opened Wrappers
  import opened State
  import PyText

  /** Tokens charged for the role framing of every message. */
  const RoleTokens := 2

  /** `int(words * 1.3)` */
  function CountTokens(text: string): (n: nat)
    ensures 10 * n <= 13 * PyText.WordCount(text) < 10 * n + 10
    ensures n == 0 <==> PyText.WordCount(text) == 0
  {
    PyText.WordCount(text) * 13 / 10
  }

  /** The summed cost of the rendered metadata values. */
  function MetadataTokens(items: seq<(string, Value)>): nat {
    if items == [] then 0
    else CountTokens(Str(items[0].1)) + MetadataTokens(items[1..])
  }

  /** The summed cost of the rendered tool calls; none when the list is missing or empty. */
  function ToolCallTokens(calls: seq<Value>): nat {
    if calls == [] then 0
    else CountTokens(Str(calls[0])) + ToolCallTokens(calls[1..])
  }

  /** `SimpleTokenCounter.count_message_tokens` */
  function MessageTokens(m: Message): (n: nat)
    ensures n >= RoleTokens + CountTokens(m.content)
    ensures m.metadata == [] && (m.toolCalls.None? || m.toolCalls.value == []) ==>
      n == CountTokens(m.content) + RoleTokens
  {
    var toolTokens := if m.toolCalls.Some? then ToolCallTokens(m.toolCalls.value) else 0;
    CountTokens(m.content) + RoleTokens + MetadataTokens(m.metadata) + toolTokens
  }

  /** A token counter: the cost it charges for a message. */
  type Counter = Message -> nat

  /** `sum(count(m) for m in ms)` */
  function Total(count: Counter, ms: seq<Message>): nat {
    if ms == [] then 0 else count(ms[0]) + Total(count, ms[1..])
  }

  lemma {:induction false} TotalAppend(count: Counter, a: seq<Message>, b: seq<Message>)
    ensures Total(count, a + b) == Total(count, a) + Total(count, b)
  {
    if a == [] {
      assert a + b == b;
    } else {
      assert (a + b)[1..] == a[1..] + b;
      TotalAppend(count, a[1..], b);
    }
  }

  lemma TotalSingle(count: Counter, m: Message)
    ensures Total(count, [m]) == count(m)
  {
    assert [m][1..] == [];
  }

  /** Taking one message out of a list takes its cost out of the total. */
  lemma TotalRemove(count: Counter, b: seq<Message>, i: nat)
    requires i < |b|
    ensures Total(count, b) == count(b[i]) + Total(count, b[..i] + b[i + 1..])
  {
    var pre, post := b[..i], b[i + 1..];
    var tail := [b[i]] + post;
    assert Total(count, b) == Total(count, pre) + Total(count, tail) by {
      assert b == pre + tail;
      TotalAppend(count, pre, tail);
    }
    assert Total(count, tail) == count(b[i]) + Total(count, post) by {
      TotalAppend(count, [b[i]], post);
      TotalSingle(count, b[i]);
    }
    TotalAppend(count, pre, post);
  }

  /** Taking one element out of a list takes it out of the multiset. */
  lemma MultisetRemove(b: seq<Message>, i: nat)
    requires i < |b|
    ensures multiset(b[..i] + b[i + 1..]) == multiset(b) - multiset{b[i]}
  {
    assert b == b[..i] + [b[i]] + b[i + 1..];
  }

  /** Reordering a message list does not change its cost. */
  lemma {:induction false} TotalPermutation(count: Counter, a: seq<Message>, b: seq<Message>)
    requires multiset(a) == multiset(b)
    ensures Total(count, a) == Total(count, b)
    decreases |a|
  {
    if a == [] {
      assert |b| == |multiset(b)| == 0;
    } else {
      var x := a[0];
      assert x in multiset(b);
      var i :| 0 <= i < |b| && b[i] == x;
      var rest := b[..i] + b[i + 1..];
      MultisetRemove(b, i);
      assert a == [x] + a[1..];
      assert multiset(a[1..]) == multiset(a) - multiset{x};
      TotalPermutation(count, a[1..], rest);
      TotalRemove(count, b, i);
    }
  }

  /** A suffix of a list never costs more than the list. */
  lemma SuffixCostsLess(count: Counter, ms: seq<Message>, i: nat)
    requires i <= |ms|
    ensures Total(count, ms[i..]) <= Total(count, ms)
  {
    assert ms == ms[..i] + ms[i..];
    TotalAppend(count, ms[..i], ms[i..]);
  }

  /** Under the simple counter every message costs at least its 2 framing tokens. */
  lemma {:induction false} SimpleTotalAtLeastFraming(ms: seq<Message>)
    ensures Total(MessageTokens, ms) >= RoleTokens * |ms|
  {
    if ms != [] {
      SimpleTotalAtLeastFraming(ms[1..]);
    }
  }

  /** The accounting invariant: the window's count is the cost of the messages it holds. */
  predicate TokensConsistent(count: Counter, s: ConversationState) {
    s.contextWindow.currentTokens == Total(count, s.messages)
  }

  /** Charging a message its own cost keeps the accounting invariant. */
  lemma AddMessageKeepsAccounting(count: Counter, s: ConversationState, m: Message, now: Stamp)
    requires TokensConsistent(count, s)
    ensures TokensConsistent(count, s.AddMessage(m, count(m), now))
  {
    TotalAppend(count, s.messages, [m]);
    TotalSingle(count, m);
  }
}

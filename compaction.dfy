/**
 * The conversation compactor: given a message list, a token target and a named strategy,
 * it chooses which messages survive. Three strategies are registered: `chronological`,
 * `semantic` (which is chronological under another name) and `tool_context`.
 *
 * Each strategy is specified by a function on the message list, and implemented by a
 * method that runs the source's loops and is proved equal to it. The lemmas state what the
 * strategies promise, and also where, as written, they do something else than the names
 * suggest (a system message kept twice, a middle slice that is off when the system messages
 * are not at the front).
 */
module Compaction {
  import opened Wrappers
  import opened State
  import opened Tokens
  import PySeq
  import PyText

  /** Compaction configuration. `priority` and `preserveToolResults` are advisory: no strategy reads them. */
  datatype CompactionStrategy = CompactionStrategy(
    name: string,
    priority: int,
    preserveRecentMessages: int,
    preserveSystemMessages: bool,
    preserveToolResults: bool,
    maxCompactionRatio: Fraction)

  /** What a compaction reports. The float `compaction_ratio` is not part of this model. */
  datatype CompactionResult = CompactionResult(
    originalMessages: seq<Message>,
    compactedMessages: seq<Message>,
    tokensSaved: int,
    strategyUsed: string)

  /** The names the compactor has a strategy for. */
  const StrategyNames: set<string> := {"chronological", "semantic", "tool_context"}

  predicate EndsWith(r: seq<Message>, suffix: seq<Message>) {
    |suffix| <= |r| && r[|r| - |suffix|..] == suffix
  }

  // ---------------------------------------------------------------------------------------
  // The greedy newest-first scan shared by both real strategies

  /**
   * How many of the newest candidates the scan keeps: it walks from the newest candidate
   * towards the oldest, keeps each one whose cost still fits the budget left, and stops at
   * the first one that does not.
   */
  function FitCount(count: Counter, cands: seq<Message>, budget: int): (n: nat)
    ensures n <= |cands|
    decreases |cands|
  {
    if cands == [] then 0
    else
      var t := count(cands[|cands| - 1]);
      if t <= budget then 1 + FitCount(count, cands[..|cands| - 1], budget - t) else 0
  }

  /** The candidates the scan keeps, oldest first. */
  function NewestFitting(count: Counter, cands: seq<Message>, budget: int): (sel: seq<Message>)
    ensures |sel| <= |cands|
  {
    cands[|cands| - FitCount(count, cands, budget)..]
  }

  /** The last `n` candidates cost the last candidate plus the `n - 1` before it. */
  lemma SuffixCost(count: Counter, cands: seq<Message>, n: nat)
    requires 0 < n <= |cands|
    ensures Total(count, cands[|cands| - n..])
         == Total(count, cands[..|cands| - 1][|cands| - n..]) + count(cands[|cands| - 1])
  {
    var last := cands[|cands| - 1];
    var init := cands[..|cands| - 1];
    assert cands[|cands| - n..] == init[|cands| - n..] + [last];
    TotalAppend(count, init[|cands| - n..], [last]);
    TotalSingle(count, last);
  }

  /** The kept run fits the budget, unless it is empty (then a negative budget is possible). */
  lemma {:induction false} NewestFittingFits(count: Counter, cands: seq<Message>, budget: int)
    ensures var sel := NewestFitting(count, cands, budget);
      && (sel == [] || Total(count, sel) <= budget)
      && (0 <= budget ==> Total(count, sel) <= budget)
    decreases |cands|
  {
    var n := FitCount(count, cands, budget);
    if n > 0 {
      var init := cands[..|cands| - 1];
      var t := count(cands[|cands| - 1]);
      NewestFittingFits(count, init, budget - t);
      SuffixCost(count, cands, n);
      assert init[|init| - (n - 1)..] == init[|cands| - n..];
    }
  }

  /** The kept run is maximal: when it is not every candidate, adding the next older one would overflow. */
  lemma {:induction false} NewestFittingMaximal(count: Counter, cands: seq<Message>, budget: int)
    ensures var sel := NewestFitting(count, cands, budget);
      |sel| < |cands| ==> budget < Total(count, sel) + count(cands[|cands| - |sel| - 1])
    decreases |cands|
  {
    var n := FitCount(count, cands, budget);
    if n > 0 && n < |cands| {
      var init := cands[..|cands| - 1];
      var t := count(cands[|cands| - 1]);
      NewestFittingMaximal(count, init, budget - t);
      SuffixCost(count, cands, n);
      assert init[|init| - (n - 1)..] == init[|cands| - n..];
      assert cands[|cands| - n - 1] == init[|init| - (n - 1) - 1];
    } else if n == 0 && cands != [] {
      assert cands[|cands| - 0..] == [];
    }
  }

  /**
   * `for msg in reversed(cands): if current + tokens <= budget: selected.insert(0, msg) ... else: break`
   */
  method SelectNewestFitting(count: Counter, cands: seq<Message>, budget: int) returns (selected: seq<Message>)
    ensures selected == NewestFitting(count, cands, budget)
  {
    selected := [];
    var current := 0;
    var i := |cands|;
    assert cands[..i] == cands;
    while i > 0
      invariant 0 <= i <= |cands|
      invariant selected == cands[i..]
      invariant current == Total(count, selected)
      invariant FitCount(count, cands, budget) == |cands| - i + FitCount(count, cands[..i], budget - current)
    {
      var msg := cands[i - 1];
      var msgTokens := count(msg);
      assert cands[..i][..i - 1] == cands[..i - 1];
      if current + msgTokens <= budget {
        TotalAppend(count, [msg], selected);
        assert cands[i - 1..] == [msg] + cands[i..];
        selected := [msg] + selected;
        current := current + msgTokens;
        i := i - 1;
      } else {
        break;
      }
    }
  }

  // ---------------------------------------------------------------------------------------
  // chronological

  function KeptSystem(preserveSystem: bool): Message -> bool {
    (m: Message) => m.role == System && preserveSystem
  }

  /** `[m for m in ms if m.role == SYSTEM and preserve_system_messages]` */
  function SystemMessages(ms: seq<Message>, preserveSystem: bool): seq<Message> {
    PySeq.Filter(ms, KeptSystem(preserveSystem))
  }

  /** `ms[-k:]`, which for `k == 0` is the whole list. */
  function Recent(ms: seq<Message>, k: int): seq<Message> {
    PySeq.SliceFrom(ms, -k)
  }

  /** `ms[len(system):-k]`, which assumes the system messages are the first ones. */
  function Middle(ms: seq<Message>, system: seq<Message>, k: int): seq<Message> {
    PySeq.Slice(ms, |system|, -k)
  }

  /** The budget left for the middle once the kept system messages and the recent window are paid for. */
  function MiddleBudget(count: Counter, ms: seq<Message>, target: int, s: CompactionStrategy): int {
    target - Total(count, SystemMessages(ms, s.preserveSystemMessages)) - Total(count, Recent(ms, s.preserveRecentMessages))
  }

  /** The chronological strategy. */
  function Chronological(count: Counter, ms: seq<Message>, target: int, s: CompactionStrategy): (r: seq<Message>)
    ensures |ms| <= s.preserveRecentMessages ==> r == ms
  {
    if |ms| <= s.preserveRecentMessages then ms
    else if MiddleBudget(count, ms, target, s) <= 0 then
      SystemMessages(ms, s.preserveSystemMessages) + Recent(ms, s.preserveRecentMessages)
    else
      SystemMessages(ms, s.preserveSystemMessages)
        + NewestFitting(count, Middle(ms, SystemMessages(ms, s.preserveSystemMessages), s.preserveRecentMessages),
                        MiddleBudget(count, ms, target, s))
        + Recent(ms, s.preserveRecentMessages)
  }

  /** Unfolds `Chronological` branch by branch once the recent window does not cover the whole list; not a
      property of its own (those are `ChronologicalFits` and `NewestFittingMaximal`). */
  lemma ChronologicalShape(count: Counter, ms: seq<Message>, target: int, s: CompactionStrategy)
    requires s.preserveRecentMessages < |ms|
    ensures MiddleBudget(count, ms, target, s) <= 0 ==>
      Chronological(count, ms, target, s) == SystemMessages(ms, s.preserveSystemMessages) + Recent(ms, s.preserveRecentMessages)
    ensures MiddleBudget(count, ms, target, s) > 0 ==>
      Chronological(count, ms, target, s) == SystemMessages(ms, s.preserveSystemMessages)
        + NewestFitting(count, Middle(ms, SystemMessages(ms, s.preserveSystemMessages), s.preserveRecentMessages),
                        MiddleBudget(count, ms, target, s))
        + Recent(ms, s.preserveRecentMessages)
  {
  }

  /** The chronological result assembled from its three blocks, as the method builds it. */
  lemma ChronologicalFromBlocks(count: Counter, ms: seq<Message>, target: int, s: CompactionStrategy,
                                system: seq<Message>, selected: seq<Message>, recent: seq<Message>)
    requires s.preserveRecentMessages < |ms|
    requires system == SystemMessages(ms, s.preserveSystemMessages)
    requires recent == Recent(ms, s.preserveRecentMessages)
    requires MiddleBudget(count, ms, target, s) <= 0 ==> selected == []
    requires MiddleBudget(count, ms, target, s) > 0 ==>
      selected == NewestFitting(count, Middle(ms, system, s.preserveRecentMessages), MiddleBudget(count, ms, target, s))
    ensures Chronological(count, ms, target, s) == system + selected + recent
  {
    ChronologicalShape(count, ms, target, s);
    if MiddleBudget(count, ms, target, s) <= 0 {
      assert system + selected == system;
    }
  }

  method ChronologicalCompaction(count: Counter, ms: seq<Message>, target: int, s: CompactionStrategy) returns (r: seq<Message>)
    ensures r == Chronological(count, ms, target, s)
  {
    if |ms| <= s.preserveRecentMessages {
      return ms;
    }
    var system := SystemMessages(ms, s.preserveSystemMessages);
    var recent := Recent(ms, s.preserveRecentMessages);
    var systemTokens := Total(count, system);
    var recentTokens := Total(count, recent);
    var remaining := target - systemTokens - recentTokens;
    if remaining <= 0 {
      ChronologicalFromBlocks(count, ms, target, s, system, [], recent);
      return system + [] + recent;
    }
    var middle := Middle(ms, system, s.preserveRecentMessages);
    var selected := SelectNewestFitting(count, middle, remaining);
    ChronologicalFromBlocks(count, ms, target, s, system, selected, recent);
    r := system + selected + recent;
  }

  /** The `semantic` strategy is the chronological one under another name. */
  method SemanticCompaction(count: Counter, ms: seq<Message>, target: int, s: CompactionStrategy) returns (r: seq<Message>)
    ensures r == Chronological(count, ms, target, s)
  {
    r := ChronologicalCompaction(count, ms, target, s);
  }

  /** The result always ends with the last `k` messages, `ms[-k:]`. */
  lemma ChronologicalKeepsRecent(count: Counter, ms: seq<Message>, target: int, s: CompactionStrategy)
    ensures EndsWith(Chronological(count, ms, target, s), Recent(ms, s.preserveRecentMessages))
  {
    var k := s.preserveRecentMessages;
    var recent := Recent(ms, k);
    if |ms| <= k {
      PySeq.LastElements(ms, k);
      assert recent == ms;
    } else {
      ChronologicalShape(count, ms, target, s);
      var system := SystemMessages(ms, s.preserveSystemMessages);
      var budget := MiddleBudget(count, ms, target, s);
      var sel := if budget <= 0 then [] else NewestFitting(count, Middle(ms, system, k), budget);
      assert Chronological(count, ms, target, s) == (system + sel) + recent;
    }
  }

  /** With no budget left after the system and recent messages, exactly those two blocks survive. */
  lemma ChronologicalNoBudget(count: Counter, ms: seq<Message>, target: int, s: CompactionStrategy)
    requires s.preserveRecentMessages < |ms|
    requires target - Total(count, SystemMessages(ms, s.preserveSystemMessages))
                    - Total(count, Recent(ms, s.preserveRecentMessages)) <= 0
    ensures Chronological(count, ms, target, s)
      == SystemMessages(ms, s.preserveSystemMessages) + Recent(ms, s.preserveRecentMessages)
  {
    ChronologicalShape(count, ms, target, s);
  }

  /** When there is budget left after the system and recent messages, the result fits the target. */
  lemma ChronologicalFits(count: Counter, ms: seq<Message>, target: int, s: CompactionStrategy)
    requires s.preserveRecentMessages < |ms|
    requires target - Total(count, SystemMessages(ms, s.preserveSystemMessages))
                    - Total(count, Recent(ms, s.preserveRecentMessages)) > 0
    ensures Total(count, Chronological(count, ms, target, s)) <= target
  {
    ChronologicalShape(count, ms, target, s);
    var system := SystemMessages(ms, s.preserveSystemMessages);
    var recent := Recent(ms, s.preserveRecentMessages);
    var middle := Middle(ms, system, s.preserveRecentMessages);
    var budget := MiddleBudget(count, ms, target, s);
    var sel := NewestFitting(count, middle, budget);
    NewestFittingFits(count, middle, budget);
    TotalAppend(count, system + sel, recent);
    TotalAppend(count, system, sel);
  }

  /** The kept system messages of a list whose system messages are exactly its first `p`. */
  lemma SystemPrefix(ms: seq<Message>, p: nat)
    requires p <= |ms|
    requires forall i :: 0 <= i < p ==> ms[i].role == System
    requires forall i :: p <= i < |ms| ==> ms[i].role != System
    ensures SystemMessages(ms, true) == ms[..p]
  {
    var head, tail := ms[..p], ms[p..];
    assert PySeq.Filter(head, KeptSystem(true)) == head by {
      PySeq.FilterAllOrNone(head, KeptSystem(true));
    }
    assert PySeq.Filter(tail, KeptSystem(true)) == [] by {
      PySeq.FilterAllOrNone(tail, KeptSystem(true));
    }
    assert ms == head + tail;
    PySeq.FilterAppend(head, tail, KeptSystem(true));
  }

  /**
   * When the kept system messages are exactly the first `p` messages and the recent window
   * starts after them, nothing is duplicated or reordered: the result is the system prefix
   * followed by a contiguous tail of the conversation, so it never costs more than the input.
   */
  lemma ChronologicalSystemPrefix(count: Counter, ms: seq<Message>, target: int, s: CompactionStrategy, p: nat)
    requires s.preserveSystemMessages
    requires 0 < s.preserveRecentMessages && p + s.preserveRecentMessages <= |ms|
    requires forall i :: 0 <= i < p ==> ms[i].role == System
    requires forall i :: p <= i < |ms| ==> ms[i].role != System
    ensures exists j :: (p <= j <= |ms| - s.preserveRecentMessages
                         && Chronological(count, ms, target, s) == ms[..p] + ms[j..])
    ensures Total(count, Chronological(count, ms, target, s)) <= Total(count, ms)
  {
    var k := s.preserveRecentMessages;
    var n := |ms|;
    var r := Chronological(count, ms, target, s);
    var j: nat;
    if n <= k {
      j := p;
      assert r == ms[..p] + ms[j..] by {
        assert p == 0;
        assert ms[..p] + ms[j..] == ms;
      }
    } else {
      var sel;
      j, sel := PrefixTailBlocks(count, ms, p, k, MiddleBudget(count, ms, target, s));
      assert r == ms[..p] + ms[j..] by {
        SystemPrefix(ms, p);
        PySeq.LastElements(ms, k);
        ChronologicalFromBlocks(count, ms, target, s, ms[..p], sel, ms[n - k..]);
      }
    }
    assert p <= j <= n - k && r == ms[..p] + ms[j..];
    PrefixAndTailCostLess(count, ms, p, j);
  }

  /** When the system messages are the first `p`, the middle block is a run that ends where the recent window starts. */
  lemma PrefixTailBlocks(count: Counter, ms: seq<Message>, p: nat, k: int, budget: int) returns (j: nat, sel: seq<Message>)
    requires 0 < k && p + k <= |ms|
    ensures p <= j <= |ms| - k
    ensures budget <= 0 ==> sel == []
    ensures budget > 0 ==> sel == NewestFitting(count, Middle(ms, ms[..p], k), budget)
    ensures ms[..p] + sel + ms[|ms| - k..] == ms[..p] + ms[j..]
  {
    var n := |ms|;
    if budget <= 0 {
      j, sel := n - k, [];
    } else {
      var middle := Middle(ms, ms[..p], k);
      assert middle == ms[p..n - k];
      j := n - k - FitCount(count, middle, budget);
      sel := NewestFitting(count, middle, budget);
      assert sel == ms[j..n - k];
    }
    assert ms[j..] == sel + ms[n - k..];
  }

  /** Dropping a run `ms[p..j]` from the middle never costs more. */
  lemma PrefixAndTailCostLess(count: Counter, ms: seq<Message>, p: nat, j: nat)
    requires p <= j <= |ms|
    ensures Total(count, ms[..p] + ms[j..]) <= Total(count, ms)
  {
    assert ms == ms[..p] + ms[p..j] + ms[j..];
    TotalAppend(count, ms[..p] + ms[p..j], ms[j..]);
    TotalAppend(count, ms[..p], ms[p..j]);
    TotalAppend(count, ms[..p], ms[j..]);
  }

  /** `ms[-0:]` is the whole list: with no recent window, every message is kept and the system ones twice. */
  lemma ChronologicalZeroRecent(count: Counter, ms: seq<Message>, target: int, s: CompactionStrategy)
    requires s.preserveRecentMessages == 0 && ms != []
    ensures Chronological(count, ms, target, s) == SystemMessages(ms, s.preserveSystemMessages) + ms
  {
    PySeq.LastElements(ms, 0);
    ChronologicalShape(count, ms, target, s);
    var system := SystemMessages(ms, s.preserveSystemMessages);
    assert Middle(ms, system, 0) == [];
  }

  /** A kept system message that is also among the last `k` messages appears twice in the result. */
  lemma ChronologicalRepeatsRecentSystem(count: Counter, ms: seq<Message>, target: int, s: CompactionStrategy)
    requires s.preserveSystemMessages
    requires 0 < s.preserveRecentMessages < |ms|
    requires ms[|ms| - 1].role == System
    ensures multiset(Chronological(count, ms, target, s))[ms[|ms| - 1]] >= 2
  {
    var last := ms[|ms| - 1];
    var k := s.preserveRecentMessages;
    var system := SystemMessages(ms, true);
    assert multiset(system)[last] >= 1 by {
      PySeq.FilterKeeps(ms, KeptSystem(true), |ms| - 1);
    }
    var recent := Recent(ms, k);
    assert multiset(recent)[last] >= 1 by {
      PySeq.LastElements(ms, k);
      assert recent[|recent| - 1] == last;
    }
    var budget := MiddleBudget(count, ms, target, s);
    var sel := if budget <= 0 then [] else NewestFitting(count, Middle(ms, system, k), budget);
    ChronologicalFromBlocks(count, ms, target, s, system, sel, recent);
    assert multiset(system + sel + recent) == multiset(system) + multiset(sel) + multiset(recent);
  }

  /** A message with empty content and no metadata or tool calls. */
  function Bare(id: string, role: Role, at: Stamp): (m: Message)
    ensures MessageTokens(m) == RoleTokens
  {
    assert PyText.AllSpace("");
    Message(id, role, "", at, [], None)
  }

  /**
   * As written, `tokens_saved` can be negative: a system message that is also the most recent
   * one is kept twice, so the result costs more than the input.
   */
  lemma ChronologicalCanGrow()
    ensures var ms := [Bare("s1", System, 0), Bare("s2", System, 1)];
      Total(MessageTokens, Chronological(MessageTokens, ms, 0, CompactionStrategy("chronological", 1, 1, true, true, Fraction(7, 10))))
        > Total(MessageTokens, ms)
  {
    var s1, s2 := Bare("s1", System, 0), Bare("s2", System, 1);
    var ms := [s1, s2];
    var s := CompactionStrategy("chronological", 1, 1, true, true, Fraction(7, 10));
    SystemPrefix(ms, 2);
    assert ms[..2] == ms;
    PySeq.LastElements(ms, 1);
    assert Recent(ms, 1) == [s2];
    ChronologicalShape(MessageTokens, ms, 0, s);
    assert Chronological(MessageTokens, ms, 0, s) == [s1, s2, s2];
  }

  /**
   * As written, the middle slice starts at index `len(system)` even when the system message
   * is not first: here it re-selects the system message and never considers the oldest user
   * message, although the budget would hold it.
   */
  lemma ChronologicalMisalignedMiddle()
    ensures var u1, sy, u2, u3 := Bare("u1", User, 0), Bare("s", System, 1), Bare("u2", User, 2), Bare("u3", User, 3);
      Chronological(MessageTokens, [u1, sy, u2, u3], 100, CompactionStrategy("chronological", 1, 1, true, true, Fraction(7, 10)))
        == [sy, sy, u2, u3]
  {
    var u1, sy, u2, u3 := Bare("u1", User, 0), Bare("s", System, 1), Bare("u2", User, 2), Bare("u3", User, 3);
    var ms := [u1, sy, u2, u3];
    var s := CompactionStrategy("chronological", 1, 1, true, true, Fraction(7, 10));
    MisalignedOuterBlocks(u1, sy, u2, u3);
    assert MiddleBudget(MessageTokens, ms, 100, s) == 96 by {
      TotalSingle(MessageTokens, sy);
      TotalSingle(MessageTokens, u3);
    }
    MisalignedMiddleBlock(sy, u2, ms);
    ChronologicalFromBlocks(MessageTokens, ms, 100, s, [sy], [sy, u2], [u3]);
    assert [sy] + [sy, u2] + [u3] == [sy, sy, u2, u3];
  }

  lemma MisalignedOuterBlocks(u1: Message, sy: Message, u2: Message, u3: Message)
    requires sy.role == System && u1.role == User && u2.role == User && u3.role == User
    ensures SystemMessages([u1, sy, u2, u3], true) == [sy]
    ensures Recent([u1, sy, u2, u3], 1) == [u3]
  {
    var ms := [u1, sy, u2, u3];
    assert ms == [u1] + [sy] + [u2, u3];
    PySeq.FilterAppend([u1] + [sy], [u2, u3], KeptSystem(true));
    PySeq.FilterAppend([u1], [sy], KeptSystem(true));
    PySeq.FilterAllOrNone([u2, u3], KeptSystem(true));
    PySeq.LastElements(ms, 1);
  }

  lemma MisalignedMiddleBlock(sy: Message, u2: Message, ms: seq<Message>)
    requires |ms| == 4 && ms[1] == sy && ms[2] == u2
    requires MessageTokens(sy) == RoleTokens && MessageTokens(u2) == RoleTokens
    ensures NewestFitting(MessageTokens, Middle(ms, [sy], 1), 96) == [sy, u2]
  {
    assert Middle(ms, [sy], 1) == [sy, u2];
    assert FitCount(MessageTokens, [sy, u2], 96) == 2 by {
      assert [sy, u2][..1] == [sy];
      assert [sy][..0] == [];
    }
  }

  // ---------------------------------------------------------------------------------------
  // Stable sort by timestamp (Python's `sorted(..., key=lambda m: m.timestamp)`)

  predicate SortedByTimestamp(ms: seq<Message>) {
    forall i, j :: 0 <= i < j < |ms| ==> ms[i].timestamp <= ms[j].timestamp
  }

  /** No message of `ms` is older than `t`. */
  predicate NotOlderThan(ms: seq<Message>, t: Stamp) {
    forall i :: 0 <= i < |ms| ==> t <= ms[i].timestamp
  }

  /** Insert `m` before the first message that is not older than it. */
  function InsertByTimestamp(m: Message, ms: seq<Message>): (r: seq<Message>)
    ensures |r| == |ms| + 1
  {
    if ms == [] || m.timestamp <= ms[0].timestamp then [m] + ms
    else [ms[0]] + InsertByTimestamp(m, ms[1..])
  }

  lemma {:induction false} InsertPermutation(m: Message, ms: seq<Message>)
    ensures multiset(InsertByTimestamp(m, ms)) == multiset(ms) + multiset{m}
  {
    if ms != [] && m.timestamp > ms[0].timestamp {
      InsertPermutation(m, ms[1..]);
      assert ms == [ms[0]] + ms[1..];
    }
  }

  lemma {:induction false} InsertNotOlder(m: Message, ms: seq<Message>, t: Stamp)
    requires NotOlderThan(ms, t) && t <= m.timestamp
    ensures NotOlderThan(InsertByTimestamp(m, ms), t)
  {
    if ms != [] && m.timestamp > ms[0].timestamp {
      var rest := InsertByTimestamp(m, ms[1..]);
      InsertNotOlder(m, ms[1..], t);
      assert InsertByTimestamp(m, ms) == [ms[0]] + rest;
    }
  }

  lemma {:induction false} InsertSorted(m: Message, ms: seq<Message>)
    requires SortedByTimestamp(ms)
    ensures SortedByTimestamp(InsertByTimestamp(m, ms))
  {
    if ms != [] && m.timestamp > ms[0].timestamp {
      var rest := InsertByTimestamp(m, ms[1..]);
      var r := [ms[0]] + rest;
      assert InsertByTimestamp(m, ms) == r;
      InsertSorted(m, ms[1..]);
      assert NotOlderThan(rest, ms[0].timestamp) by {
        InsertNotOlder(m, ms[1..], ms[0].timestamp);
      }
      forall i, j | 0 <= i < j < |r| ensures r[i].timestamp <= r[j].timestamp {
        if i == 0 {
          assert r[j] == rest[j - 1];
        } else {
          assert r[i] == rest[i - 1] && r[j] == rest[j - 1];
        }
      }
    } else {
      var r := [m] + ms;
      forall i, j | 0 <= i < j < |r| ensures r[i].timestamp <= r[j].timestamp {
        if i > 0 {
          assert r[i] == ms[i - 1] && r[j] == ms[j - 1];
        } else if j > 1 {
          assert ms[0].timestamp <= ms[j - 1].timestamp;
        }
      }
    }
  }

  /** Insertion sort by timestamp. */
  function SortByTimestamp(ms: seq<Message>): (r: seq<Message>)
    ensures |r| == |ms|
  {
    if ms == [] then [] else InsertByTimestamp(ms[0], SortByTimestamp(ms[1..]))
  }

  /** The sort returns its input in timestamp order: sorted, and a permutation. */
  lemma {:induction false} SortByTimestampSpec(ms: seq<Message>)
    ensures SortedByTimestamp(SortByTimestamp(ms))
    ensures multiset(SortByTimestamp(ms)) == multiset(ms)
  {
    if ms != [] {
      var x, tail := ms[0], ms[1..];
      var rest := SortByTimestamp(tail);
      assert SortByTimestamp(ms) == InsertByTimestamp(x, rest);
      SortByTimestampSpec(tail);
      InsertSorted(x, rest);
      InsertPermutation(x, rest);
      assert multiset(ms) == multiset(tail) + multiset{x} by {
        assert ms == [x] + tail;
      }
    }
  }

  function AtTime(t: Stamp): Message -> bool {
    (m: Message) => m.timestamp == t
  }

  lemma {:induction false} InsertStable(m: Message, ms: seq<Message>, t: Stamp)
    requires SortedByTimestamp(ms)
    ensures PySeq.Filter(InsertByTimestamp(m, ms), AtTime(t))
         == PySeq.Filter([m], AtTime(t)) + PySeq.Filter(ms, AtTime(t))
  {
    if ms == [] || m.timestamp <= ms[0].timestamp {
      PySeq.FilterAppend([m], ms, AtTime(t));
    } else {
      var head, tail := [ms[0]], ms[1..];
      var rest := InsertByTimestamp(m, tail);
      InsertStable(m, tail, t);
      PySeq.FilterAppend(head, rest, AtTime(t));
      assert ms == head + tail;
      PySeq.FilterAppend(head, tail, AtTime(t));
      if m.timestamp == t {
        assert ms[0].timestamp < t;
        assert PySeq.Filter(head, AtTime(t)) == [] by {
          assert head[1..] == [];
        }
      }
    }
  }

  /**
   * The sort is stable: the messages that share a timestamp keep their relative order. With
   * `SortByTimestampSpec` (sorted, a permutation) this pins the result down to
   * what Python's stable `sorted` returns.
   */
  lemma {:induction false} SortStable(ms: seq<Message>, t: Stamp)
    ensures PySeq.Filter(SortByTimestamp(ms), AtTime(t)) == PySeq.Filter(ms, AtTime(t))
  {
    if ms != [] {
      var head, tail := [ms[0]], ms[1..];
      var rest := SortByTimestamp(tail);
      SortStable(tail, t);
      SortByTimestampSpec(tail);
      InsertStable(ms[0], rest, t);
      assert ms == head + tail;
      PySeq.FilterAppend(head, tail, AtTime(t));
    }
  }

  // ---------------------------------------------------------------------------------------
  // tool_context

  /** A tool result, a message that carries tool calls, or a system message when those are preserved. */
  predicate IsImportant(m: Message, preserveSystem: bool) {
    || m.role == Tool
    || (m.toolCalls.Some? && m.toolCalls.value != [])
    || (m.role == System && preserveSystem)
  }

  function Important(preserveSystem: bool): Message -> bool {
    (m: Message) => IsImportant(m, preserveSystem)
  }

  function Regular(preserveSystem: bool): Message -> bool {
    (m: Message) => !IsImportant(m, preserveSystem)
  }

  /** The important messages, in their original order. */
  function ImportantOf(ms: seq<Message>, preserveSystem: bool): seq<Message> {
    PySeq.Filter(ms, Important(preserveSystem))
  }

  /** The other messages, in their original order. */
  function RegularOf(ms: seq<Message>, preserveSystem: bool): seq<Message> {
    PySeq.Filter(ms, Regular(preserveSystem))
  }

  /** The tool_context strategy. */
  function ToolContext(count: Counter, ms: seq<Message>, target: int, s: CompactionStrategy): seq<Message> {
    var important := ImportantOf(ms, s.preserveSystemMessages);
    var importantTokens := Total(count, important);
    if importantTokens >= target then Chronological(count, important, target, s)
    else SortByTimestamp(important + NewestFitting(count, RegularOf(ms, s.preserveSystemMessages), target - importantTokens))
  }

  /** The regular messages tool_context keeps when the important ones leave room. */
  function KeptRegular(count: Counter, ms: seq<Message>, target: int, preserveSystem: bool): seq<Message> {
    NewestFitting(count, RegularOf(ms, preserveSystem), target - Total(count, ImportantOf(ms, preserveSystem)))
  }

  /** Unfolds `ToolContext` when the important messages alone reach the target; not a property of its own
      (that is `ToolContextUnderBudget`). */
  lemma ToolContextOverShape(count: Counter, ms: seq<Message>, target: int, s: CompactionStrategy)
    requires Total(count, ImportantOf(ms, s.preserveSystemMessages)) >= target
    ensures ToolContext(count, ms, target, s) == Chronological(count, ImportantOf(ms, s.preserveSystemMessages), target, s)
  {
  }

  /** Unfolds `ToolContext` when the important messages leave room; not a property of its own
      (that is `ToolContextUnderBudget`). */
  lemma ToolContextUnderShape(count: Counter, ms: seq<Message>, target: int, s: CompactionStrategy)
    requires Total(count, ImportantOf(ms, s.preserveSystemMessages)) < target
    ensures ToolContext(count, ms, target, s)
         == SortByTimestamp(ImportantOf(ms, s.preserveSystemMessages) + KeptRegular(count, ms, target, s.preserveSystemMessages))
  {
  }

  /** The classification loop: each message goes to the important or the regular list, in order. */
  method SplitImportant(ms: seq<Message>, preserveSystem: bool) returns (important: seq<Message>, regular: seq<Message>)
    ensures important == ImportantOf(ms, preserveSystem)
    ensures regular == RegularOf(ms, preserveSystem)
  {
    important, regular := [], [];
    var i := 0;
    while i < |ms|
      invariant 0 <= i <= |ms|
      invariant important == ImportantOf(ms[..i], preserveSystem)
      invariant regular == RegularOf(ms[..i], preserveSystem)
    {
      var msg := ms[i];
      assert ms[..i + 1] == ms[..i] + [msg];
      PySeq.FilterSnoc(ms[..i], msg, Important(preserveSystem));
      PySeq.FilterSnoc(ms[..i], msg, Regular(preserveSystem));
      if IsImportant(msg, preserveSystem) {
        important := important + [msg];
      } else {
        regular := regular + [msg];
      }
      i := i + 1;
    }
    assert ms[..|ms|] == ms;
  }

  method ToolContextCompaction(count: Counter, ms: seq<Message>, target: int, s: CompactionStrategy) returns (r: seq<Message>)
    ensures r == ToolContext(count, ms, target, s)
  {
    var important, regular := SplitImportant(ms, s.preserveSystemMessages);
    var importantTokens := Total(count, important);
    if importantTokens >= target {
      ToolContextOverShape(count, ms, target, s);
      r := ChronologicalCompaction(count, important, target, s);
    } else {
      ToolContextUnderShape(count, ms, target, s);
      var selected := SelectNewestFitting(count, regular, target - importantTokens);
      r := SortByTimestamp(important + selected);
    }
  }

  /** Every element of `ms` satisfies `P`. */
  predicate AllPass(ms: seq<Message>, P: Message -> bool) {
    forall i :: 0 <= i < |ms| ==> P(ms[i])
  }

  lemma AllPassConcat(a: seq<Message>, b: seq<Message>, c: seq<Message>, P: Message -> bool)
    requires AllPass(a, P) && AllPass(b, P) && AllPass(c, P)
    ensures AllPass(a + b + c, P)
  {
    var r := a + b + c;
    forall i | 0 <= i < |r| ensures P(r[i]) {
      if i < |a| {
        assert r[i] == a[i];
      } else if i < |a| + |b| {
        assert r[i] == b[i - |a|];
      } else {
        assert r[i] == c[i - |a| - |b|];
      }
    }
  }

  /** A contiguous piece of `ms` passes whatever all of `ms` passes. */
  lemma AllPassSlice(ms: seq<Message>, lo: nat, hi: nat, P: Message -> bool)
    requires lo <= hi <= |ms| && AllPass(ms, P)
    ensures AllPass(ms[lo..hi], P)
  {
    forall i | 0 <= i < hi - lo ensures P(ms[lo..hi][i]) {
      assert ms[lo..hi][i] == ms[lo + i];
    }
  }

  /** A filter keeps only elements that pass its test. */
  lemma AllPassFilter(ms: seq<Message>, p: Message -> bool, P: Message -> bool)
    requires AllPass(ms, P)
    ensures AllPass(PySeq.Filter(ms, p), P)
  {
    var f := PySeq.Filter(ms, p);
    PySeq.FilterSubMultiset(ms, p);
    forall i | 0 <= i < |f| ensures P(f[i]) {
      assert f[i] in multiset(ms);
    }
  }

  /** Each of the three chronological blocks is taken from the input list. */
  lemma BlocksPass(count: Counter, ms: seq<Message>, s: CompactionStrategy, budget: int, P: Message -> bool)
    requires AllPass(ms, P)
    ensures AllPass(SystemMessages(ms, s.preserveSystemMessages), P)
    ensures AllPass(Recent(ms, s.preserveRecentMessages), P)
    ensures AllPass(NewestFitting(count, Middle(ms, SystemMessages(ms, s.preserveSystemMessages), s.preserveRecentMessages), budget), P)
  {
    var k := s.preserveRecentMessages;
    var system := SystemMessages(ms, s.preserveSystemMessages);
    AllPassFilter(ms, KeptSystem(s.preserveSystemMessages), P);
    var recent := Recent(ms, k);
    AllPassSlice(ms, |ms| - |recent|, |ms|, P);
    var lo, hi := PySeq.Bound(|system|, |ms|), PySeq.Bound(-k, |ms|);
    var middle := Middle(ms, system, k);
    if lo <= hi {
      AllPassSlice(ms, lo, hi, P);
    }
    AllPassSlice(middle, |middle| - FitCount(count, middle, budget), |middle|, P);
  }

  /** Every message a chronological compaction returns comes from its input. */
  lemma ChronologicalKeepsProperty(count: Counter, ms: seq<Message>, target: int, s: CompactionStrategy, P: Message -> bool)
    requires AllPass(ms, P)
    ensures AllPass(Chronological(count, ms, target, s), P)
  {
    var k := s.preserveRecentMessages;
    if k < |ms| {
      var system := SystemMessages(ms, s.preserveSystemMessages);
      var recent := Recent(ms, k);
      var budget := MiddleBudget(count, ms, target, s);
      var sel := if budget <= 0 then [] else NewestFitting(count, Middle(ms, system, k), budget);
      BlocksPass(count, ms, s, budget, P);
      ChronologicalFromBlocks(count, ms, target, s, system, sel, recent);
      AllPassConcat(system, sel, recent, P);
    }
  }

  /** When the important messages alone reach the target, only they are compacted and every regular message is dropped. */
  lemma ToolContextOverBudget(count: Counter, ms: seq<Message>, target: int, s: CompactionStrategy)
    requires Total(count, ImportantOf(ms, s.preserveSystemMessages)) >= target
    ensures ToolContext(count, ms, target, s) == Chronological(count, ImportantOf(ms, s.preserveSystemMessages), target, s)
    ensures AllPass(ToolContext(count, ms, target, s), Important(s.preserveSystemMessages))
  {
    var important := ImportantOf(ms, s.preserveSystemMessages);
    ToolContextOverShape(count, ms, target, s);
    ChronologicalKeepsProperty(count, important, target, s, Important(s.preserveSystemMessages));
  }

  /** The sorted union of the important messages and the kept regular ones fits the target. */
  lemma KeptFits(count: Counter, important: seq<Message>, regular: seq<Message>, target: int)
    requires Total(count, important) < target
    ensures Total(count, SortByTimestamp(important + NewestFitting(count, regular, target - Total(count, important)))) <= target
  {
    var sel := NewestFitting(count, regular, target - Total(count, important));
    NewestFittingFits(count, regular, target - Total(count, important));
    SortByTimestampSpec(important + sel);
    TotalPermutation(count, SortByTimestamp(important + sel), important + sel);
    TotalAppend(count, important, sel);
  }

  /** Every important message of `ms` is among the sorted union. */
  lemma KeptImportant(ms: seq<Message>, preserveSystem: bool, sel: seq<Message>)
    ensures var r := SortByTimestamp(ImportantOf(ms, preserveSystem) + sel);
      forall i :: 0 <= i < |ms| && IsImportant(ms[i], preserveSystem) ==> ms[i] in r
  {
    var kept := ImportantOf(ms, preserveSystem) + sel;
    var r := SortByTimestamp(kept);
    SortByTimestampSpec(kept);
    forall i | 0 <= i < |ms| && IsImportant(ms[i], preserveSystem) ensures ms[i] in r {
      PySeq.FilterKeeps(ms, Important(preserveSystem), i);
      assert ms[i] in multiset(kept);
    }
  }

  /**
   * Otherwise every important message survives, the result is the important messages together
   * with the kept regular ones, in timestamp order, and it fits the target.
   */
  lemma ToolContextUnderBudget(count: Counter, ms: seq<Message>, target: int, s: CompactionStrategy)
    requires Total(count, ImportantOf(ms, s.preserveSystemMessages)) < target
    ensures SortedByTimestamp(ToolContext(count, ms, target, s))
    ensures multiset(ToolContext(count, ms, target, s))
         == multiset(ImportantOf(ms, s.preserveSystemMessages) + KeptRegular(count, ms, target, s.preserveSystemMessages))
    ensures Total(count, ToolContext(count, ms, target, s)) <= target
    ensures forall i :: 0 <= i < |ms| && IsImportant(ms[i], s.preserveSystemMessages) ==> ms[i] in ToolContext(count, ms, target, s)
  {
    var important := ImportantOf(ms, s.preserveSystemMessages);
    var kept := important + KeptRegular(count, ms, target, s.preserveSystemMessages);
    var r := SortByTimestamp(kept);
    assert ToolContext(count, ms, target, s) == r by {
      ToolContextUnderShape(count, ms, target, s);
    }
    SortByTimestampSpec(kept);
    KeptFits(count, important, RegularOf(ms, s.preserveSystemMessages), target);
    KeptImportant(ms, s.preserveSystemMessages, KeptRegular(count, ms, target, s.preserveSystemMessages));
  }

  /** The important and regular messages together cost what the whole list costs. */
  lemma SplitCost(count: Counter, ms: seq<Message>, preserveSystem: bool)
    ensures Total(count, ImportantOf(ms, preserveSystem)) + Total(count, RegularOf(ms, preserveSystem)) == Total(count, ms)
  {
    var important, regular := ImportantOf(ms, preserveSystem), RegularOf(ms, preserveSystem);
    PySeq.FilterPartition(ms, Important(preserveSystem), Regular(preserveSystem));
    TotalPermutation(count, important + regular, ms);
    TotalAppend(count, important, regular);
  }

  /** Sorting the important messages and a suffix of the regular ones costs no more than both lists. */
  lemma KeptCostsLess(count: Counter, important: seq<Message>, regular: seq<Message>, budget: int)
    ensures Total(count, SortByTimestamp(important + NewestFitting(count, regular, budget)))
         <= Total(count, important) + Total(count, regular)
  {
    var sel := NewestFitting(count, regular, budget);
    SortByTimestampSpec(important + sel);
    TotalPermutation(count, SortByTimestamp(important + sel), important + sel);
    TotalAppend(count, important, sel);
    SuffixCostsLess(count, regular, |regular| - |sel|);
  }

  /** Outside the fallback, tool_context never costs more than its input. */
  lemma ToolContextNeverGrows(count: Counter, ms: seq<Message>, target: int, s: CompactionStrategy)
    requires Total(count, ImportantOf(ms, s.preserveSystemMessages)) < target
    ensures Total(count, ToolContext(count, ms, target, s)) <= Total(count, ms)
  {
    var important := ImportantOf(ms, s.preserveSystemMessages);
    ToolContextUnderShape(count, ms, target, s);
    SplitCost(count, ms, s.preserveSystemMessages);
    KeptCostsLess(count, important, RegularOf(ms, s.preserveSystemMessages), target - Total(count, important));
  }

  // ---------------------------------------------------------------------------------------
  // The compactor

  /** The strategy registry lookup and call; `None` for a name that is not registered. */
  function ApplyStrategy(count: Counter, ms: seq<Message>, target: int, s: CompactionStrategy): (r: Option<seq<Message>>)
    ensures r.None? <==> s.name !in StrategyNames
  {
    if s.name == "chronological" || s.name == "semantic" then Some(Chronological(count, ms, target, s))
    else if s.name == "tool_context" then Some(ToolContext(count, ms, target, s))
    else None
  }

  /** `ConversationCompactor.compact`: run the named strategy and report the tokens it saved. */
  method Compact(count: Counter, ms: seq<Message>, target: int, s: CompactionStrategy) returns (r: Result<CompactionResult, string>)
    ensures r.Failure? <==> s.name !in StrategyNames
    ensures r.Failure? ==> r.error == "Unknown compaction strategy: " + s.name
    ensures r.Success? ==>
      && ApplyStrategy(count, ms, target, s) == Some(r.value.compactedMessages)
      && r.value.originalMessages == ms
      && r.value.tokensSaved == Total(count, ms) - Total(count, r.value.compactedMessages)
      && r.value.strategyUsed == s.name
  {
    if s.name !in StrategyNames {
      return Failure("Unknown compaction strategy: " + s.name);
    }
    var compacted: seq<Message>;
    if s.name == "chronological" {
      compacted := ChronologicalCompaction(count, ms, target, s);
    } else if s.name == "semantic" {
      compacted := SemanticCompaction(count, ms, target, s);
    } else {
      compacted := ToolContextCompaction(count, ms, target, s);
    }
    var originalTokens: int := Total(count, ms);
    var compactedTokens: int := Total(count, compacted);
    r := Success(CompactionResult(ms, compacted, originalTokens - compactedTokens, s.name));
  }
}

/** When one pass of dropping finished tool rounds leaves rounds for a second pass. */
module CompactionPasses {
  import opened Messages
  import opened ContextPasses

  /** An unpinned round of tool calls and results, whatever follows it. */
  predicate OpenRound(ms: seq<Message>, pins: set<string>, k: int) {
    && 0 <= k && k + 1 < |ms|
    && ToolUseOnly(ms[k]) && ResultsOnly(ms[k + 1])
    && UseIdSet(ms[k]) * pins == {}
  }

  /** Dropping the round at `k + 2` puts its answer right behind the round at `k`. */
  predicate Uncovers(ms: seq<Message>, pins: set<string>, k: int) {
    OpenRound(ms, pins, k) && RoundStart(ms, pins, k + 2)
  }

  // ---------- Where kept messages come from ----------

  lemma {:induction false} KeptNothingDropped(ms: seq<Message>, drop: seq<bool>, n: nat)
    requires n <= |ms| == |drop| && forall k | 0 <= k < n :: !drop[k]
    ensures Kept(ms, drop, n) == ms[..n]
  {
    if n > 0 {
      KeptNothingDropped(ms, drop, n - 1);
      assert ms[..n] == ms[..n - 1] + [ms[n - 1]];
    }
  }

  lemma {:induction false} KeptLength(ms: seq<Message>, drop: seq<bool>, k: nat, n: nat)
    requires k <= n <= |ms| == |drop|
    ensures |Kept(ms, drop, k)| <= |Kept(ms, drop, n)| <= |Kept(ms, drop, k)| + n - k
  {
    if k < n {
      KeptLength(ms, drop, k, n - 1);
    }
  }

  lemma KeptShrinks(ms: seq<Message>, drop: seq<bool>, k: nat)
    requires k < |ms| == |drop| && drop[k]
    ensures |Kept(ms, drop, |ms|)| < |ms|
  {
    KeptLength(ms, drop, 0, k);
    KeptLength(ms, drop, k + 1, |ms|);
  }

  /** Every kept message has an origin. */
  lemma {:induction false} Origin(ms: seq<Message>, drop: seq<bool>, j: nat, n: nat) returns (k: nat)
    requires n <= |ms| == |drop| && j < |Kept(ms, drop, n)|
    ensures k < n && !drop[k] && |Kept(ms, drop, k)| == j && Kept(ms, drop, n)[j] == ms[k]
  {
    if !drop[n - 1] && j == |Kept(ms, drop, n - 1)| {
      k := n - 1;
    } else {
      k := Origin(ms, drop, j, n - 1);
    }
  }

  /** Between the origins of neighbours everything was dropped. */
  lemma BetweenNeighbours(ms: seq<Message>, drop: seq<bool>, a: nat, b: nat, m: nat)
    requires a < |ms| && b < |ms| == |drop| && !drop[a] && !drop[b]
    requires |Kept(ms, drop, b)| == |Kept(ms, drop, a)| + 1
    ensures a < b && (a < m < b ==> drop[m])
  {
    if b <= a {
      KeptLength(ms, drop, b, a);
    } else if a < m < b && !drop[m] {
      KeptLength(ms, drop, a + 1, m);
      KeptLength(ms, drop, m + 1, b);
    }
  }

  // ---------- The second pass ----------

  lemma SecondPassDrops(ms: seq<Message>, pins: set<string>)
    ensures RoundsDropped(ms, pins) == ms <==> forall k: int :: !RoundStart(ms, pins, k)
  {
    var drop := DropMask(ms, pins);
    if k: int :| RoundStart(ms, pins, k) {
      assert drop[k];
      KeptShrinks(ms, drop, k);
    } else {
      KeptNothingDropped(ms, drop, |ms|);
      assert ms[..|ms|] == ms;
    }
  }

  /** Calls, results and answers are told apart. */
  lemma KindsDiffer(m: Message)
    ensures !(ToolUseOnly(m) && ResultsOnly(m)) && !(VisibleText(m) && ResultsOnly(m)) && !(VisibleText(m) && ToolUseOnly(m))
  {
  }

  lemma KeptStep(ms: seq<Message>, drop: seq<bool>, k: nat)
    requires k < |ms| == |drop|
    ensures |Kept(ms, drop, k + 1)| == |Kept(ms, drop, k)| + if drop[k] then 0 else 1
  {
  }

  lemma UncoveredMask(ms: seq<Message>, pins: set<string>, k: int)
    requires Uncovers(ms, pins, k)
    ensures !Dropped(ms, pins, k) && !Dropped(ms, pins, k + 1)
    ensures Dropped(ms, pins, k + 2) && Dropped(ms, pins, k + 3) && !Dropped(ms, pins, k + 4)
  {
    hide ToolUseOnly, ResultsOnly, VisibleText, UseIdSet;
    KindsDiffer(ms[k]);
    KindsDiffer(ms[k + 1]);
    KindsDiffer(ms[k + 2]);
    KindsDiffer(ms[k + 4]);
  }

  lemma UncoveredPositions(ms: seq<Message>, drop: seq<bool>, k: nat)
    requires k + 4 < |ms| == |drop|
    requires !drop[k] && !drop[k + 1] && drop[k + 2] && drop[k + 3] && !drop[k + 4]
    ensures var out, at := Kept(ms, drop, |ms|), |Kept(ms, drop, k)|;
            at + 2 < |out| && out[at] == ms[k] && out[at + 1] == ms[k + 1] && out[at + 2] == ms[k + 4]
  {
    hide Kept;
    KeptStep(ms, drop, k);
    KeptStep(ms, drop, k + 1);
    KeptStep(ms, drop, k + 2);
    KeptStep(ms, drop, k + 3);
    KeptPosition(ms, drop, k, |ms|);
    KeptPosition(ms, drop, k + 1, |ms|);
    KeptPosition(ms, drop, k + 4, |ms|);
  }

  lemma UncoveredStarts(ms: seq<Message>, pins: set<string>, k: int)
    requires Uncovers(ms, pins, k)
    ensures RoundStart(RoundsDropped(ms, pins), pins, |Kept(ms, DropMask(ms, pins), k)|)
  {
    hide ToolUseOnly, ResultsOnly, VisibleText, UseIdSet, Kept, Dropped;
    UncoveredMask(ms, pins, k);
    UncoveredPositions(ms, DropMask(ms, pins), k);
  }

  /** Results found right behind calls were right behind them before. */
  lemma ResultsWereNext(ms: seq<Message>, pins: set<string>, a: nat, b: nat)
    requires a < b < |ms| && ResultsOnly(ms[b]) && !Dropped(ms, pins, b)
    requires forall m | a < m < b :: Dropped(ms, pins, m)
    ensures b == a + 1
  {
    hide ToolUseOnly, ResultsOnly, VisibleText, UseIdSet;
    KindsDiffer(ms[b]);
    assert a + 1 < b ==> Dropped(ms, pins, b - 1);
  }

  /** An answer found right behind a surviving round had followed it, or followed a dropped round. */
  lemma AnswerWasNear(ms: seq<Message>, pins: set<string>, k: nat, c: nat)
    requires OpenRound(ms, pins, k) && k + 1 < c < |ms| && VisibleText(ms[c])
    requires !Dropped(ms, pins, k) && !Dropped(ms, pins, k + 1)
    requires forall m | k + 1 < m < c :: Dropped(ms, pins, m)
    ensures Uncovers(ms, pins, k)
  {
    hide ToolUseOnly, ResultsOnly, VisibleText, UseIdSet;
    KindsDiffer(ms[k + 1]);
    if c == k + 2 {
      assert false;
    } else {
      assert Dropped(ms, pins, k + 2);
      assert !RoundStart(ms, pins, k + 1);
    }
  }

  lemma StartWasUncovered(ms: seq<Message>, pins: set<string>, j: int)
    requires RoundStart(RoundsDropped(ms, pins), pins, j)
    ensures exists k: int :: Uncovers(ms, pins, k)
  {
    hide ToolUseOnly, ResultsOnly, VisibleText, UseIdSet, Kept, Dropped, Uncovers;
    var drop := DropMask(ms, pins);
    var a := Origin(ms, drop, j, |ms|);
    var b := Origin(ms, drop, j + 1, |ms|);
    var c := Origin(ms, drop, j + 2, |ms|);
    forall m | a < m < b
      ensures Dropped(ms, pins, m)
    {
      BetweenNeighbours(ms, drop, a, b, m);
    }
    forall m | b < m < c
      ensures Dropped(ms, pins, m)
    {
      BetweenNeighbours(ms, drop, b, c, m);
    }
    BetweenNeighbours(ms, drop, a, b, a);
    BetweenNeighbours(ms, drop, b, c, b);
    ResultsWereNext(ms, pins, a, b);
    AnswerWasNear(ms, pins, a, c);
  }

  /**
   One pass is not always enough. It leaves nothing for a second pass if and only if no
   unpinned round stands right before a round that the first pass drops.
   */
  lemma OnePassSuffices(ms: seq<Message>, pins: set<string>)
    ensures var once := RoundsDropped(ms, pins);
            RoundsDropped(once, pins) == once <==> !exists k: int :: Uncovers(ms, pins, k)
  {
    hide RoundStart, Uncovers, RoundsDropped;
    var once := RoundsDropped(ms, pins);
    SecondPassDrops(once, pins);
    if k: int :| Uncovers(ms, pins, k) {
      UncoveredStarts(ms, pins, k);
    } else if j: int :| RoundStart(once, pins, j) {
      StartWasUncovered(ms, pins, j);
    }
  }

  /** Two rounds in a row before an answer: the first pass drops only the second of them. */
  lemma TwoRoundsNeedTwoPasses(call: Message, results: Message, answer: Message)
    requires ToolUseOnly(call) && ResultsOnly(results) && VisibleText(answer)
    ensures var ms := [call, results, call, results, answer];
            RoundsDropped(ms, {}) == [call, results, answer] && RoundsDropped([call, results, answer], {}) == [answer]
  {
    hide ToolUseOnly, ResultsOnly, VisibleText, UseIdSet, Kept;
    KindsDiffer(call);
    KindsDiffer(results);
    KindsDiffer(answer);
    var ms := [call, results, call, results, answer];
    var drop := DropMask(ms, {});
    assert RoundStart(ms, {}, 2);
    assert !RoundStart(ms, {}, 0) && !RoundStart(ms, {}, 1) && !RoundStart(ms, {}, -1);
    assert drop == [false, false, true, true, false];
    KeptOne(ms, drop, 0);
    KeptOne(ms, drop, 1);
    KeptOne(ms, drop, 2);
    KeptOne(ms, drop, 3);
    KeptOne(ms, drop, 4);
    var short := [call, results, answer];
    var mask := DropMask(short, {});
    assert RoundStart(short, {}, 0) && mask == [true, true, false];
    KeptOne(short, mask, 0);
    KeptOne(short, mask, 1);
    KeptOne(short, mask, 2);
  }

  lemma KeptOne(ms: seq<Message>, drop: seq<bool>, n: nat)
    requires n < |ms| == |drop|
    ensures Kept(ms, drop, n + 1) == Kept(ms, drop, n) + if drop[n] then [] else [ms[n]]
    ensures Kept(ms, drop, 0) == []
  {
  }
}

/** Runs that leave a subscriber without hope, for every queue size. */
module RunBufferExamples {
  import opened RunBuffer
  import opened RunBufferTheorems
  import opened RunBufferEndings

  /** Two subscribers that have not read anything yet, each with `n` chunks queued. */
  predicate BothWait(s: State, n: nat) {
    && s.subscribers == [0, 1] && s.producer.Idle? && !s.done && |s.subs| == 2
    && (forall i: nat | i < 2 ::
          s.subs[i].phase == Replaying([], false) && |s.subs[i].queue| == n && Sentinel !in s.subs[i].queue)
  }

  const SUBSCRIBE := [Subscribe(-1), Subscribe(-1)]

  const ROUND := [Append("data"), PushNext, PushNext, DropSlow]

  function Rounds(n: nat): seq<Step> { if n == 0 then [] else Rounds(n - 1) + ROUND }

  lemma RunTwo(s: State, a: Step, b: Step, queueMax: nat)
    ensures Run(s, [a, b], queueMax) == Apply(Apply(s, a, queueMax), b, queueMax)
  {
    hide Apply;
    RunSnoc(s, [], a, queueMax);
    RunSnoc(s, [a], b, queueMax);
    assert [] + [a] == [a] && [a] + [b] == [a, b];
  }

  /** One round up to the point where slow subscribers are dropped. */
  lemma RoundRuns(s: State, queueMax: nat)
    ensures Run(s, ROUND, queueMax) ==
            Apply(Apply(Apply(AppendedOnce(s, queueMax), PushNext, queueMax), PushNext, queueMax), DropSlow, queueMax)
  {
    hide Apply;
    RunTwo(s, ROUND[0], ROUND[1], queueMax);
    var t := Run(s, [ROUND[0], ROUND[1]], queueMax);
    RunTwo(t, ROUND[2], ROUND[3], queueMax);
    assert ROUND == [ROUND[0], ROUND[1]] + [ROUND[2], ROUND[3]];
    RunConcat(s, [ROUND[0], ROUND[1]], [ROUND[2], ROUND[3]], queueMax);
  }

  function AppendedOnce(s: State, queueMax: nat): State { Apply(s, Append("data"), queueMax) }

  lemma BothSubscribe(queueMax: nat)
    ensures BothWait(Run(INIT, SUBSCRIBE, queueMax), 0)
  {
    RunTwo(INIT, Subscribe(-1), Subscribe(-1), queueMax);
  }

  lemma PushInto(s: State, first: nat, queueMax: nat)
    requires s.producer.Pushing? && s.producer.todo != [] && s.producer.todo[0] == first && first < |s.subs|
    requires |s.subs[first].queue| < queueMax && Sentinel !in s.subs[first].queue
    ensures var t := Apply(s, PushNext, queueMax);
            && t == s.(subs := t.subs, producer := t.producer) && |t.subs| == |s.subs|
            && t.producer == s.producer.(todo := s.producer.todo[1..])
            && (forall k: nat | k < |s.subs| && k != first :: t.subs[k] == s.subs[k])
            && t.subs[first].phase == s.subs[first].phase
            && |t.subs[first].queue| == |s.subs[first].queue| + 1 && Sentinel !in t.subs[first].queue
  {
    hide WrapSseChunk, ReplayTexts;
  }

  lemma RoundFills(s: State, n: nat, queueMax: nat)
    requires BothWait(s, n) && n < queueMax
    ensures BothWait(Run(s, ROUND, queueMax), n + 1)
  {
    hide WrapSseChunk, ReplayTexts, Run;
    RoundRuns(s, queueMax);
    var a := AppendedOnce(s, queueMax);
    assert a.producer.Pushing? && a.producer.todo == [0, 1] && a.producer.slow == [];
    PushInto(a, 0, queueMax);
    var b := Apply(a, PushNext, queueMax);
    PushInto(b, 1, queueMax);
    var c := Apply(b, PushNext, queueMax);
    assert c.producer.todo == [] && c.producer.slow == [];
  }

  lemma {:induction false} RoundsFill(n: nat, queueMax: nat)
    requires n <= queueMax
    ensures BothWait(Run(INIT, SUBSCRIBE + Rounds(n), queueMax), n)
  {
    hide Run, Apply;
    if n == 0 {
      BothSubscribe(queueMax);
      assert SUBSCRIBE + [] == SUBSCRIBE;
    } else {
      RoundsFill(n - 1, queueMax);
      RoundFills(Run(INIT, SUBSCRIBE + Rounds(n - 1), queueMax), n - 1, queueMax);
      RunConcat(INIT, SUBSCRIBE + Rounds(n - 1), ROUND, queueMax);
      assert SUBSCRIBE + Rounds(n) == SUBSCRIBE + Rounds(n - 1) + ROUND;
    }
  }

  lemma RoundStrands(s: State, queueMax: nat)
    requires BothWait(s, queueMax)
    ensures var t := Run(s, ROUND, queueMax); |t.subs| == 2 && Stranded(t, 0) && Stranded(t, 1)
  {
    hide WrapSseChunk, ReplayTexts, Run;
    RoundRuns(s, queueMax);
    var a := AppendedOnce(s, queueMax);
    assert a.producer.Pushing? && a.producer.todo == [0, 1] && a.producer.slow == [];
    var c := Apply(Apply(a, PushNext, queueMax), PushNext, queueMax);
    assert c.producer.todo == [] && c.producer.slow == [0, 1] && c.subscribers == [0, 1];
    RemoveAllFrom(c.subscribers, c.producer.slow);
  }

  /** Whatever the queue size, a subscriber that reads nothing is stranded by one chunk too many. */
  lemma ReadingNothingStrands(queueMax: nat)
    ensures var s := Run(INIT, SUBSCRIBE + Rounds(queueMax) + ROUND, queueMax);
            |s.subs| == 2 && Stranded(s, 0)
  {
    hide Run, Apply;
    RoundsFill(queueMax, queueMax);
    RoundStrands(Run(INIT, SUBSCRIBE + Rounds(queueMax), queueMax), queueMax);
    RunConcat(INIT, SUBSCRIBE + Rounds(queueMax), ROUND, queueMax);
  }

  lemma LeavingBlocks(s: State, queueMax: nat)
    requires BothWait(s, queueMax)
    ensures var t := Run(s, [Finish, Close(0)], queueMax);
            && |t.subs| == 2 && t.producer == Finishing([0, 1])
            && Stuck(t, 0, queueMax) && Behind(t, 1, 0, 1, queueMax) && !Stranded(t, 1) && !FoundSlow(t, 1)
  {
    hide WrapSseChunk, ReplayTexts, Run;
    RunTwo(s, Finish, Close(0), queueMax);
    assert 1 in s.subscribers;
  }

  /**
   Whatever the queue size, a subscriber that was never slow can be left waiting for ever: the one
   ahead of it in line leaves with a full queue while `finish` waits for room in it.
   */
  lemma LeavingWithAFullQueueBlocks(queueMax: nat)
    ensures var s := Run(INIT, SUBSCRIBE + Rounds(queueMax) + [Finish, Close(0)], queueMax);
            |s.subs| == 2 && Blocked(s, 1, queueMax) && !Stranded(s, 1) && !FoundSlow(s, 1) &&
            forall later :: Run(s, later, queueMax).producer == s.producer
  {
    hide Run, Apply, Stranded, Stuck;
    RoundsFill(queueMax, queueMax);
    LeavingBlocks(Run(INIT, SUBSCRIBE + Rounds(queueMax), queueMax), queueMax);
    RunConcat(INIT, SUBSCRIBE + Rounds(queueMax), [Finish, Close(0)], queueMax);
    var s := Run(INIT, SUBSCRIBE + Rounds(queueMax) + [Finish, Close(0)], queueMax);
    assert Behind(s, 1, 0, 1, queueMax);
    forall later
      ensures Run(s, later, queueMax).producer == s.producer
    {
      ProducerIsStuck(s, later, queueMax);
    }
  }
}

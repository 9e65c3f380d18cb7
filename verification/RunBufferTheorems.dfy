/** What the run buffer promises, over every run. */
module RunBufferTheorems {
  import opened PyText
  import opened RunBuffer

  lemma Reachable(steps: seq<Step>, queueMax: nat)
    ensures Inv(Run(INIT, steps, queueMax), queueMax)
  {
    RunKeepsInv(INIT, steps, queueMax);
  }

  /**
   In every run, whatever the interleaving: the buffer holds exactly the last chunks, and each
   subscriber, cut off or not, has yielded an unbroken run of chunks from its start.
   */
  lemma DeliveryIsContiguous(steps: seq<Step>, queueMax: nat, i: nat)
    requires i < |Run(INIT, steps, queueMax).subs|
    ensures var s := Run(INIT, steps, queueMax);
            RetainsSuffix(s) && IsRange(s.subs[i].yielded, s.log, s.subs[i].start)
  {
    Reachable(steps, queueMax);
    var s := Run(INIT, steps, queueMax);
    assert SubOk(s, i, queueMax);
    var u := s.subs[i];
    assert u.yielded <= Got(u);
    assert forall k | 0 <= k < |u.yielded| :: u.yielded[k] == Got(u)[k];
  }

  /** Nothing a subscriber has seen is taken back, and its start never moves. */
  ghost predicate Extends(s: State, t: State) {
    && |s.subs| <= |t.subs|
    && s.log <= t.log
    && (s.done ==> t.done && t.log == s.log)
    && forall i: nat | i < |s.subs| ::
         && t.subs[i].start == s.subs[i].start
         && s.subs[i].yielded <= t.subs[i].yielded
         && (s.subs[i].phase.Ended? ==>
               t.subs[i].phase == s.subs[i].phase && t.subs[i].yielded == s.subs[i].yielded)
  }

  lemma StepExtends(s: State, step: Step, queueMax: nat)
    ensures Extends(s, Apply(s, step, queueMax))
  {
    hide WrapSseChunk, ReplayTexts, RemoveAll, Remove;
  }

  /** In particular nothing is appended once the run is finished. */
  lemma {:induction false} RunExtends(s: State, steps: seq<Step>, queueMax: nat)
    ensures Extends(s, Run(s, steps, queueMax))
  {
    if steps != [] {
      var before := Run(s, steps[..|steps| - 1], queueMax);
      RunExtends(s, steps[..|steps| - 1], queueMax);
      StepExtends(before, steps[|steps| - 1], queueMax);
    }
  }

  /** A subscription starts at the chunk asked for, or the oldest one still held. */
  lemma SubscriptionStart(steps: seq<Step>, after: int, later: seq<Step>, queueMax: nat)
    ensures var s := Run(INIT, steps, queueMax);
            var t := Run(SubscribeFrom(s, after), later, queueMax);
            && |s.subs| < |t.subs|
            && t.subs[|s.subs|].start == StartFor(s, after)
            && IsRange(t.subs[|s.subs|].yielded, t.log, StartFor(s, after))
            && (-1 <= after < s.nextSeq ==>
                  StartFor(s, after) ==
                  if after + 1 > OldestRetained(s) then after + 1 else OldestRetained(s))
  {
    var s := Run(INIT, steps, queueMax);
    Reachable(steps, queueMax);
    var s' := SubscribeFrom(s, after);
    SubscribeKeeps(s, after, queueMax);
    ReplayIsRange(s, after);
    RunKeepsInv(s', later, queueMax);
    RunExtends(s', later, queueMax);
    var t := Run(s', later, queueMax);
    YieldedIsRange(t, |s.subs|, queueMax);
  }

  lemma YieldedIsRange(s: State, i: nat, queueMax: nat)
    requires Inv(s, queueMax) && i < |s.subs|
    ensures IsRange(s.subs[i].yielded, s.log, s.subs[i].start)
  {
    assert SubOk(s, i, queueMax);
    var u := s.subs[i];
    assert forall k | 0 <= k < |u.yielded| :: u.yielded[k] == Got(u)[k];
  }

  /** A subscriber that read to the end has every chunk from its start to the last. */
  lemma CompleteMeansEverything(s: State, i: nat, queueMax: nat)
    requires Inv(s, queueMax) && i < |s.subs| && s.subs[i].phase == Ended(true)
    ensures s.done && IsRange(s.subs[i].yielded, s.log, s.subs[i].start)
    ensures s.subs[i].start + |s.subs[i].yielded| == s.nextSeq
  {
    assert SubOk(s, i, queueMax);
  }

  /** The chunk after the last one yielded. */
  function NextAfter(u: Subscriber): nat { u.start + |u.yielded| }

  /** What two subscribers yielded, one after the other. */
  function Joined(s: State, i: nat, j: nat): seq<string>
    requires i < |s.subs| && j < |s.subs|
  {
    s.subs[i].yielded + s.subs[j].yielded
  }

  /** No chunk brought an id of its own. */
  predicate PlainLog(s: State) {
    forall k | 0 <= k < |s.log| :: !StartsWith(s.log[k], "id: ")
  }

  /** The second subscriber goes on exactly where the first stopped. */
  predicate GoesOn(s: State, i: nat, j: nat) {
    i < |s.subs| && j < |s.subs| && IsRange(Joined(s, i, j), s.log, s.subs[i].start)
  }

  /**
   Stopping after chunk `k` and subscribing again with `after = k`: whatever happens later, the
   two yields join without gap or overlap if `k + 1` has not been trimmed yet; if it has, then
   not, once the new subscriber has yielded anything and chunks bring no ids of their own.
   */
  lemma ResumeIsSeamless(s: State, i: nat, later: seq<Step>, queueMax: nat)
    requires Inv(s, queueMax) && i < |s.subs| && s.subs[i].phase.Ended?
    ensures var t := Run(SubscribeFrom(s, NextAfter(s.subs[i]) - 1), later, queueMax);
            var j, kept := |s.subs|, NextAfter(s.subs[i]) >= OldestRetained(s);
            && j < |t.subs| && t.subs[i].yielded == s.subs[i].yielded
            && (kept ==> GoesOn(t, i, j) && t.subs[j].start == NextAfter(s.subs[i]))
            && (PlainLog(t) && t.subs[j].yielded != [] ==> (GoesOn(t, i, j) <==> kept))
  {
    hide WrapSseChunk, SubOk, ListsOk, ReplayTexts, SubscribeFrom, Run, IsRange;
    var after: int := NextAfter(s.subs[i]) - 1;
    var s' := SubscribeFrom(s, after);
    YieldedIsRange(s, i, queueMax);
    RangeFits(s.subs[i].yielded, s.log, s.subs[i].start);
    NewcomerStart(s, after, queueMax);
    SubscribeKeeps(s, after, queueMax);
    ContinueBoth(s', i, |s.subs|, later, queueMax);
  }

  lemma RangeFits(texts: seq<string>, log: seq<string>, from: nat)
    requires IsRange(texts, log, from)
    ensures from + |texts| <= |log|
  {
  }

  lemma NewcomerStart(s: State, after: int, queueMax: nat)
    requires RetainsSuffix(s)
    ensures var t := SubscribeFrom(s, after);
            |t.subs| == |s.subs| + 1 && t.subs[|s.subs|].start == StartFor(s, after) && s.subs <= t.subs
  {
    ReplayIsRange(s, after);
  }

  /** A subscriber that ended, and another one: they join exactly if the second starts where the first stopped. */
  lemma ContinueBoth(s: State, i: nat, j: nat, later: seq<Step>, queueMax: nat)
    requires Inv(s, queueMax) && i < |s.subs| && j < |s.subs| && s.subs[i].phase.Ended?
    ensures var t, meet := Run(s, later, queueMax), s.subs[j].start == NextAfter(s.subs[i]);
            && i < |t.subs| && j < |t.subs|
            && t.subs[i].yielded == s.subs[i].yielded && t.subs[i].start == s.subs[i].start
            && t.subs[j].start == s.subs[j].start
            && (meet ==> GoesOn(t, i, j))
            && (PlainLog(t) && t.subs[j].yielded != [] ==> (GoesOn(t, i, j) <==> meet))
  {
    hide Run, Inv, IsRange;
    var t := Run(s, later, queueMax);
    RunKeepsInv(s, later, queueMax);
    RunExtends(s, later, queueMax);
    YieldedIsRange(t, i, queueMax);
    YieldedIsRange(t, j, queueMax);
    if s.subs[j].start == NextAfter(s.subs[i]) {
      RangesJoin(t.subs[i].yielded, t.subs[j].yielded, t.log, t.subs[i].start);
    } else if PlainLog(t) && t.subs[j].yielded != [] {
      RangesPart(t.subs[i].yielded, t.subs[j].yielded, t.log, t.subs[i].start, t.subs[j].start);
    }
  }

  /** Ranges that do not meet do not join: the first text of the second carries the wrong number. */
  lemma RangesPart(a: seq<string>, b: seq<string>, log: seq<string>, from: nat, start: nat)
    requires IsRange(b, log, start) && b != [] && start != from + |a|
    requires forall k | 0 <= k < |log| :: !StartsWith(log[k], "id: ")
    ensures !IsRange(a + b, log, from)
  {
    hide WrapSseChunk;
    if from + |a + b| <= |log| {
      var n := from + |a|;
      assert b[0] == WrapSseChunk(start + 0, log[start + 0]) && (a + b)[|a|] == b[0];
      WrappedDiffer(start, log[start], n, log[n]);
    }
  }

  lemma RangesJoin(a: seq<string>, b: seq<string>, log: seq<string>, from: nat)
    requires IsRange(a, log, from) && IsRange(b, log, from + |a|)
    ensures IsRange(a + b, log, from)
  {
  }

  // ---------- Slow subscribers ----------

  /** Out of the list, owed nothing, with no end mark in the queue. */
  predicate Stranded(s: State, i: nat)
    requires i < |s.subs|
  {
    var u := s.subs[i];
    && !u.phase.Ended? && !(u.phase.Replaying? && u.phase.runDone)
    && i !in s.subscribers && !Awaits(s, i) && !AwaitsSentinel(s, i)
    && Sentinel !in u.queue
  }

  /** On no list of the producer: neither subscribed, nor owed a chunk or a sentinel. */
  predicate Unlisted(s: State, i: nat) {
    i !in s.subscribers && !Awaits(s, i) && !AwaitsSentinel(s, i)
  }

  /** No step puts a subscriber back on a list. */
  lemma UnlistedStays(s: State, step: Step, i: nat, queueMax: nat)
    requires ListsOk(s) && i < |s.subs| && Unlisted(s, i)
    ensures Unlisted(Apply(s, step, queueMax), i)
  {
    match step
    case DropSlow =>
      if s.producer.Pushing? {
        RemoveAllFrom(s.subscribers, s.producer.slow);
      }
    case YieldReplay(who) => RemoveFrom(s.subscribers, who);
    case Get(who) => RemoveFrom(s.subscribers, who);
    case Close(who) => RemoveFrom(s.subscribers, who);
    case _ =>
  }

  lemma StrandedStep(s: State, step: Step, i: nat, queueMax: nat)
    requires Inv(s, queueMax) && i < |s.subs| && Stranded(s, i)
    ensures var t := Apply(s, step, queueMax);
            i < |t.subs| && (Stranded(t, i) || t.subs[i].phase == Ended(false))
  {
    UnlistedStays(s, step, i, queueMax);
    StrandedKeepsQueue(s, step, i, queueMax);
  }

  lemma StrandedKeepsQueue(s: State, step: Step, i: nat, queueMax: nat)
    requires i < |s.subs| && Stranded(s, i)
    ensures var t := Apply(s, step, queueMax);
            && i < |t.subs| && Sentinel !in t.subs[i].queue
            && (t.subs[i].phase == Ended(false) || !t.subs[i].phase.Ended?)
            && (t.subs[i].phase.Replaying? ==> !t.subs[i].phase.runDone)
  {
    hide WrapSseChunk, ReplayTexts, RemoveAll, Remove;
    match step
    case Get(who) =>
      if who == i && s.subs[i].queue != [] {
        assert s.subs[i].queue[0] in s.subs[i].queue;
      }
    case _ =>
  }

  /**
   The sentinel meant for a slow subscriber never arrives: once stranded, a subscriber's
   stream never ends by itself, in any continuation of the run.
   */
  lemma {:induction false} StrandedForever(s: State, steps: seq<Step>, i: nat, queueMax: nat)
    requires Inv(s, queueMax) && i < |s.subs| && Stranded(s, i)
    ensures var t := Run(s, steps, queueMax);
            i < |t.subs| && (Stranded(t, i) || t.subs[i].phase == Ended(false))
  {
    if steps != [] {
      var init, last := steps[..|steps| - 1], steps[|steps| - 1];
      StrandedForever(s, init, i, queueMax);
      RunKeepsInv(s, init, queueMax);
      var t := Run(s, init, queueMax);
      if Stranded(t, i) {
        StrandedStep(t, last, i, queueMax);
      } else {
        StepExtends(t, last, queueMax);
      }
    }
  }

  /** The other steps of the producer leave a subscriber on a list, or its end in the queue. */
  lemma ProducerStrandsNobody(s: State, step: Step, i: nat, queueMax: nat)
    requires Inv(s, queueMax) && i < |s.subs| && !s.subs[i].phase.Ended? && !Stranded(s, i)
    requires step.Append? || step.PushNext? || step.Finish? || step.PutSentinel?
    ensures var t := Apply(s, step, queueMax); i < |t.subs| && !Stranded(t, i)
  {
    hide WrapSseChunk, IsRange, Got, RetainsSuffix, Trim, SentinelLast, ListsOk;
    assert SubOk(s, i, queueMax);
  }

  lemma RemovedFromList(s: State, x: nat)
    requires ListsOk(s)
    ensures forall y :: y in Remove(s.subscribers, x) <==> y in s.subscribers && y != x
  {
    RemoveFrom(s.subscribers, x);
  }

  /** A step of a subscriber takes nobody else off a list, and itself only when it ends. */
  lemma ReaderStrandsNobody(s: State, step: Step, i: nat, queueMax: nat)
    requires ListsOk(s) && i < |s.subs| && !s.subs[i].phase.Ended? && !Stranded(s, i)
    requires step.Subscribe? || step.YieldReplay? || step.Get? || step.Close?
    ensures var t := Apply(s, step, queueMax); i < |t.subs| && !Stranded(t, i)
  {
    hide WrapSseChunk, ReplayTexts, Remove, ListsOk;
    match step
    case YieldReplay(who) => RemovedFromList(s, who);
    case Get(who) => RemovedFromList(s, who);
    case Close(who) => RemovedFromList(s, who);
    case Subscribe(_) =>
  }

  /** Only being dropped as slow strands a subscriber. */
  lemma OnlySlownessStrands(s: State, step: Step, i: nat, queueMax: nat)
    requires Inv(s, queueMax) && i < |s.subs| && !s.subs[i].phase.Ended? && !Stranded(s, i)
    requires var t := Apply(s, step, queueMax); i < |t.subs| && Stranded(t, i)
    ensures step == DropSlow && FoundSlow(s, i)
  {
    hide Stranded, Remove, RemoveAll, SubOk, RetainsSuffix;
    if step.Append? || step.PushNext? || step.Finish? || step.PutSentinel? {
      ProducerStrandsNobody(s, step, i, queueMax);
    } else if !step.DropSlow? {
      ReaderStrandsNobody(s, step, i, queueMax);
    } else {
      DropStrandsTheSlow(s, i, queueMax);
    }
  }

  lemma DropStrandsTheSlow(s: State, i: nat, queueMax: nat)
    requires ListsOk(s) && i < |s.subs| && !Stranded(s, i) && Stranded(Apply(s, DropSlow, queueMax), i)
    ensures FoundSlow(s, i)
  {
    hide Remove;
    if s.producer.Pushing? {
      RemoveAllFrom(s.subscribers, s.producer.slow);
    }
  }

  /** A subscriber is found slow only by a push that meets its full queue. */
  lemma OnlyFullQueuesAreSlow(s: State, step: Step, i: nat, queueMax: nat)
    requires Inv(s, queueMax) && i < |s.subs| && !FoundSlow(s, i)
    requires FoundSlow(Apply(s, step, queueMax), i)
    ensures step == PushNext && |s.subs[i].queue| == queueMax
  {
    assert SubOk(s, i, queueMax);
  }

  lemma RunSnoc(s: State, steps: seq<Step>, last: Step, queueMax: nat)
    ensures Run(s, steps + [last], queueMax) == Apply(Run(s, steps, queueMax), last, queueMax)
  {
    assert (steps + [last])[..|steps|] == steps;
  }

  lemma {:induction false} RunCons(s: State, step: Step, steps: seq<Step>, queueMax: nat)
    ensures Run(s, [step] + steps, queueMax) == Run(Apply(s, step, queueMax), steps, queueMax)
  {
    if steps == [] {
      RunSnoc(s, [], step, queueMax);
      assert [step] + steps == [] + [step];
    } else {
      var init, last := steps[..|steps| - 1], steps[|steps| - 1];
      RunCons(s, step, init, queueMax);
      RunSnoc(s, [step] + init, last, queueMax);
      RunSnoc(Apply(s, step, queueMax), init, last, queueMax);
      assert [step] + init + [last] == [step] + steps && init + [last] == steps;
    }
  }
}

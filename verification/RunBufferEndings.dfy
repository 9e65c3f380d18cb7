/** Who can still read to the end of a run, who never will, and when `finish` itself gets stuck. */
module RunBufferEndings {
  import opened PyText
  import opened RunBuffer
  import opened RunBufferTheorems

  // ---------- Reading what is held ----------

  /** The end of the run is in the subscriber's hands: as a sentinel, or as the end of its replay. */
  predicate HasEnd(u: Subscriber) {
    Sentinel in u.queue || (u.phase.Replaying? && u.phase.runDone)
  }

  /** Steps by which a subscriber reads all it holds. */
  function Drain(i: nat, u: Subscriber): seq<Step> {
    match u.phase
    case Replaying(rest, runDone) =>
      seq(|rest| + 1, _ => YieldReplay(i)) + if runDone then [] else seq(|u.queue|, _ => Get(i))
    case Live => seq(|u.queue|, _ => Get(i))
    case Ended(_) => []
  }

  /** The step a subscriber with something left to read takes next. */
  function NextRead(i: nat, u: Subscriber): Step {
    if u.phase.Live? then Get(i) else YieldReplay(i)
  }

  function LeftToRead(u: Subscriber): nat {
    (if u.phase.Replaying? then |u.phase.rest| + 1 else 0) + |u.queue|
  }

  /** The reader itself, as a step leaves it. */
  lemma ReadStep(s: State, i: nat, queueMax: nat)
    requires i < |s.subs| && !s.subs[i].phase.Ended? && (s.subs[i].phase.Live? ==> s.subs[i].queue != [])
    ensures var u, t := s.subs[i], Apply(s, NextRead(i, s.subs[i]), queueMax);
            && |t.subs| == |s.subs| && t.done == s.done && t.producer == s.producer && t.log == s.log
            && (forall k: nat | k < |s.subs| && k != i :: t.subs[k] == s.subs[k])
            && (!t.subs[i].phase.Ended? ==> LeftToRead(t.subs[i]) < LeftToRead(u) && t.subscribers == s.subscribers)
            && (t.subs[i].phase.Ended? ==> t.subs[i].phase.complete && HasEnd(u))
            && (forall x | x in t.subs[i].queue :: x in u.queue)
            && (t.subs[i].phase.Replaying? ==> u.phase.Replaying? && t.subs[i].phase.runDone == u.phase.runDone)
            && |t.subs[i].queue| <= |u.queue|
  {
    hide ReplayTexts, WrapSseChunk;
    if s.subs[i].phase.Live? {
      assert s.subs[i].queue[0] in s.subs[i].queue;
    }
  }

  lemma DrainStep(s: State, i: nat, queueMax: nat)
    requires i < |s.subs| && !s.subs[i].phase.Ended? && (s.subs[i].phase.Live? ==> s.subs[i].queue != [])
    ensures var steps, next := Drain(i, s.subs[i]), Apply(s, NextRead(i, s.subs[i]), queueMax);
            && steps != [] && steps[0] == NextRead(i, s.subs[i]) && i < |next.subs|
            && (!next.subs[i].phase.Ended? ==> steps[1..] == Drain(i, next.subs[i]))
  {
    hide ReplayTexts, WrapSseChunk;
  }

  /** Reading loses the sentinel only by ending on it. */
  lemma ReadKeepsEnd(s: State, i: nat, queueMax: nat)
    requires i < |s.subs| && !s.subs[i].phase.Ended? && SentinelLast(s.subs[i].queue) && HasEnd(s.subs[i])
    ensures var t := Apply(s, NextRead(i, s.subs[i]), queueMax);
            i < |t.subs| && (t.subs[i].phase == Ended(true) || (!t.subs[i].phase.Ended? && HasEnd(t.subs[i])))
  {
    hide ReplayTexts, WrapSseChunk;
  }

  lemma SentinelIsLast(s: State, i: nat, queueMax: nat)
    requires Inv(s, queueMax) && i < |s.subs|
    ensures SentinelLast(s.subs[i].queue)
  {
    assert SubOk(s, i, queueMax);
  }

  /** A subscriber that holds the end reaches it by reading alone, whatever the producer is doing. */
  lemma {:induction false} DrainCompletes(s: State, i: nat, queueMax: nat)
    requires Inv(s, queueMax) && i < |s.subs| && !s.subs[i].phase.Ended? && HasEnd(s.subs[i])
    ensures var t := Run(s, Drain(i, s.subs[i]), queueMax);
            i < |t.subs| && t.subs[i].phase == Ended(true)
    decreases LeftToRead(s.subs[i])
  {
    hide Inv, Run, Apply;
    SentinelIsLast(s, i, queueMax);
    var u := s.subs[i];
    var steps, step := Drain(i, u), NextRead(i, u);
    var s' := Apply(s, step, queueMax);
    StepKeepsInv(s, step, queueMax);
    ReadStep(s, i, queueMax);
    DrainStep(s, i, queueMax);
    ReadKeepsEnd(s, i, queueMax);
    assert steps == [step] + steps[1..];
    RunCons(s, step, steps[1..], queueMax);
    if s'.subs[i].phase.Ended? {
      RunExtends(s', steps[1..], queueMax);
    } else {
      DrainCompletes(s', i, queueMax);
    }
  }

  // ---------- `finish` waiting on a queue nobody reads ----------

  /** The owner is gone and its queue is full: a sentinel never fits. */
  predicate Stuck(s: State, q: nat, queueMax: nat) {
    q < |s.subs| && s.subs[q].phase.Ended? && |s.subs[q].queue| >= queueMax
  }

  /** A full queue whose owner is gone keeps `finish` from ever going past it. */
  lemma StuckStays(s: State, step: Step, q: nat, queueMax: nat)
    requires Stuck(s, q, queueMax) && s.producer.Finishing? && q in s.producer.todo
    ensures var t := Apply(s, step, queueMax);
            Stuck(t, q, queueMax) && t.producer.Finishing? && q in t.producer.todo
  {
    hide WrapSseChunk, ReplayTexts, Remove, RemoveAll;
    if step.PutSentinel? && s.producer.todo[0] < |s.subs| && s.producer.todo[0] != q {
      var todo := s.producer.todo;
      assert todo == [todo[0]] + todo[1..];
    }
  }

  lemma {:induction false} StuckForever(s: State, steps: seq<Step>, q: nat, queueMax: nat)
    requires Stuck(s, q, queueMax) && s.producer.Finishing? && q in s.producer.todo
    ensures var t := Run(s, steps, queueMax);
            Stuck(t, q, queueMax) && t.producer.Finishing? && q in t.producer.todo
  {
    hide Apply, Stuck;
    if steps != [] {
      StuckForever(s, steps[..|steps| - 1], q, queueMax);
      StuckStays(Run(s, steps[..|steps| - 1], queueMax), steps[|steps| - 1], q, queueMax);
    }
  }

  lemma HeadStuckStays(s: State, step: Step, queueMax: nat)
    requires s.producer.Finishing? && s.producer.todo != [] && Stuck(s, s.producer.todo[0], queueMax)
    ensures var t := Apply(s, step, queueMax);
            t.producer == s.producer && Stuck(t, s.producer.todo[0], queueMax)
  {
    hide WrapSseChunk, ReplayTexts, Remove, RemoveAll;
  }

  /** With such a queue next in line the producer does not move any more, in any continuation. */
  lemma {:induction false} ProducerIsStuck(s: State, steps: seq<Step>, queueMax: nat)
    requires s.producer.Finishing? && s.producer.todo != [] && Stuck(s, s.producer.todo[0], queueMax)
    ensures var t := Run(s, steps, queueMax);
            t.producer == s.producer && Stuck(t, s.producer.todo[0], queueMax)
  {
    hide Apply, Stuck;
    if steps != [] {
      ProducerIsStuck(s, steps[..|steps| - 1], queueMax);
      HeadStuckStays(Run(s, steps[..|steps| - 1], queueMax), steps[|steps| - 1], queueMax);
    }
  }

  /** The step that brings the sentinel nearer to the next queue: a put if it fits, else a read. */
  function Toward(s: State, queueMax: nat): Step
    requires s.producer.Finishing? && s.producer.todo != []
  {
    var q := s.producer.todo[0];
    if q >= |s.subs| || |s.subs[q].queue| < queueMax then PutSentinel else NextRead(q, s.subs[q])
  }

  lemma PutStep(s: State, queueMax: nat)
    requires s.producer.Finishing? && s.producer.todo != [] && s.producer.todo[0] < |s.subs|
    requires |s.subs[s.producer.todo[0]].queue| < queueMax
    ensures var q, t := s.producer.todo[0], Apply(s, PutSentinel, queueMax);
            && |t.subs| == |s.subs| && t.producer == FinishingOrIdle(s.producer.todo[1..])
            && (forall k: nat | k < |s.subs| && k != q :: t.subs[k] == s.subs[k])
            && t.subs[q].phase == s.subs[q].phase && Sentinel in t.subs[q].queue
  {
    hide WrapSseChunk, ReplayTexts;
    var u := s.subs[s.producer.todo[0]];
    assert (u.queue + [Sentinel])[|u.queue|] == Sentinel;
  }

  /** Nobody who awaits the sentinel has the end in hand yet. */
  lemma AwaitingHasNoEnd(s: State, q: nat, queueMax: nat)
    requires Inv(s, queueMax) && s.producer.Finishing? && q in s.producer.todo
    ensures q < |s.subs| && (!s.subs[q].phase.Ended? ==> !HasEnd(s.subs[q]))
  {
    assert SubOk(s, q, queueMax);
  }

  /** The next queues in line, none of them stuck. */
  predicate Servable(s: State, n: nat, queueMax: nat) {
    s.producer.Finishing? && 0 < n <= |s.producer.todo| &&
    forall a | 0 <= a < n :: !Stuck(s, s.producer.todo[a], queueMax)
  }

  /** What serving keeps about a subscriber in line. */
  predicate StaysOpen(s: State, t: State, i: nat) {
    i < |s.subs| && i < |t.subs| && (!s.subs[i].phase.Ended? ==> !t.subs[i].phase.Ended?)
  }

  lemma PutServes(s: State, n: nat, queueMax: nat)
    requires Inv(s, queueMax) && Servable(s, n, queueMax) && Toward(s, queueMax) == PutSentinel
    ensures var t, i := Apply(s, PutSentinel, queueMax), s.producer.todo[n - 1];
            && Inv(t, queueMax) && t.producer == FinishingOrIdle(s.producer.todo[1..]) && StaysOpen(s, t, i)
            && (n > 1 ==> Servable(t, n - 1, queueMax))
            && (n == 1 ==> HasEnd(t.subs[i]))
  {
    hide Apply, SubOk, RetainsSuffix;
    var todo := s.producer.todo;
    AwaitingHasNoEnd(s, todo[0], queueMax);
    AwaitingHasNoEnd(s, todo[n - 1], queueMax);
    DistinctTail(todo);
    StepKeepsInv(s, PutSentinel, queueMax);
    PutStep(s, queueMax);
    var t := Apply(s, PutSentinel, queueMax);
    forall a | 0 <= a < n - 1
      ensures !Stuck(t, todo[1..][a], queueMax)
    {
      assert todo[1..][a] == todo[a + 1] && todo[a + 1] in todo[1..];
    }
  }

  lemma ReadServes(s: State, n: nat, queueMax: nat)
    requires Inv(s, queueMax) && queueMax > 0 && Servable(s, n, queueMax) && Toward(s, queueMax) != PutSentinel
    ensures var t, i := Apply(s, Toward(s, queueMax), queueMax), s.producer.todo[n - 1];
            && Inv(t, queueMax) && t.producer == s.producer && StaysOpen(s, t, i)
            && Servable(t, n, queueMax) && HeadLeft(t) < HeadLeft(s)
  {
    hide Apply, SubOk, RetainsSuffix;
    var todo := s.producer.todo;
    var q := todo[0];
    AwaitingHasNoEnd(s, q, queueMax);
    AwaitingHasNoEnd(s, todo[n - 1], queueMax);
    StepKeepsInv(s, Toward(s, queueMax), queueMax);
    ReadStep(s, q, queueMax);
  }

  function HeadLeft(s: State): nat {
    if s.producer.Finishing? && s.producer.todo != [] && s.producer.todo[0] < |s.subs|
    then LeftToRead(s.subs[s.producer.todo[0]]) else 0
  }

  lemma LineIsKnown(s: State, queueMax: nat)
    requires Inv(s, queueMax) && s.producer.Finishing?
    ensures s.producer.todo != [] && forall q | q in s.producer.todo :: q < |s.subs|
  {
  }

  /** The first `n` queues in line get their sentinel when none of them is stuck. */
  lemma {:induction false} ServeFirst(s: State, n: nat, queueMax: nat) returns (steps: seq<Step>)
    requires Inv(s, queueMax) && queueMax > 0 && Servable(s, n, queueMax)
    ensures var t, i := Run(s, steps, queueMax), s.producer.todo[n - 1];
            && Inv(t, queueMax) && t.producer == FinishingOrIdle(s.producer.todo[n..])
            && StaysOpen(s, t, i)
            && (!s.subs[i].phase.Ended? ==> HasEnd(t.subs[i]))
    decreases n, HeadLeft(s)
  {
    hide Apply, Run, Inv, HasEnd, LeftToRead;
    LineIsKnown(s, queueMax);
    var step := Toward(s, queueMax);
    var s' := Apply(s, step, queueMax);
    var rest := [];
    if step == PutSentinel {
      PutServes(s, n, queueMax);
      if n == 1 {
        RunNothing(s', queueMax);
      } else {
        rest := ServeFirst(s', n - 1, queueMax);
      }
    } else {
      ReadServes(s, n, queueMax);
      rest := ServeFirst(s', n, queueMax);
    }
    steps := [step] + rest;
    RunCons(s, step, rest, queueMax);
  }

  lemma RunNothing(s: State, queueMax: nat)
    ensures Run(s, [], queueMax) == s
  {
  }

  /** `finish` can still return if and only if no queue in line is full with its owner gone. */
  lemma FinishCanReturn(s: State, queueMax: nat)
    requires Inv(s, queueMax) && queueMax > 0 && s.producer.Finishing?
    ensures (exists steps :: Run(s, steps, queueMax).producer.Idle?) <==>
            forall q | q in s.producer.todo :: !Stuck(s, q, queueMax)
  {
    hide Run, SubOk, RetainsSuffix, Stuck;
    var todo := s.producer.todo;
    if q :| q in todo && Stuck(s, q, queueMax) {
      forall steps
        ensures !Run(s, steps, queueMax).producer.Idle?
      {
        StuckForever(s, steps, q, queueMax);
      }
    } else {
      var steps := ServeFirst(s, |todo|, queueMax);
      assert todo[|todo|..] == [];
    }
  }

  // ---------- Who never ends ----------

  /** In line for the sentinel behind a queue that is stuck. */
  predicate Behind(s: State, i: nat, a: nat, b: nat, queueMax: nat) {
    s.producer.Finishing? && a < b < |s.producer.todo| && s.producer.todo[b] == i &&
    Stuck(s, s.producer.todo[a], queueMax)
  }

  ghost predicate Blocked(s: State, i: nat, queueMax: nat) {
    exists a: nat, b: nat :: Behind(s, i, a, b, queueMax)
  }

  /** Dropped as slow, about to be, or waiting behind a queue that is stuck. */
  ghost predicate Hopeless(s: State, i: nat, queueMax: nat)
    requires i < |s.subs|
  {
    !s.subs[i].phase.Ended? && (Stranded(s, i) || FoundSlow(s, i) || Blocked(s, i, queueMax))
  }

  lemma BehindStays(s: State, step: Step, i: nat, a: nat, b: nat, queueMax: nat)
    requires Inv(s, queueMax) && i < |s.subs| && !s.subs[i].phase.Ended? && Behind(s, i, a, b, queueMax)
    ensures var t := Apply(s, step, queueMax);
            i < |t.subs| && (Blocked(t, i, queueMax) || step == Close(i))
  {
    hide WrapSseChunk, ReplayTexts, Remove, RemoveAll, Inv;
    var t, todo := Apply(s, step, queueMax), s.producer.todo;
    assert todo[a] in todo;
    StuckStays(s, step, todo[a], queueMax);
    if step.PutSentinel? && t.producer != s.producer {
      assert a > 0 && t.producer.todo[a - 1] == todo[a] && t.producer.todo[b - 1] == i;
      assert Behind(t, i, a - 1, b - 1, queueMax);
    } else {
      assert Behind(t, i, a, b, queueMax);
    }
  }

  /** While in line for the sentinel a subscriber cannot end by itself. */
  lemma InLineDoesNotEnd(s: State, step: Step, i: nat, queueMax: nat)
    requires Inv(s, queueMax) && i < |s.subs| && !s.subs[i].phase.Ended?
    requires AwaitsSentinel(s, i) || FoundSlow(s, i)
    ensures var t := Apply(s, step, queueMax);
            i < |t.subs| && (!t.subs[i].phase.Ended? || t.subs[i].phase == Ended(false))
  {
    hide WrapSseChunk, ReplayTexts, Remove, RemoveAll, RetainsSuffix, IsRange;
    assert SubOk(s, i, queueMax);
    if step == Get(i) && s.subs[i].queue != [] {
      assert s.subs[i].queue[0] in s.subs[i].queue;
    }
  }

  lemma FoundSlowStays(s: State, step: Step, i: nat, queueMax: nat)
    requires Inv(s, queueMax) && i < |s.subs| && !s.subs[i].phase.Ended? && FoundSlow(s, i)
    ensures var t := Apply(s, step, queueMax);
            i < |t.subs| && (t.subs[i].phase.Ended? || FoundSlow(t, i) || Stranded(t, i))
  {
    hide WrapSseChunk, ReplayTexts, RetainsSuffix, IsRange;
    assert SubOk(s, i, queueMax);
    RemoveAllFrom(s.subscribers, s.producer.slow);
  }

  lemma HopelessStep(s: State, step: Step, i: nat, queueMax: nat)
    requires Inv(s, queueMax) && i < |s.subs| && Hopeless(s, i, queueMax)
    ensures var t := Apply(s, step, queueMax);
            i < |t.subs| && (Hopeless(t, i, queueMax) || t.subs[i].phase == Ended(false))
  {
    hide Apply, Inv, Stranded;
    var t := Apply(s, step, queueMax);
    StepExtends(s, step, queueMax);
    if Stranded(s, i) {
      StrandedStep(s, step, i, queueMax);
      StrandedIsOpen(t, i);
    } else {
      if FoundSlow(s, i) {
        InLineDoesNotEnd(s, step, i, queueMax);
        FoundSlowStays(s, step, i, queueMax);
      } else {
        InLine(s, i, queueMax);
        InLineDoesNotEnd(s, step, i, queueMax);
        var a: nat, b: nat :| Behind(s, i, a, b, queueMax);
        BehindStays(s, step, i, a, b, queueMax);
        CloseEnds(s, i, queueMax);
      }
    }
  }

  lemma StrandedIsOpen(s: State, i: nat)
    requires i < |s.subs|
    ensures Stranded(s, i) ==> !s.subs[i].phase.Ended?
  {
  }

  lemma CloseEnds(s: State, i: nat, queueMax: nat)
    requires i < |s.subs| && !s.subs[i].phase.Ended?
    ensures var t := Apply(s, Close(i), queueMax); i < |t.subs| && t.subs[i].phase == Ended(false)
  {
  }

  lemma InLine(s: State, i: nat, queueMax: nat)
    requires Blocked(s, i, queueMax)
    ensures AwaitsSentinel(s, i)
  {
    var a: nat, b: nat :| Behind(s, i, a, b, queueMax);
    assert s.producer.todo[b] in s.producer.todo;
  }

  /** Nothing that happens later lets such a subscriber end by itself. */
  lemma {:induction false} HopelessForever(s: State, steps: seq<Step>, i: nat, queueMax: nat)
    requires Inv(s, queueMax) && i < |s.subs| && Hopeless(s, i, queueMax)
    ensures var t := Run(s, steps, queueMax);
            i < |t.subs| && (Hopeless(t, i, queueMax) || t.subs[i].phase == Ended(false))
  {
    hide Apply, Inv, Hopeless;
    if steps == [] {
      HopelessIsOpen(s, i, queueMax);
    } else {
      var init, last := steps[..|steps| - 1], steps[|steps| - 1];
      HopelessForever(s, init, i, queueMax);
      RunKeepsInv(s, init, queueMax);
      var t := Run(s, init, queueMax);
      if Hopeless(t, i, queueMax) {
        HopelessStep(t, last, i, queueMax);
      } else {
        StepExtends(t, last, queueMax);
      }
    }
  }

  lemma HopelessIsOpen(s: State, i: nat, queueMax: nat)
    requires i < |s.subs|
    ensures Hopeless(s, i, queueMax) ==> !s.subs[i].phase.Ended?
  {
  }

  // ---------- Who still can ----------

  /** In line and not blocked: the sentinel comes, and reading then ends the stream. */
  lemma EndsFromLine(s: State, i: nat, queueMax: nat) returns (steps: seq<Step>)
    requires Inv(s, queueMax) && queueMax > 0 && i < |s.subs| && !s.subs[i].phase.Ended?
    requires AwaitsSentinel(s, i) && !Blocked(s, i, queueMax)
    ensures var t := Run(s, steps, queueMax); i < |t.subs| && t.subs[i].phase == Ended(true)
  {
    hide Run, Apply, Inv, Stuck, Drain;
    var todo := s.producer.todo;
    var b: nat :| b < |todo| && todo[b] == i;
    forall a | 0 <= a < b + 1
      ensures !Stuck(s, todo[a], queueMax)
    {
      OpenIsNotStuck(s, i, queueMax);
      if a < b {
        assert !Behind(s, i, a, b, queueMax);
      }
    }
    var served := ServeFirst(s, b + 1, queueMax);
    var t := Run(s, served, queueMax);
    DrainCompletes(t, i, queueMax);
    steps := served + Drain(i, t.subs[i]);
    RunConcat(s, served, Drain(i, t.subs[i]), queueMax);
  }

  lemma OpenIsNotStuck(s: State, i: nat, queueMax: nat)
    requires i < |s.subs| && !s.subs[i].phase.Ended?
    ensures !Stuck(s, i, queueMax)
  {
  }

  lemma {:induction false} RunConcat(s: State, a: seq<Step>, b: seq<Step>, queueMax: nat)
    ensures Run(s, a + b, queueMax) == Run(Run(s, a, queueMax), b, queueMax)
  {
    hide Apply;
    if b == [] {
      assert a + b == a;
    } else {
      var init, last := b[..|b| - 1], b[|b| - 1];
      RunConcat(s, a, init, queueMax);
      RunSnoc(s, a + init, last, queueMax);
      assert a + b == a + init + [last];
    }
  }

  /** A subscriber still on the list of a run that goes on. */
  ghost predicate OnList(s: State, i: nat) {
    i < |s.subs| && !s.subs[i].phase.Ended? && i in s.subscribers && !FoundSlow(s, i)
  }

  lemma OnListFacts(s: State, i: nat, queueMax: nat)
    requires Inv(s, queueMax) && OnList(s, i)
    ensures !s.done && !s.producer.Finishing? && !(s.subs[i].phase.Replaying? && s.subs[i].phase.runDone)
    ensures Sentinel !in s.subs[i].queue
  {
    assert SubOk(s, i, queueMax);
  }

  /** Finishing puts everyone on the list in line, and no owner on the list is gone. */
  lemma FinishPutsInLine(s: State, i: nat, queueMax: nat)
    requires Inv(s, queueMax) && OnList(s, i) && s.producer.Idle?
    ensures var t := Apply(s, Finish, queueMax);
            && i < |t.subs| && t.subs[i] == s.subs[i]
            && AwaitsSentinel(t, i) && !Blocked(t, i, queueMax)
  {
    hide WrapSseChunk, ReplayTexts, IsRange;
    var t := Apply(s, Finish, queueMax);
    forall q | q in t.producer.todo
      ensures !Stuck(t, q, queueMax)
    {
      assert SubOk(s, q, queueMax);
    }
    forall a: nat, b: nat
      ensures !Behind(t, i, a, b, queueMax)
    {
      if a < |t.producer.todo| {
        assert t.producer.todo[a] in t.producer.todo;
      }
    }
  }

  lemma PushOther(s: State, i: nat, queueMax: nat)
    requires Inv(s, queueMax) && OnList(s, i) && s.producer.Pushing? && s.producer.todo != []
    requires s.producer.todo[0] != i || |s.subs[i].queue| < queueMax
    ensures var t := Apply(s, PushNext, queueMax);
            OnList(t, i) && t.producer.Pushing? && t.producer.todo == s.producer.todo[1..]
  {
    hide WrapSseChunk, ReplayTexts, IsRange;
    assert s.producer.todo[0] in s.producer.todo;
  }

  lemma DropKeepsOnList(s: State, i: nat, queueMax: nat)
    requires Inv(s, queueMax) && OnList(s, i) && s.producer.Pushing? && s.producer.todo == []
    ensures var t := Apply(s, DropSlow, queueMax); OnList(t, i) && t.producer.Idle?
  {
    hide WrapSseChunk, ReplayTexts, IsRange;
    RemoveAllFrom(s.subscribers, s.producer.slow);
  }

  /** The next step on the way to `finish` for one subscriber: settle the push, making room if need be. */
  function Settle(s: State, i: nat, queueMax: nat): Step
    requires i < |s.subs| && s.producer.Pushing?
  {
    if s.producer.todo == [] then DropSlow
    else if s.producer.todo[0] != i || |s.subs[i].queue| < queueMax then PushNext
    else NextRead(i, s.subs[i])
  }

  lemma ReadKeepsOnList(s: State, i: nat, queueMax: nat)
    requires Inv(s, queueMax) && queueMax > 0 && OnList(s, i) && |s.subs[i].queue| >= queueMax
    ensures var t := Apply(s, NextRead(i, s.subs[i]), queueMax);
            OnList(t, i) && t.producer == s.producer && LeftToRead(t.subs[i]) < LeftToRead(s.subs[i])
  {
    hide Apply, Inv;
    OnListFacts(s, i, queueMax);
    ReadStep(s, i, queueMax);
  }

  /** Everyone on the list can read to the end: let the push settle, finish, and read. */
  lemma {:induction false} EndsFromList(s: State, i: nat, queueMax: nat) returns (steps: seq<Step>)
    requires Inv(s, queueMax) && queueMax > 0 && OnList(s, i)
    ensures var t := Run(s, steps, queueMax); i < |t.subs| && t.subs[i].phase == Ended(true)
    decreases s.producer.Pushing?, if s.producer.Pushing? then |s.producer.todo| else 0, LeftToRead(s.subs[i])
  {
    hide Run, Apply, Inv, Blocked;
    OnListFacts(s, i, queueMax);
    var step := if s.producer.Idle? then Finish else Settle(s, i, queueMax);
    var s' := Apply(s, step, queueMax);
    StepKeepsInv(s, step, queueMax);
    var rest;
    if s.producer.Idle? {
      FinishPutsInLine(s, i, queueMax);
      rest := EndsFromLine(s', i, queueMax);
    } else {
      if step == DropSlow {
        DropKeepsOnList(s, i, queueMax);
      } else if step == PushNext {
        PushOther(s, i, queueMax);
      } else {
        ReadKeepsOnList(s, i, queueMax);
      }
      rest := EndsFromList(s', i, queueMax);
    }
    steps := [step] + rest;
    RunCons(s, step, rest, queueMax);
  }

  lemma HopefulPlaces(s: State, i: nat, queueMax: nat)
    requires Inv(s, queueMax) && i < |s.subs| && !s.subs[i].phase.Ended? && !Hopeless(s, i, queueMax)
    ensures HasEnd(s.subs[i]) || AwaitsSentinel(s, i) || OnList(s, i)
  {
    assert SubOk(s, i, queueMax);
  }

  /**
   In every state of every run, a subscriber can still read to the end if and only if it is not
   hopeless; whenever it does, it has every chunk from its start.
   */
  lemma EndsUnlessHopeless(s: State, i: nat, queueMax: nat)
    requires Inv(s, queueMax) && queueMax > 0 && i < |s.subs| && !s.subs[i].phase.Ended?
    ensures (exists steps :: Completes(s, steps, i, queueMax)) <==> !Hopeless(s, i, queueMax)
    ensures forall steps | Completes(s, steps, i, queueMax) ::
              var t := Run(s, steps, queueMax);
              i < |t.subs| && IsRange(t.subs[i].yielded, t.log, t.subs[i].start) &&
              t.subs[i].start + |t.subs[i].yielded| == t.nextSeq
  {
    hide Run, Inv, Hopeless, IsRange;
    forall steps | Completes(s, steps, i, queueMax)
      ensures var t := Run(s, steps, queueMax);
              i < |t.subs| && IsRange(t.subs[i].yielded, t.log, t.subs[i].start) &&
              t.subs[i].start + |t.subs[i].yielded| == t.nextSeq
    {
      RunKeepsInv(s, steps, queueMax);
      CompleteMeansEverything(Run(s, steps, queueMax), i, queueMax);
    }
    if Hopeless(s, i, queueMax) {
      forall steps
        ensures !Completes(s, steps, i, queueMax)
      {
        HopelessForever(s, steps, i, queueMax);
        HopelessIsOpen(Run(s, steps, queueMax), i, queueMax);
      }
    } else {
      var steps := SomeEnding(s, i, queueMax);
      assert Completes(s, steps, i, queueMax);
    }
  }

  predicate Completes(s: State, steps: seq<Step>, i: nat, queueMax: nat) {
    var t := Run(s, steps, queueMax);
    i < |t.subs| && t.subs[i].phase == Ended(true)
  }

  lemma SomeEnding(s: State, i: nat, queueMax: nat) returns (steps: seq<Step>)
    requires Inv(s, queueMax) && queueMax > 0 && i < |s.subs| && !s.subs[i].phase.Ended?
    requires !Hopeless(s, i, queueMax)
    ensures Completes(s, steps, i, queueMax)
  {
    hide Run, Inv, HasEnd, OnList;
    HopefulPlaces(s, i, queueMax);
    if HasEnd(s.subs[i]) {
      DrainCompletes(s, i, queueMax);
      steps := Drain(i, s.subs[i]);
    } else if AwaitsSentinel(s, i) {
      steps := EndsFromLine(s, i, queueMax);
    } else {
      steps := EndsFromList(s, i, queueMax);
    }
  }

  /** Once `finish` has begun, the same, with every chunk of the run as it is now. */
  lemma FinishedCompletes(s: State, i: nat, queueMax: nat)
    requires Inv(s, queueMax) && queueMax > 0 && s.done && i < |s.subs| && !s.subs[i].phase.Ended?
    ensures (exists steps :: Completes(s, steps, i, queueMax)) <==>
            !Stranded(s, i) && !Blocked(s, i, queueMax)
    ensures forall steps | Completes(s, steps, i, queueMax) ::
              var t := Run(s, steps, queueMax);
              i < |t.subs| && IsRange(t.subs[i].yielded, s.log, s.subs[i].start) &&
              s.subs[i].start + |t.subs[i].yielded| == s.nextSeq
  {
    hide Run, Stranded, Blocked, IsRange;
    EndsUnlessHopeless(s, i, queueMax);
    forall steps | Completes(s, steps, i, queueMax)
      ensures var t := Run(s, steps, queueMax);
              i < |t.subs| && IsRange(t.subs[i].yielded, s.log, s.subs[i].start) &&
              s.subs[i].start + |t.subs[i].yielded| == s.nextSeq
    {
      RunExtends(s, steps, queueMax);
      RunKeepsInv(s, steps, queueMax);
    }
  }

  // ---------- How hope is lost ----------

  /** The step closes a subscriber ahead of `i` in line whose queue is full. */
  predicate AbandonsAhead(s: State, step: Step, i: nat, queueMax: nat) {
    s.producer.Finishing? && step.Close? && step.who < |s.subs| && |s.subs[step.who].queue| >= queueMax &&
    exists a, b :: 0 <= a < b < |s.producer.todo| && s.producer.todo[a] == step.who && s.producer.todo[b] == i
  }

  /** A queue in line gets stuck only by its owner leaving. */
  lemma HeadIsIn(queue: seq<Item>)
    ensures queue != [] ==> queue[0] in queue
  {
  }

  lemma StuckByClose(s: State, step: Step, q: nat, queueMax: nat)
    requires Inv(s, queueMax) && s.producer.Finishing? && q in s.producer.todo
    requires !Stuck(s, q, queueMax) && Stuck(Apply(s, step, queueMax), q, queueMax)
    requires step.PutSentinel? ==> q != s.producer.todo[0]
    ensures step == Close(q) && |s.subs[q].queue| >= queueMax
  {
    hide WrapSseChunk, ReplayTexts, IsRange, RetainsSuffix;
    AwaitingHasNoEnd(s, q, queueMax);
    HeadIsIn(s.subs[q].queue);
  }

  lemma LineShrinks(s: State, step: Step, queueMax: nat)
    requires ListsOk(s) && s.producer.Finishing? && Apply(s, step, queueMax).producer.Finishing?
    ensures var todo, todo' := s.producer.todo, Apply(s, step, queueMax).producer.todo;
            todo' == todo || (step == PutSentinel && todo' == todo[1..])
  {
    hide WrapSseChunk, ReplayTexts;
  }

  lemma LineBegins(s: State, step: Step, q: nat, queueMax: nat)
    requires Inv(s, queueMax) && !s.producer.Finishing? && Apply(s, step, queueMax).producer.Finishing?
    requires q in Apply(s, step, queueMax).producer.todo
    ensures !Stuck(Apply(s, step, queueMax), q, queueMax)
  {
    hide WrapSseChunk, ReplayTexts, IsRange, RetainsSuffix;
    assert SubOk(s, q, queueMax);
  }

  lemma BlockingStep(s: State, step: Step, i: nat, a: nat, b: nat, queueMax: nat)
    requires Inv(s, queueMax) && i < |s.subs| && !Blocked(s, i, queueMax)
    requires Behind(Apply(s, step, queueMax), i, a, b, queueMax)
    ensures AbandonsAhead(s, step, i, queueMax)
  {
    hide Apply, SubOk, RetainsSuffix, Stuck;
    var t := Apply(s, step, queueMax);
    var q := t.producer.todo[a];
    assert q in t.producer.todo;
    if !s.producer.Finishing? {
      LineBegins(s, step, q, queueMax);
    } else {
      LineShrinks(s, step, queueMax);
      var todo := s.producer.todo;
      DistinctTail(todo);
      var shift := if t.producer.todo == todo then 0 else 1;
      assert todo[a + shift] == q && todo[b + shift] == i && q in todo;
      assert !Behind(s, i, a + shift, b + shift, queueMax);
      if step == PutSentinel && t.producer == s.producer {
        PutKeepsHead(s, step, queueMax);
      }
      StuckByClose(s, step, q, queueMax);
    }
  }

  /** A put that does not fit leaves everything as it is. */
  lemma PutKeepsHead(s: State, step: Step, queueMax: nat)
    requires ListsOk(s) && s.producer.Finishing? && step == PutSentinel
    requires Apply(s, step, queueMax).producer == s.producer
    ensures Apply(s, step, queueMax) == s
  {
    hide WrapSseChunk, ReplayTexts;
  }

  /**
   A subscriber loses hope in two ways only: a push finds its queue full, or, while it waits for
   the sentinel, someone ahead of it in line leaves with a full queue.
   */
  lemma HowHopeIsLost(s: State, step: Step, i: nat, queueMax: nat)
    requires Inv(s, queueMax) && i < |s.subs| && !s.subs[i].phase.Ended? && !Hopeless(s, i, queueMax)
    requires var t := Apply(s, step, queueMax); i < |t.subs| && Hopeless(t, i, queueMax)
    ensures (step == PushNext && |s.subs[i].queue| == queueMax) || AbandonsAhead(s, step, i, queueMax)
  {
    hide Apply, Inv, Stranded;
    var t := Apply(s, step, queueMax);
    if Stranded(t, i) {
      OnlySlownessStrands(s, step, i, queueMax);
    } else if FoundSlow(t, i) {
      OnlyFullQueuesAreSlow(s, step, i, queueMax);
    } else {
      var a: nat, b: nat :| Behind(t, i, a, b, queueMax);
      BlockingStep(s, step, i, a, b, queueMax);
    }
  }
}

/** From the agent loop through the queue to the browser: how often, and how, a run is reported complete. */
module AgentStream {
  import opened PyText
  import opened Messages
  import opened ContextManagement
  import opened ContextPins
  import opened AgentBudget
  import opened OpenAiWire
  import Loop = ReactLoop
  import Runs = ReactRuns
  import Meters = UsageMeters
  import Sse = KorakuSse
  import Theorems = KorakuSseTheorems

  datatype End = Completes | Cancels | Fails

  function EndOf(body: Meters.Body): Option<End> {
    match body
    case Completed => Some(Completes)
    case Cancelled => Some(Cancels)
    case Failed(_) => Some(Fails)
    case _ => None
  }

  function EndOfLoop(e: Runs.Event): Option<End> {
    match e
    case Completed(_, _) => Some(Completes)
    case Cancelled(_) => Some(Cancels)
    case Failed(_) => Some(Fails)
    case _ => None
  }

  /** How the queue says that the parent turn ends: nested workers' events do not count. */
  function OwnEnds(events: seq<Meters.Event>): seq<End> {
    if events == [] then []
    else
      var e := events[|events| - 1];
      OwnEnds(events[..|events| - 1]) +
      if Meters.NestedPayload(e).None? && EndOf(e.body).Some? then [EndOf(e.body).value] else []
  }

  function LoopEnds(run: seq<Runs.Event>): seq<End> {
    if run == [] then []
    else
      var e := EndOfLoop(run[|run| - 1]);
      LoopEnds(run[..|run| - 1]) + if e.Some? then [e.value] else []
  }

  /**
   The queue carries the run: its terminal events are the loop's, in order. Anything else may
   stand between them: what the loop yields, what tools and heartbeats emit, and whatever nested
   workers report.
   */
  predicate Carries(events: seq<Meters.Event>, run: seq<Runs.Event>) {
    OwnEnds(events) == LoopEnds(run)
  }

  // ---------- The frames that report completion ----------

  function FrameFor(end: End): Sse.Frame {
    match end
    case Completes => Sse.CompletedFrame(0, false, false)
    case Cancels => Sse.CompletedFrame(130, false, true)
    case Fails => Sse.CompletedFrame(1, true, false)
  }

  function FramesFor(ends: seq<End>): seq<Sse.Frame> {
    seq(|ends|, k requires 0 <= k < |ends| => FrameFor(ends[k]))
  }

  function Completions(frames: seq<Sse.Frame>): seq<Sse.Frame> {
    if frames == [] then []
    else
      var f := frames[|frames| - 1];
      Completions(frames[..|frames| - 1]) + if f.CompletedFrame? then [f] else []
  }

  lemma CompletionsSnoc(frames: seq<Sse.Frame>, f: Sse.Frame)
    ensures Completions(frames + [f]) == Completions(frames) + if f.CompletedFrame? then [f] else []
  {
    assert (frames + [f])[..|frames|] == frames;
  }

  lemma {:induction false} CompletionsConcat(a: seq<Sse.Frame>, b: seq<Sse.Frame>)
    ensures Completions(a + b) == Completions(a) + Completions(b)
  {
    if b == [] {
      assert a + b == a;
    } else {
      var init, f := b[..|b| - 1], b[|b| - 1];
      CompletionsConcat(a, init);
      CompletionsSnoc(a + init, f);
      assert a + b == a + init + [f];
      var more := if f.CompletedFrame? then [f] else [];
      assert Completions(a) + (Completions(init) + more) == Completions(a) + Completions(init) + more;
    }
  }

  lemma {:induction false} NoneCounted(frames: seq<Sse.Frame>)
    requires Theorems.CompletedCount(frames) == 0
    ensures Completions(frames) == []
  {
    if frames != [] {
      NoneCounted(frames[..|frames| - 1]);
    }
  }

  lemma SequenceCompletes(failed: bool, cancelled: bool)
    ensures var q := Sse.CompletionSequence(failed, cancelled); Completions(q) == [q[1]]
  {
    var q := Sse.CompletionSequence(failed, cancelled);
    CompletionsSnoc([], q[0]);
    CompletionsSnoc([q[0]], q[1]);
    CompletionsSnoc([q[0], q[1]], q[2]);
    assert [] + [q[0]] == [q[0]] && [q[0]] + [q[1]] == [q[0], q[1]] && [q[0], q[1]] + [q[2]] == q;
  }

  lemma TerminalFrames(s: Sse.SseState, body: Meters.Body)
    requires EndOf(body).Some?
    ensures Completions(Sse.MapBody(s, body, None).1) == [FrameFor(EndOf(body).value)]
  {
    match body
    case Completed => SequenceCompletes(false, false);
    case Cancelled => SequenceCompletes(false, true);
    case Failed(_) => SequenceCompletes(true, false);
  }

  lemma OtherFrames(s: Sse.SseState, body: Meters.Body, nested: Option<Meters.Nested>)
    requires EndOf(body).None? || nested.Some?
    ensures Completions(Sse.MapBody(s, body, nested).1) == []
  {
    hide Sse.MapBody;
    Theorems.BodyCompletes(s, body, nested);
    NoneCounted(Sse.MapBody(s, body, nested).1);
  }

  /** The completion frames of a stream are its own ends, in order, each reported as what it was. */
  lemma {:induction false} CompletionsAreOwnEnds(events: seq<Meters.Event>)
    ensures Completions(Sse.MapAll(Sse.NEW_STATE, events).1) == FramesFor(OwnEnds(events))
  {
    hide Sse.MapBody, Meters.NestedPayload, FrameFor;
    if events != [] {
      var init, e := events[..|events| - 1], events[|events| - 1];
      CompletionsAreOwnEnds(init);
      var (s, frames) := Sse.MapAll(Sse.NEW_STATE, init);
      var nested := Meters.NestedPayload(e);
      CompletionsConcat(frames, Sse.MapBody(s, e.body, nested).1);
      if nested.None? && EndOf(e.body).Some? {
        TerminalFrames(s, e.body);
      } else {
        OtherFrames(s, e.body, nested);
      }
    }
  }

  lemma {:induction false} NoEnds(run: seq<Runs.Event>)
    requires Runs.NoTerminal(run)
    ensures LoopEnds(run) == []
  {
    if run != [] {
      assert run[|run| - 1] in run && forall e | e in run[..|run| - 1] :: e in run;
      NoEnds(run[..|run| - 1]);
    }
  }

  /**
   Whatever stands in between, a run that ends with its one terminal event is reported complete
   exactly once, and as completed, cancelled or failed according to that event.
   */
  lemma OneCompletionPerRun(events: seq<Meters.Event>, run: seq<Runs.Event>)
    requires Carries(events, run) && Runs.OneTerminalLast(run)
    ensures Completions(Sse.MapAll(Sse.NEW_STATE, events).1) == [FrameFor(EndOfLoop(run[|run| - 1]).value)]
  {
    CompletionsAreOwnEnds(events);
    NoEnds(run[..|run| - 1]);
    assert LoopEnds(run) == [EndOfLoop(run[|run| - 1]).value];
  }

  /**
   One run of the loop, with the wrapper that reports an exception which escapes it: whatever queue
   carries the run, the browser is told exactly once that it is complete, and how it ended.
   */
  method RunAgent(
      session: SessionState, cm: ContextManager, env: nat -> Runs.RoundEnv, synthesis: seq<Runs.StreamEvent>,
      u: Runs.Setup, hasRunId: bool, ghost r: Renderer)
    returns (run: seq<Runs.Event>, ending: Runs.Ending)
    requires UserOpens(session.messages) && Loop.Fits(u, cm)
    modifies session
    ensures old(session.messages) <= session.messages && Runs.OneTerminalLast(run)
    ensures forall events | Carries(events, run) ::
              Completions(Sse.MapAll(Sse.NEW_STATE, events).1) == [FrameFor(EndOfLoop(run[|run| - 1]).value)]
    ensures ending == Runs.Escaped ==> run[|run| - 1].Failed?
    ensures Runs.GoodLimits(u.limits) && Runs.ToolsContained(env) ==> ending != Runs.Escaped
  {
    hide Runs.RunIs, Runs.CheckpointsPaired, Runs.RequestsAcceptable, Runs.EndsPaired, Carries, FrameFor;
    var trace;
    ghost var turns;
    trace, ending, turns := Loop.IterateReactSteps(session, cm, env, synthesis, u, hasRunId, r);
    run := trace.events;
    if ending == Runs.Escaped {
      Runs.TerminalAtEnd(run, Runs.Failed("escaped"));
      run := run + [Runs.Failed("escaped")];
    }
    forall events | Carries(events, run)
      ensures Completions(Sse.MapAll(Sse.NEW_STATE, events).1) == [FrameFor(EndOfLoop(run[|run| - 1]).value)]
    {
      OneCompletionPerRun(events, run);
    }
  }

  // ---------- The bounded queue in between ----------

  /** `emit` drops an event that finds the queue full. */
  datatype Move = Emit(event: Meters.Event) | Take

  function Waiting(moves: seq<Move>, max: nat): nat {
    if moves == [] then 0
    else
      var before := Waiting(moves[..|moves| - 1], max);
      match moves[|moves| - 1]
      case Emit(_) => if before < max then before + 1 else before
      case Take => if before > 0 then before - 1 else 0
  }

  /** The events that made it into the queue, and so to the mapper. */
  function Accepted(moves: seq<Move>, max: nat): seq<Meters.Event> {
    if moves == [] then []
    else
      var init, last := moves[..|moves| - 1], moves[|moves| - 1];
      Accepted(init, max) + if last.Emit? && Waiting(init, max) < max then [last.event] else []
  }

  predicate OwnEnd(m: Move) {
    m.Emit? && Meters.NestedPayload(m.event).None? && EndOf(m.event.body).Some?
  }

  /** One terminal event of the parent turn is emitted, at position `n`. */
  ghost predicate EndsAt(moves: seq<Move>, n: nat) {
    n < |moves| && forall k | 0 <= k < |moves| :: OwnEnd(moves[k]) <==> k == n
  }

  lemma {:induction false} AcceptedEnds(moves: seq<Move>, max: nat)
    requires forall k | 0 <= k < |moves| :: !OwnEnd(moves[k])
    ensures OwnEnds(Accepted(moves, max)) == []
  {
    hide OwnEnd, Waiting;
    if moves != [] {
      AcceptedEnds(moves[..|moves| - 1], max);
      AcceptedSnoc(moves, max);
    }
  }

  lemma OwnEndsOf(before: seq<Meters.Event>, after: seq<Meters.Event>, m: Move)
    requires after == before || (m.Emit? && after == before + [m.event])
    ensures OwnEnds(after) ==
            OwnEnds(before) + if after != before && OwnEnd(m) then [EndOf(m.event.body).value] else []
  {
    hide Meters.NestedPayload;
    if after != before {
      assert after[..|after| - 1] == before;
    }
  }

  lemma {:induction false} AcceptedOneEnd(moves: seq<Move>, n: nat, max: nat)
    requires EndsAt(moves, n)
    ensures OwnEnds(Accepted(moves, max)) ==
            if Waiting(moves[..n], max) < max then [EndOf(moves[n].event.body).value] else []
  {
    hide OwnEnd, Waiting, OwnEnds, Accepted, EndOf;
    EndIsEmit(moves, n);
    var init, last := moves[..|moves| - 1], moves[|moves| - 1];
    assert forall k | 0 <= k < |init| :: init[k] == moves[k];
    AcceptedSnoc(moves, max);
    if n == |moves| - 1 {
      AcceptedEnds(init, max);
      assert init == moves[..n];
    } else {
      AcceptedOneEnd(init, n, max);
      assert init[..n] == moves[..n];
    }
  }

  lemma EndIsEmit(moves: seq<Move>, n: nat)
    requires EndsAt(moves, n)
    ensures moves[n].Emit? && EndOf(moves[n].event.body).Some?
  {
    assert OwnEnd(moves[n]);
  }

  /** One move adds the end it carries, if it finds room. */
  lemma AcceptedSnoc(moves: seq<Move>, max: nat)
    requires moves != []
    ensures var init, last := moves[..|moves| - 1], moves[|moves| - 1];
            && (OwnEnd(last) ==> last.Emit? && EndOf(last.event.body).Some?)
            && OwnEnds(Accepted(moves, max)) ==
               OwnEnds(Accepted(init, max)) +
               if OwnEnd(last) && Waiting(init, max) < max then [EndOf(last.event.body).value] else []
  {
    hide Meters.NestedPayload, Waiting;
    var init := moves[..|moves| - 1];
    var before := Accepted(init, max);
    OwnEndsOf(before, Accepted(moves, max), moves[|moves| - 1]);
    assert OwnEnds(before) + [] == OwnEnds(before);
  }

  /**
   The queue decides whether the end is seen: exactly one completion frame is sent if the terminal
   event finds room in the queue, and none at all if it does not.
   */
  lemma EndIsSeenIfThereIsRoom(moves: seq<Move>, n: nat, max: nat)
    requires EndsAt(moves, n)
    ensures Completions(Sse.MapAll(Sse.NEW_STATE, Accepted(moves, max)).1) ==
            FramesFor(if Waiting(moves[..n], max) < max then [EndOf(moves[n].event.body).value] else [])
  {
    hide Sse.MapAll, Accepted, Waiting;
    AcceptedOneEnd(moves, n, max);
    CompletionsAreOwnEnds(Accepted(moves, max));
  }

  /** Events that nobody takes out of the queue. */
  function Unread(n: nat): seq<Move> {
    if n == 0 then [] else Unread(n - 1) + [Emit(Meters.Event(Meters.TraceBody("agent.trace"), None, None))]
  }

  lemma TraceIsNoEnd()
    ensures !OwnEnd(Emit(Meters.Event(Meters.TraceBody("agent.trace"), None, None)))
  {
  }

  lemma {:induction false} UnreadEndsNothing(n: nat)
    ensures |Unread(n)| == n && forall k | 0 <= k < n :: !OwnEnd(Unread(n)[k])
  {
    hide OwnEnd;
    if n > 0 {
      UnreadEndsNothing(n - 1);
      TraceIsNoEnd();
    }
  }

  lemma UnreadLast(n: nat)
    requires n > 0
    ensures |Unread(n)| == n && Unread(n)[..n - 1] == Unread(n - 1) && Unread(n)[n - 1].Emit?
  {
    UnreadEndsNothing(n - 1);
  }

  lemma {:induction false} UnreadWaits(n: nat, max: nat)
    requires n <= max
    ensures Waiting(Unread(n), max) == n
  {
    hide Unread;
    if n > 0 {
      UnreadWaits(n - 1, max);
      UnreadLast(n);
    } else {
      UnreadEndsNothing(0);
    }
  }

  /** For every queue size: a reader that stalls while the queue fills up never hears of the end. */
  lemma FullQueueLosesTheEnd(max: nat)
    ensures var end := Meters.Event(Meters.Completed, None, None);
            Completions(Sse.MapAll(Sse.NEW_STATE, Accepted(Unread(max) + [Emit(end)], max)).1) == []
  {
    hide Sse.MapAll, Accepted, Unread, Waiting, Meters.NestedPayload;
    var end := Emit(Meters.Event(Meters.Completed, None, None));
    var moves := Unread(max) + [end];
    UnreadEndsNothing(max);
    UnreadWaits(max, max);
    TopLevel(Meters.Completed);
    assert moves[..max] == Unread(max) && moves[max] == end;
    assert forall k | 0 <= k < max :: moves[k] == Unread(max)[k];
    EndIsSeenIfThereIsRoom(moves, max, max);
  }

  lemma TopLevel(body: Meters.Body)
    ensures Meters.NestedPayload(Meters.Event(body, None, None)).None?
  {
  }
}

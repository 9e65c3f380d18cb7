/**
 The agent loop: model call, tool phase, results, repeat, as the service runs it over a session,
 proved to do in every run what `ReactRuns` says.
 */
module ReactLoop {
  import opened PyText
  import opened Messages
  import opened ContextPasses
  import opened ContextBounds
  import opened ContextManagement
  import opened ContextPins
  import opened AgentBudget
  import opened ToolExecutor
  import opened OpenAiWire
  import opened ReactRuns

  /** The run's limits are those of the context manager. */
  ghost predicate Fits(u: Setup, cm: ContextManager)
    reads cm
  {
    u.limits == cm.CurrentLimits() && u.summarize == cm.summarize
  }

  /** Where the loop stands, in the session, the tracker and what it carries itself. */
  ghost function View(session: SessionState, tracker: LoopTracker, carry: Carry): Standing
    reads session, tracker
  {
    Standing(session.messages, session.stepCount, session.pinnedContext, carry.memory, carry.warned, tracker.history)
  }

  // ---------- The parts of one round ----------

  /** Relays the model's stream and keeps the last assistant message. */
  method RelayStream(stream: seq<StreamEvent>) returns (content: seq<Block>, events: seq<Event>)
    ensures content == FinalContent(stream) && events == Relayed(stream)
  {
    content, events := [], [];
    for i := 0 to |stream|
      invariant content == FinalContent(stream[..i]) && events == Relayed(stream[..i])
    {
      assert stream[..i + 1][..i] == stream[..i];
      events := events + [Streamed(stream[i])];
      if stream[i].AssistantMessage? {
        content := stream[i].content;
      }
    }
    assert stream[..|stream|] == stream;
  }

  /** The request of one round: processed history, then notes spoken as the user. */
  method BuildRequest(
      session: SessionState, cm: ContextManager, memory: nat, warn: bool, u: Setup,
      ghost r: Renderer, ghost idsPresent: bool)
    returns (request: Outcome<seq<Message>>)
    requires UserOpens(session.messages) && Fits(u, cm)
    requires idsPresent ==> CallsHaveIds(session.messages)
    ensures request == RequestFor(session.messages, session.pinnedContext, memory, warn, u.limits, u.summarize, u.prompts)
    ensures GoodLimits(u.limits) ==> request.Done? && Acceptable(request.value, r, idsPresent)
  {
    hide Processed, Acceptable, UserOpens, CallsHaveIds, PinnedToolUseIds;
    var pins := PinnedToolUseIds(session.pinnedContext);
    var processed :- cm.ProcessMessages(session.messages, pins);
    var extra := [];
    if session.pinnedContext != [] {
      extra := extra + [Message(User, Plain(u.prompts.pinned(session.pinnedContext)))];
    }
    if memory > 0 {
      extra := extra + [Message(User, Plain(u.prompts.memory(memory)))];
    }
    if warn {
      extra := extra + [Message(User, Plain(u.prompts.budgetSteering))];
    }
    assert extra == Notes(session.pinnedContext, memory, warn, u.prompts);
    if GoodLimits(u.limits) {
      NotesAreQuiet(session.pinnedContext, memory, warn, u.prompts);
      RequestIsAcceptable(session.messages, pins, u.limits, u.summarize, extra, r, idsPresent);
    }
    return Done(processed + extra);
  }

  /** Tool calls of the assistant's content, collected in order. */
  method CollectToolUses(content: seq<Block>) returns (uses: seq<Block>)
    ensures uses == ToolUsesOf(content)
  {
    uses := [];
    for i := 0 to |content|
      invariant uses == ToolUsesOf(content[..i])
    {
      assert content[..i + 1][..i] == content[..i];
      if content[i].ToolUse? {
        uses := uses + [content[i]];
      }
    }
    assert content[..|content|] == content;
  }

  /** The tool phase, including the path on which it runs out of time. */
  method RunToolPhase(uses: seq<Block>, phase: ToolPhase) returns (answer: Option<seq<Block>>)
    requires uses != [] && forall b | b in uses :: b.ToolUse?
    ensures EndingOfTools(uses, phase) == if answer.None? then Some(Escaped) else None
    ensures answer.Some? ==> PhaseSettles(answer.value, uses, phase)
  {
    match phase {
      case PhaseTimedOut(note) =>
        var results := TimedOutResults(uses, note);
        return Some(results);
      case PhaseRan(fate) =>
        answer := ExecuteToolsParallel(uses, fate);
    }
  }

  /** The request of the closing call: processed history, without pins. */
  method FinalRequest(session: SessionState, cm: ContextManager, u: Setup, ghost r: Renderer, ghost idsPresent: bool)
    returns (request: Outcome<seq<Message>>)
    requires UserOpens(session.messages) && Fits(u, cm)
    requires idsPresent ==> CallsHaveIds(session.messages)
    ensures request == Processed(session.messages, {}, u.limits, u.summarize)
    ensures GoodLimits(u.limits) ==> request.Done? && Acceptable(request.value, r, idsPresent)
  {
    request := cm.ProcessMessages(session.messages, {});
    if GoodLimits(u.limits) {
      RequestIsAcceptable(session.messages, {}, u.limits, u.summarize, [], r, idsPresent);
      assert request.value + [] == request.value;
    }
  }

  /** One more model call, without tools, so that a spent budget still yields an answer. */
  method SynthesizeFinalReply(
      session: SessionState, cm: ContextManager, stream: seq<StreamEvent>, reason: string, u: Setup,
      ghost r: Renderer, ghost idsPresent: bool)
    returns (events: seq<Event>, requests: seq<seq<Message>>, ending: Ending)
    requires UserOpens(session.messages) && Fits(u, cm)
    requires idsPresent ==> CallsHaveIds(session.messages)
    modifies session`messages
    ensures old(session.messages) <= session.messages == ClosedWith(old(session.messages), stream, u)
    ensures var request := ClosingRequest(old(session.messages), u);
            if request.Done? then
              && ending == Synthesized && requests == [request.value]
              && events == Relayed(stream) + [UsageEstimate] + [Completed(reason, session.stepCount)]
            else ending == Escaped && requests == [] && events == []
    ensures GoodLimits(u.limits) ==> ending == Synthesized && forall q | q in requests :: Acceptable(q, r, idsPresent)
    ensures ending == Synthesized ==> OneTerminalLast(events)
    ensures ending == Synthesized ==> (WellPaired(session.messages) <==> UseIds(FinalContent(stream)) == [])
  {
    events, requests := [], [];
    PlainKeepsPromises(session.messages, u.prompts.budgetExhausted, idsPresent);
    session.AddMessage(Message(User, Plain(u.prompts.budgetExhausted)));
    var request := FinalRequest(session, cm, u, r, idsPresent);
    if request.IndexError? {
      return events, requests, Escaped;
    }
    requests := [request.value];
    var content;
    content, events := RelayStream(stream);
    AssistantEnds(session.messages, content);
    session.AddMessage(Message(Assistant, Blocks(content)));
    TerminalAtEnd(events + [UsageEstimate], Completed(reason, session.stepCount));
    events := events + [UsageEstimate] + [Completed(reason, session.stepCount)];
    ending := Synthesized;
  }

  /** A reply that calls a tool although it was asked for without tools. */
  const STRAY_REPLY := [AssistantMessage([ToolUse("a", "search", "")])]

  lemma GreetingOpens()
    ensures UserOpens([Message(User, Plain("hi"))]) && CallsHaveIds([Message(User, Plain("hi"))])
    ensures UseIds(FinalContent(STRAY_REPLY)) == ["a"]
  {
    PairedSingleton(Message(User, Plain("hi")));
    assert STRAY_REPLY[0].content[..0] == [];
  }

  /** A session that was well paired, and after a synthesised reply is not. */
  method SynthesisMayLeaveCalls(cm: ContextManager, u: Setup, ghost r: Renderer)
    returns (session: SessionState, ending: Ending)
    requires GoodLimits(u.limits) && Fits(u, cm)
    ensures fresh(session) && ending == Synthesized && !WellPaired(session.messages)
  {
    GreetingOpens();
    session := new SessionState([Message(User, Plain("hi"))], 0, []);
    var _, _, end := SynthesizeFinalReply(session, cm, STRAY_REPLY, "max_rounds_reached", u, r, true);
    ending := end;
  }

  /** The tool half of a round: calls, results, pins and the checkpoint. `None`: an exception escapes. */
  method ToolHalf(
      session: SessionState, content: seq<Block>, phase: ToolPhase, policy: PinPolicy, hasRunId: bool,
      ghost idsPresent: bool)
    returns (answer: Option<seq<Block>>, checkpoints: seq<seq<Message>>)
    requires UserOpens(session.messages) && UseIds(content) != []
    requires idsPresent ==> CallsHaveIds(session.messages) && "" !in UseIds(content)
    modifies session`messages, session`pinnedContext
    ensures EndingOfTools(ToolUsesOf(content), phase) == if answer.None? then Some(Escaped) else None
    ensures answer.None? ==>
              checkpoints == [] && session.messages == old(session.messages) + [Message(Assistant, Blocks(content))]
    ensures answer.Some? ==>
              && PhaseSettles(answer.value, ToolUsesOf(content), phase)
              && session.messages == old(session.messages) + RoundOf(content, answer.value)
              && UserOpens(session.messages)
              && (idsPresent ==> CallsHaveIds(session.messages))
              && checkpoints == if hasRunId then [session.messages] else []
    ensures answer.Some? ==>
              session.pinnedContext ==
              Recorded(old(session.pinnedContext), ToolUsesOf(content), answer.value, policy)
  {
    checkpoints := [];
    var uses := CollectToolUses(content);
    ToolUsesOfIds(content);
    ghost var before := session.messages;
    session.AddMessage(Message(Assistant, Blocks(content)));
    answer := RunToolPhase(uses, phase);
    if answer.None? {
      return;
    }
    session.AddMessage(Message(User, Blocks(answer.value)));
    RoundKeepsPromises(before, content, answer.value, idsPresent);
    assert session.messages == before + RoundOf(content, answer.value);
    RecordPins(session, uses, answer.value, policy);
    if hasRunId {
      checkpoints := [session.messages];
    }
  }

  /** The model half of a round: request, stream, usage estimate. */
  method ModelHalf(
      session: SessionState, cm: ContextManager, model: ModelTurn, memory: nat, warn: bool, u: Setup,
      ghost r: Renderer, ghost idsPresent: bool)
    returns (trace: Outcome<Trace>, content: seq<Block>)
    requires UserOpens(session.messages) && Fits(u, cm)
    requires idsPresent ==> CallsHaveIds(session.messages)
    ensures var request := RequestFor(session.messages, session.pinnedContext, memory, warn, u.limits, u.summarize, u.prompts);
            if request.Done? then
              trace == Done(Trace(
                [ContextEvent(|request.value|)] + Relayed(model.stream) + [UsageEstimate], [request.value], []))
            else trace == IndexError
    ensures GoodLimits(u.limits) ==> trace.Done? && RequestsAcceptable(trace.value, r, idsPresent)
    ensures trace.Done? ==> content == FinalContent(model.stream) && NoTerminal(trace.value.events)
  {
    content := [];
    var request := BuildRequest(session, cm, memory, warn, u, r, idsPresent);
    if request.IndexError? {
      return IndexError, content;
    }
    var streamed;
    content, streamed := RelayStream(model.stream);
    return Done(Trace([ContextEvent(|request.value|)] + streamed + [UsageEstimate], [request.value], [])),
           content;
  }

  /** Tells the model that it repeats itself. */
  method Nudge(session: SessionState, repeated: bool, prompts: Prompts, ghost idsPresent: bool)
    requires UserOpens(session.messages)
    requires idsPresent ==> CallsHaveIds(session.messages)
    modifies session`messages
    ensures session.messages ==
            old(session.messages) + if repeated then [Message(User, Plain(prompts.loopSteering))] else []
    ensures UserOpens(session.messages) && (idsPresent ==> CallsHaveIds(session.messages))
  {
    if repeated {
      PlainKeepsPromises(session.messages, prompts.loopSteering, idsPresent);
      session.AddMessage(Message(User, Plain(prompts.loopSteering)));
    } else {
      assert session.messages + [] == session.messages;
    }
  }

  /** What follows the checkpoint: loop detection and the scratchpad. */
  method AfterTools(
      session: SessionState, tracker: LoopTracker, content: seq<Block>, results: seq<Block>,
      u: Setup, memory: nat, ghost idsPresent: bool)
    returns (events: seq<Event>, grown: nat)
    requires UserOpens(session.messages) && tracker.Valid()
    requires idsPresent ==> CallsHaveIds(session.messages)
    modifies session`messages, tracker
    ensures tracker.Valid() && NoTerminal(events)
    ensures tracker.history == old(tracker.history) + Fingerprints(ToolUsesOf(content), u.digest)
    ensures session.messages == old(session.messages) + Steering(tracker.history, u.prompts)
    ensures grown == UpdatedMemory(memory, results, u.prompts)
    ensures events == ResultEvents(results) + if grown > 0 then [MemoryEvent(grown)] else []
    ensures UserOpens(session.messages) && (idsPresent ==> CallsHaveIds(session.messages))
  {
    events := ResultEvents(results);
    var uses := CollectToolUses(content);
    tracker.Record(uses, u.digest);
    var repeated := tracker.HasRepeat();
    Nudge(session, repeated, u.prompts, idsPresent);
    assert session.messages == old(session.messages) + Steering(tracker.history, u.prompts);
    grown := UpdatedMemory(memory, results, u.prompts);
    if grown > 0 {
      events := events + [MemoryEvent(grown)];
    }
  }

  /** Everything after the model has called tools. `None`: an exception escapes. */
  method ToolRound(
      session: SessionState, tracker: LoopTracker, content: seq<Block>, phase: ToolPhase,
      u: Setup, hasRunId: bool, memory: nat, ghost idsPresent: bool)
    returns (answer: Option<seq<Block>>, trace: Trace, grown: nat)
    requires UserOpens(session.messages) && UseIds(content) != [] && tracker.Valid()
    requires idsPresent ==> CallsHaveIds(session.messages) && "" !in UseIds(content)
    modifies session`messages, session`pinnedContext, tracker
    ensures tracker.Valid() && old(session.messages) <= session.messages
    ensures CheckpointsPaired(trace, old(session.messages), session.messages)
    ensures EndingOfTools(ToolUsesOf(content), phase) == if answer.None? then Some(Escaped) else None
    ensures answer.None? ==>
              trace == NOTHING && session.messages == old(session.messages) + [Message(Assistant, Blocks(content))]
    ensures answer.Some? ==>
              && UserOpens(session.messages) && (idsPresent ==> CallsHaveIds(session.messages))
              && PhaseSettles(answer.value, ToolUsesOf(content), phase)
              && tracker.history == old(tracker.history) + Fingerprints(ToolUsesOf(content), u.digest)
              && session.messages ==
                 old(session.messages) + RoundOf(content, answer.value) + Steering(tracker.history, u.prompts)
              && session.pinnedContext ==
                 Recorded(old(session.pinnedContext), ToolUsesOf(content), answer.value, u.policy)
              && grown == UpdatedMemory(memory, answer.value, u.prompts)
              && NoTerminal(trace.events)
              && trace == Trace(
                   ResultEvents(answer.value) + (if grown > 0 then [MemoryEvent(grown)] else []), [],
                   if hasRunId then [old(session.messages) + RoundOf(content, answer.value)] else [])
  {
    var saved;
    answer, saved := ToolHalf(session, content, phase, u.policy, hasRunId, idsPresent);
    if answer.None? {
      return None, NOTHING, memory;
    }
    var events;
    events, grown := AfterTools(session, tracker, content, answer.value, u, memory, idsPresent);
    trace := Trace(events, [], saved);
  }

  /** What ends a turn behind the model call: its time is up, it was cancelled, or no tool is called. */
  method StopBeforeTools(session: SessionState, started: Trace, round: RoundEnv, content: seq<Block>)
    returns (trace: Trace, ended: Option<Ending>)
    requires UserOpens(session.messages) && NoTerminal(started.events)
    requires !round.wallAtHead && !round.cancelledAtHead && content == FinalContent(round.model.stream)
    modifies session`messages
    ensures trace.requests == started.requests && trace.checkpoints == started.checkpoints
    ensures ended ==
            if round.model.timedOut || round.model.cancelled then Some(StoppedEarly)
            else if ToolUsesOf(content) == [] then Some(EndTurn) else None
    ensures ended.None? ==> trace == started && UseIds(content) != [] && session.messages == old(session.messages)
    ensures ended.Some? ==> WellPaired(session.messages)
    ensures ended.Some? ==>
              trace.events == started.events + [TerminalAt(round, session.stepCount)] && OneTerminalLast(trace.events)
    ensures session.messages ==
            old(session.messages) + if ended == Some(EndTurn) then [Message(Assistant, Blocks(content))] else []
  {
    trace, ended := started, None;
    assert session.messages + [] == session.messages;
    if round.model.timedOut {
      TerminalAtEnd(trace.events, Failed("llm_stream_timeout"));
      return trace.(events := trace.events + [Failed("llm_stream_timeout")]), Some(StoppedEarly);
    }
    if round.model.cancelled {
      TerminalAtEnd(trace.events, Cancelled(session.stepCount));
      return trace.(events := trace.events + [Cancelled(session.stepCount)]), Some(StoppedEarly);
    }
    ToolUsesOfIds(content);
    var uses := CollectToolUses(content);
    if uses == [] {
      AssistantEnds(session.messages, content);
      session.AddMessage(Message(Assistant, Blocks(content)));
      TerminalAtEnd(trace.events, Completed("end_turn", session.stepCount));
      return trace.(events := trace.events + [Completed("end_turn", session.stepCount)]), Some(EndTurn);
    }
  }

  /** The turn from the tool calls on, behind what the model was asked. */
  method UseTools(
      session: SessionState, tracker: LoopTracker, round: RoundEnv, content: seq<Block>, started: Trace,
      synthesis: seq<StreamEvent>, u: Setup, hasRunId: bool, carry: Carry,
      ghost s: Standing, ghost r: Renderer, ghost idsPresent: bool)
    returns (trace: Trace, next: Carry, ended: Option<Ending>, ghost results: seq<Block>)
    requires UserOpens(session.messages) && tracker.Valid() && content == FinalContent(round.model.stream)
    requires UseIds(content) != [] && (idsPresent ==> CallsHaveIds(session.messages) && "" !in UseIds(content))
    requires Asked(s, round, u, started) && !round.model.timedOut && !round.model.cancelled
    requires View(session, tracker, carry) == s.(steps := s.steps + 1, warned := s.warned || Warns(s, round, u.turns))
    requires NoTerminal(started.events) && (GoodLimits(u.limits) ==> RequestsAcceptable(started, r, idsPresent))
    modifies session`messages, session`pinnedContext, tracker
    ensures tracker.Valid()
    ensures RoundIs(s, round, synthesis, u, hasRunId, trace, ended, View(session, tracker, next), results)
    ensures RoundKeeps(trace, ended, old(session.messages), session.messages, synthesis, u, r, idsPresent)
  {
    hide RoundIs, ClosedWith, ClosingRequest, RequestFor, TerminalAt, PhaseSettles, Steering, Recorded,
      FinalContent, ToolUsesOf, Fingerprints, UpdatedMemory, Relayed, EndingOfTools, WellPaired,
      RequestsAcceptable, CheckpointsPaired, NoTerminal, CallsHaveIds, UserOpens, GoodLimits, Acceptable, OneTerminalLast,
      RoundKeeps;
    next, trace := carry, started;
    var answer, rest, grown := ToolRound(
      session, tracker, content, round.tools, u, hasRunId, carry.memory, idsPresent);
    NothingSent(NOTHING, r, idsPresent, s.messages, session.messages);
    HalvesKeep(trace, rest, if answer.None? then Some(Escaped) else None, s.messages, session.messages,
               synthesis, u, r, idsPresent);
    if answer.None? {
      EscapedRound(s, round, synthesis, u, hasRunId, trace, View(session, tracker, next));
      return trace.Then(rest), next, Some(Escaped), [];
    }
    next := next.(memory := grown);
    RoundOn(s, round, synthesis, u, hasRunId, trace, rest, View(session, tracker, next), answer.value);
    return trace.Then(rest), next, None, answer.value;
  }

  /** The turn from the model call on, from where the loop stood at its head. */
  method CallModel(
      session: SessionState, cm: ContextManager, tracker: LoopTracker, round: RoundEnv,
      synthesis: seq<StreamEvent>, u: Setup, hasRunId: bool, carry: Carry,
      ghost s: Standing, ghost r: Renderer, ghost idsPresent: bool)
    returns (trace: Trace, next: Carry, ended: Option<Ending>, ghost results: seq<Block>)
    requires UserOpens(session.messages) && tracker.Valid() && Fits(u, cm)
    requires !round.wallAtHead && !round.cancelledAtHead && View(session, tracker, carry) == s.(steps := s.steps + 1)
    requires idsPresent ==>
               CallsHaveIds(session.messages) && "" !in UseIds(FinalContent(round.model.stream))
    modifies session`messages, session`pinnedContext, tracker
    ensures tracker.Valid()
    ensures RoundIs(s, round, synthesis, u, hasRunId, trace, ended, View(session, tracker, next), results)
    ensures RoundKeeps(trace, ended, old(session.messages), session.messages, synthesis, u, r, idsPresent)
  {
    hide RoundIs, ClosedWith, ClosingRequest, RequestFor, TerminalAt, PhaseSettles, Steering, Recorded,
      FinalContent, ToolUsesOf, Fingerprints, UpdatedMemory, Relayed, EndingOfTools, WellPaired,
      RequestsAcceptable, CheckpointsPaired, NoTerminal, CallsHaveIds, UserOpens, GoodLimits, Acceptable, OneTerminalLast,
      RoundKeeps;
    next, results := carry, [];
    var warn := !carry.warned && session.stepCount >= u.turns.WarnRounds() && !round.wallAtWarning;
    next := next.(warned := carry.warned || warn);
    var started, content := ModelHalf(session, cm, round.model, carry.memory, warn, u, r, idsPresent);
    if started.IndexError? {
      UnsentKeeps(session.messages, synthesis, u, r, idsPresent);
      UnsentRound(s, round, synthesis, u, hasRunId, View(session, tracker, next));
      return NOTHING, next, Some(Escaped), [];
    }
    assert Asked(s, round, u, started.value);
    trace, ended := StopBeforeTools(session, started.value, round, content);
    if ended.Some? {
      StoppedKeeps(started.value, trace, ended.value, s.messages, session.messages, synthesis, u, r, idsPresent);
      StoppedRound(s, round, synthesis, u, hasRunId, started.value, trace, ended, View(session, tracker, next));
      return;
    }
    trace, next, ended, results :=
      UseTools(session, tracker, round, content, trace, synthesis, u, hasRunId, next, s, r, idsPresent);
  }

  /** One turn of the loop; `ended` says whether it is the last. */
  method ReactRound(
      session: SessionState, cm: ContextManager, tracker: LoopTracker, round: RoundEnv,
      synthesis: seq<StreamEvent>, u: Setup, hasRunId: bool, carry: Carry,
      ghost r: Renderer, ghost idsPresent: bool)
    returns (trace: Trace, next: Carry, ended: Option<Ending>, ghost results: seq<Block>)
    requires UserOpens(session.messages) && tracker.Valid() && Fits(u, cm)
    requires idsPresent ==>
               CallsHaveIds(session.messages) && "" !in UseIds(FinalContent(round.model.stream))
    modifies session, tracker
    // What the round does is as defined, and it keeps what the loop promises.
    ensures tracker.Valid()
    ensures RoundIs(old(View(session, tracker, carry)), round, synthesis, u, hasRunId, trace, ended, View(session, tracker, next), results)
    ensures RoundKeeps(trace, ended, old(session.messages), session.messages, synthesis, u, r, idsPresent)
  {
    hide RoundIs, ClosedWith, ClosingRequest, RequestFor, TerminalAt, PhaseSettles, Steering, Recorded,
      FinalContent, ToolUsesOf, Fingerprints, UpdatedMemory, Relayed, EndingOfTools, WellPaired,
      RequestsAcceptable, CheckpointsPaired, NoTerminal, CallsHaveIds, UserOpens, GoodLimits, Acceptable, OneTerminalLast,
      RoundKeeps;
    next, results := carry, [];
    ghost var s := View(session, tracker, carry);
    session.stepCount := session.stepCount + 1;
    if round.wallAtHead {
      var events, requests, ending := SynthesizeFinalReply(
        session, cm, synthesis, "wall_clock_exhausted", u, r, idsPresent);
      WallRound(s, round, synthesis, u, hasRunId, events, requests, ending, View(session, tracker, next));
      ClosedKeeps(Trace(events, requests, []), ending, s.messages, session.messages, synthesis, u, r, idsPresent);
      return Trace(events, requests, []), next, Some(ending), [];
    }
    if round.cancelledAtHead {
      QuietKeeps(Trace([Cancelled(session.stepCount)], [], []), session.messages, synthesis, u, r, idsPresent,
                 Cancelled(session.stepCount));
      CancelledRound(s, round, synthesis, u, hasRunId, View(session, tracker, next));
      return Trace([Cancelled(session.stepCount)], [], []), next, Some(StoppedEarly), [];
    }
    trace, next, ended, results :=
      CallModel(session, cm, tracker, round, synthesis, u, hasRunId, carry, s, r, idsPresent);
  }

  // ---------- The loop ----------

  /** What happens once no round is left: a synthesised reply, or plain completion. */
  method RoundsExhausted(
      session: SessionState, cm: ContextManager, synthesis: seq<StreamEvent>, u: Setup,
      ghost s: Standing, ghost r: Renderer, ghost idsPresent: bool)
    returns (trace: Trace, ending: Ending)
    requires UserOpens(session.messages) && Fits(u, cm)
    requires s.messages == session.messages && s.steps == session.stepCount
    requires idsPresent ==> CallsHaveIds(session.messages)
    modifies session`messages
    ensures old(session.messages) <= session.messages == ExhaustedWith(old(session.messages), synthesis, u)
    ensures ending == ExhaustedEnding(old(session.messages), u)
    ensures trace == ExhaustedTrace(s, synthesis, u) && |trace.requests| <= 1 && trace.checkpoints == []
    ensures GoodLimits(u.limits) ==> ending != Escaped && RequestsAcceptable(trace, r, idsPresent)
    ensures if ending == Escaped then NoTerminal(trace.events) else OneTerminalLast(trace.events)
    ensures EndsPaired(ending, session.messages, synthesis)
  {
    if u.turns.synthesizeOnExhaust {
      var events, requests;
      events, requests, ending := SynthesizeFinalReply(
        session, cm, synthesis, "max_rounds_reached", u, r, idsPresent);
      return Trace(events, requests, []), ending;
    }
    TerminalAtEnd([], Completed("max_steps_reached", session.stepCount));
    assert [] + [Completed("max_steps_reached", session.stepCount)] == [Completed("max_steps_reached", session.stepCount)];
    return Trace([Completed("max_steps_reached", session.stepCount)], [], []), OutOfSteps;
  }

  method IterateReactSteps(
      session: SessionState, cm: ContextManager, env: nat -> RoundEnv, synthesis: seq<StreamEvent>,
      u: Setup, hasRunId: bool, ghost r: Renderer)
    returns (trace: Trace, ending: Ending, ghost turns: seq<seq<Block>>)
    requires UserOpens(session.messages) && Fits(u, cm)
    modifies session
    // The run is the one that its surroundings define, round by round.
    ensures RunIs(old(Standing(session.messages, session.stepCount, session.pinnedContext, 0, false, [])),
                  env, turns, synthesis, u, hasRunId, trace, ending, session.messages, session.stepCount)
    ensures old(session.messages) <= session.messages
    // Only bad limits or an escaping lone tool call can make the loop raise.
    ensures GoodLimits(u.limits) && ToolsContained(env) ==> ending != Escaped
    // Exactly one terminal event, as the last event; none when an exception escapes.
    ensures if ending == Escaped then NoTerminal(trace.events) else OneTerminalLast(trace.events)
    // At most one model call per remaining round, and one to synthesise.
    ensures |trace.requests| <= (if u.turns.maxRounds > old(session.stepCount)
                                 then u.turns.maxRounds - old(session.stepCount) else 0) + 1
    // Every request of the run is acceptable to every provider.
    ensures GoodLimits(u.limits) ==>
              RequestsAcceptable(trace, r, old(CallsHaveIds(session.messages)) && ModelGivesIds(env))
    // Every checkpoint is a well-paired history that extends the one at the start.
    ensures CheckpointsPaired(trace, old(session.messages), session.messages)
    // The session stays well paired, except that a synthesised reply may call tools nobody answers.
    ensures EndsPaired(ending, session.messages, synthesis)
  {
    hide RoundIs, RunIs, Stood, TraceOver, ExhaustedTrace, GoesOn, EndingAt, WellPaired, UserOpens, EndsPaired, OneTerminalLast, NoTerminal,
      RequestsAcceptable, CheckpointsPaired, FinalContent, GoodLimits;
    ghost var ids := CallsHaveIds(session.messages) && ModelGivesIds(env);
    ghost var start := Standing(session.messages, session.stepCount, session.pinnedContext, 0, false, []);
    var tracker := new LoopTracker();
    trace, turns := NOTHING, [];
    RunStarts(start, env, u);
    NothingSent(NOTHING, r, ids, start.messages, session.messages);
    var carry, i := Carry(0, false), 0;
    while session.stepCount < u.turns.maxRounds
      invariant fresh(tracker) && tracker.Valid()
      invariant View(session, tracker, carry) == Stood(start, env, turns, u) && |turns| == i
      invariant GoesOn(start, env, turns, u) && trace == TraceOver(start, env, turns, u, hasRunId)
      invariant |trace.requests| <= i == session.stepCount - start.steps
      invariant i > 0 ==> session.stepCount <= u.turns.maxRounds
      invariant UserOpens(session.messages) && start.messages <= session.messages
      invariant ids ==> CallsHaveIds(session.messages)
      invariant NoTerminal(trace.events)
      invariant GoodLimits(u.limits) ==> RequestsAcceptable(trace, r, ids)
      invariant CheckpointsPaired(trace, start.messages, session.messages)
      decreases u.turns.maxRounds - session.stepCount
    {
      ghost var was := session.messages;
      var more, next, ended, results := ReactRound(
        session, cm, tracker, env(i), synthesis, u, hasRunId, carry, r, ids);
      ghost var before := trace;
      TraceGoesOn(before, more, r, ids, GoodLimits(u.limits), start.messages, was, session.messages);
      trace := trace.Then(more);
      if ended.Some? {
        RunEnds(start, env, turns, synthesis, u, hasRunId, more, ended.value, View(session, tracker, next), results);
        return trace, ended.value, turns;
      }
      RunGoesOn(start, env, turns, synthesis, u, hasRunId, more, View(session, tracker, next), results);
      turns := turns + [results];
      carry, i := next, i + 1;
    }
    ghost var was, stood := session.messages, View(session, tracker, carry);
    var last;
    last, ending := RoundsExhausted(session, cm, synthesis, u, stood, r, ids);
    NothingSent(last, r, ids, was, session.messages);
    TraceGoesOn(trace, last, r, ids, GoodLimits(u.limits), start.messages, was, session.messages);
    RunIsExhausted(start, env, turns, synthesis, u, hasRunId, last, ending, session.messages, session.stepCount);
    return trace.Then(last), ending, turns;
  }
}

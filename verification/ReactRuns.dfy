/**
 The agent loop as a function of its surroundings: clock, cancellation, the model's stream and what
 tools do are read round by round. What each round is sent, adds and ends with is defined here, and
 what follows from it for the model and the session; the loop itself is proved to do exactly this.
 */
module ReactRuns {
  import opened PyText
  import opened Messages
  import opened ContextPasses
  import opened ContextBounds
  import opened ContextReach
  import opened ContextContents
  import opened ContextPins
  import opened AgentBudget
  import opened ToolExecutor
  import opened OpenAiWire

  datatype StreamEvent = Delta | AssistantMessage(content: seq<Block>)

  /** One model call as the loop sees it. */
  datatype ModelTurn = ModelTurn(stream: seq<StreamEvent>, timedOut: bool, cancelled: bool)

  datatype ToolPhase = PhaseTimedOut(note: string) | PhaseRan(fate: nat -> Fate)

  datatype RoundEnv = RoundEnv(
    wallAtHead: bool,
    cancelledAtHead: bool,
    wallAtWarning: bool,
    model: ModelTurn,
    tools: ToolPhase)

  /** Texts the loop adds to a request or to the session. */
  datatype Prompts = Prompts(
    pinned: seq<Pin> -> string,
    memory: nat -> string,
    budgetSteering: string,
    budgetExhausted: string,
    loopSteering: string,
    isFinding: Block -> bool)

  datatype Event =
    | ContextEvent(messages: nat)
    | Streamed(event: StreamEvent)
    | UsageEstimate
    | ToolResultEvent(result: Block)
    | MemoryEvent(findings: nat)
    | Completed(reason: string, steps: nat)
    | Cancelled(steps: nat)
    | Failed(code: string)

  predicate Terminal(e: Event) { e.Completed? || e.Cancelled? || e.Failed? }

  predicate NoTerminal(events: seq<Event>) {
    forall e | e in events :: !Terminal(e)
  }

  /** Exactly one terminal event, and nothing after it. */
  predicate OneTerminalLast(events: seq<Event>) {
    events != [] && Terminal(events[|events| - 1]) && NoTerminal(events[..|events| - 1])
  }

  /** How a run ends. `Escaped` is an exception leaving the loop. */
  datatype Ending = EndTurn | StoppedEarly | Synthesized | OutOfSteps | Escaped

  /** The content of the last `assistant_message` event. */
  function FinalContent(stream: seq<StreamEvent>): seq<Block> {
    if stream == [] then []
    else
      match stream[|stream| - 1]
      case AssistantMessage(content) => content
      case Delta => FinalContent(stream[..|stream| - 1])
  }

  function ToolUsesOf(bs: seq<Block>): seq<Block> {
    if bs == [] then []
    else
      var b := bs[|bs| - 1];
      ToolUsesOf(bs[..|bs| - 1]) + if b.ToolUse? then [b] else []
  }

  lemma {:induction false} ToolUsesOfIds(bs: seq<Block>)
    ensures UseIds(ToolUsesOf(bs)) == UseIds(bs)
    ensures forall b | b in ToolUsesOf(bs) :: b.ToolUse?
    ensures ToolUsesOf(bs) == [] <==> UseIds(bs) == []
  {
    if bs != [] {
      var n := |bs| - 1;
      ToolUsesOfIds(bs[..n]);
      if bs[n].ToolUse? {
        assert ToolUsesOf(bs)[..|ToolUsesOf(bs)| - 1] == ToolUsesOf(bs[..n]);
      } else {
        assert ToolUsesOf(bs) == ToolUsesOf(bs[..n]);
      }
    }
  }

  predicate PlainUser(m: Message) { m.role.User? && m.content.Plain? }

  lemma {:induction false} PlainUsersKeepPairing(ms: seq<Message>, extra: seq<Message>)
    requires UserOpens(ms) && forall m | m in extra :: PlainUser(m)
    ensures UserOpens(ms + extra)
  {
    if extra == [] {
      assert ms + extra == ms;
    } else {
      var n := |extra| - 1;
      PlainUsersKeepPairing(ms, extra[..n]);
      assert extra[n] in extra;
      PairedSnoc(ms + extra[..n], extra[n]);
      assert ms + extra == ms + extra[..n] + [extra[n]];
    }
  }

  /** A request every provider accepts: well paired, opened by the user, and well bracketed on the wire. */
  ghost predicate Acceptable(request: seq<Message>, r: Renderer, idsPresent: bool) {
    UserOpens(request) && (idsPresent ==> Bracketed(WireAll(request, r)))
  }

  lemma RequestIsAcceptable(
      ms: seq<Message>, pins: set<string>, l: Limits, summarize: seq<Message> -> string,
      extra: seq<Message>, r: Renderer, idsPresent: bool)
    requires UserOpens(ms) && l.maxMessages >= 2 && l.summarizeAfter >= 1
    requires idsPresent ==> CallsHaveIds(ms)
    requires forall m | m in extra :: PlainUser(m)
    ensures var p := Processed(ms, pins, l, summarize);
            p.Done? && Acceptable(p.value + extra, r, idsPresent)
  {
    ProcessedPaired(ms, pins, l, summarize);
    var p := Processed(ms, pins, l, summarize).value;
    PlainUsersKeepPairing(p, extra);
    if idsPresent {
      ProcessedCallsHaveIds(ms, pins, l, summarize);
      WireBracketed(p + extra, r);
    }
  }

  predicate GoodLimits(l: Limits) { l.maxMessages >= 2 && l.summarizeAfter >= 1 }

  // ---------- What keeps the promises ----------

  /** A finished round extends the history by a call and its reply, and keeps every promise. */
  lemma RoundKeepsPromises(ms: seq<Message>, content: seq<Block>, results: seq<Block>, idsPresent: bool)
    requires UserOpens(ms) && UseIds(content) != []
    requires AnswersCalls(results, ToolUsesOf(content))
    requires idsPresent ==> CallsHaveIds(ms) && "" !in UseIds(content)
    ensures var next := ms + [Message(Assistant, Blocks(content)), Message(User, Blocks(results))];
            UserOpens(next) && (idsPresent ==> CallsHaveIds(next))
  {
    var call, reply := Message(Assistant, Blocks(content)), Message(User, Blocks(results));
    ToolUsesOfIds(content);
    AnswersCompleteRound(results, ToolUsesOf(content), call);
    PairedRound(ms, call, reply);
    assert forall m | m in ms + [call, reply] :: m in ms || m == call || m == reply;
  }

  lemma PlainKeepsPromises(ms: seq<Message>, text: string, idsPresent: bool)
    requires UserOpens(ms) && (idsPresent ==> CallsHaveIds(ms))
    ensures var next := ms + [Message(User, Plain(text))];
            UserOpens(next) && (idsPresent ==> CallsHaveIds(next))
  {
    PairedSnoc(ms, Message(User, Plain(text)));
  }

  /** Ending on an assistant message keeps pairing exactly when it calls no tools. */
  lemma AssistantEnds(ms: seq<Message>, content: seq<Block>)
    requires UserOpens(ms)
    ensures WellPaired(ms + [Message(Assistant, Blocks(content))]) <==> UseIds(content) == []
  {
    var last := Message(Assistant, Blocks(content));
    if UseIds(content) == [] {
      PairedSnoc(ms, last);
    } else {
      assert !PairedAt(ms + [last], |ms|);
    }
  }

  /** What the loop carries from round to round besides the session. */
  datatype Carry = Carry(memory: nat, warned: bool)

  /** What one round, or a whole run, has let out so far. */
  datatype Trace = Trace(events: seq<Event>, requests: seq<seq<Message>>, checkpoints: seq<seq<Message>>) {
    function Then(next: Trace): Trace {
      Trace(events + next.events, requests + next.requests, checkpoints + next.checkpoints)
    }
  }

  const NOTHING := Trace([], [], [])

  ghost predicate RequestsAcceptable(t: Trace, r: Renderer, idsPresent: bool) {
    forall q | q in t.requests :: Acceptable(q, r, idsPresent)
  }

  /** Checkpoints are well-paired histories on the way from `first` to `last`. */
  ghost predicate CheckpointsPaired(t: Trace, first: seq<Message>, last: seq<Message>) {
    forall c | c in t.checkpoints :: UserOpens(c) && first <= c <= last
  }

  /** The pairing of the session when a run ends. */
  ghost predicate EndsPaired(ending: Ending, ms: seq<Message>, synthesis: seq<StreamEvent>) {
    match ending
    case Escaped => true
    case Synthesized => WellPaired(ms) <==> UseIds(FinalContent(synthesis)) == []
    case _ => WellPaired(ms)
  }

  /** What a round keeps: the session grows, requests are acceptable, it pairs, and at most one event is terminal. */
  ghost predicate RoundKeeps(
      t: Trace, ended: Option<Ending>, first: seq<Message>, last: seq<Message>, synthesis: seq<StreamEvent>,
      u: Setup, r: Renderer, idsPresent: bool)
  {
    && first <= last
    && (GoodLimits(u.limits) ==> RequestsAcceptable(t, r, idsPresent))
    && CheckpointsPaired(t, first, last)
    && match ended
       case None => UserOpens(last) && (idsPresent ==> CallsHaveIds(last)) && NoTerminal(t.events)
       case Some(ending) =>
         && EndsPaired(ending, last, synthesis)
         && if ending == Escaped then NoTerminal(t.events) else OneTerminalLast(t.events)
  }

  /** A round that ends without adding to the session keeps it paired. */
  lemma QuietKeeps(
      t: Trace, ms: seq<Message>, synthesis: seq<StreamEvent>, u: Setup, r: Renderer, idsPresent: bool, last: Event)
    requires UserOpens(ms) && Terminal(last) && t == Trace([last], [], [])
    ensures RoundKeeps(t, Some(StoppedEarly), ms, ms, synthesis, u, r, idsPresent)
  {
    hide UserOpens, Acceptable;
    PairedAfterOpening(ms);
    TerminalAtEnd([], last);
    assert [] + [last] == [last];
  }

  /** So does one whose request raises. */
  lemma UnsentKeeps(ms: seq<Message>, synthesis: seq<StreamEvent>, u: Setup, r: Renderer, idsPresent: bool)
    ensures RoundKeeps(NOTHING, Some(Escaped), ms, ms, synthesis, u, r, idsPresent)
  {
    hide UserOpens, Acceptable;
  }

  lemma ClosedKeeps(
      t: Trace, ending: Ending, first: seq<Message>, last: seq<Message>, synthesis: seq<StreamEvent>,
      u: Setup, r: Renderer, idsPresent: bool)
    requires first <= last && t.checkpoints == [] && (ending == Synthesized || (ending == Escaped && t.events == []))
    requires GoodLimits(u.limits) ==> forall q | q in t.requests :: Acceptable(q, r, idsPresent)
    requires ending == Synthesized ==>
               OneTerminalLast(t.events) && (WellPaired(last) <==> UseIds(FinalContent(synthesis)) == [])
    ensures RoundKeeps(t, Some(ending), first, last, synthesis, u, r, idsPresent)
  {
    hide UserOpens, Acceptable, WellPaired, FinalContent, OneTerminalLast;
  }

  /** What follows on acceptable requests and paired checkpoints keeps them so. */
  lemma TraceGoesOn(
      before: Trace, more: Trace, r: Renderer, idsPresent: bool, good: bool,
      first: seq<Message>, middle: seq<Message>, last: seq<Message>)
    requires good ==> RequestsAcceptable(before, r, idsPresent) && RequestsAcceptable(more, r, idsPresent)
    requires CheckpointsPaired(before, first, middle) && CheckpointsPaired(more, middle, last) && first <= middle <= last
    ensures good ==> RequestsAcceptable(before.Then(more), r, idsPresent)
    ensures CheckpointsPaired(before.Then(more), first, last)
    ensures NoTerminal(before.events) && NoTerminal(more.events) ==> NoTerminal(before.Then(more).events)
  {
    hide Acceptable, UserOpens;
  }

  lemma NothingSent(t: Trace, r: Renderer, idsPresent: bool, first: seq<Message>, last: seq<Message>)
    ensures t.requests == [] ==> RequestsAcceptable(t, r, idsPresent)
    ensures t.checkpoints == [] ==> CheckpointsPaired(t, first, last)
    ensures t.events == [] ==> NoTerminal(t.events)
  {
  }

  /** A round keeps what its model half did, when it ends there. */
  lemma StoppedKeeps(
      started: Trace, t: Trace, ending: Ending, first: seq<Message>, last: seq<Message>, synthesis: seq<StreamEvent>,
      u: Setup, r: Renderer, idsPresent: bool)
    requires first <= last && t.checkpoints == [] && t.requests == started.requests
    requires GoodLimits(u.limits) ==> RequestsAcceptable(started, r, idsPresent)
    requires OneTerminalLast(t.events) && WellPaired(last) && (ending == StoppedEarly || ending == EndTurn)
    ensures RoundKeeps(t, Some(ending), first, last, synthesis, u, r, idsPresent)
  {
    hide UserOpens, Acceptable, WellPaired, FinalContent, OneTerminalLast;
  }

  /** A round keeps what its two halves did. */
  lemma HalvesKeep(
      started: Trace, rest: Trace, ended: Option<Ending>, first: seq<Message>, last: seq<Message>,
      synthesis: seq<StreamEvent>, u: Setup, r: Renderer, idsPresent: bool)
    requires first <= last && started.checkpoints == [] && rest.requests == []
    requires GoodLimits(u.limits) ==> RequestsAcceptable(started, r, idsPresent)
    requires CheckpointsPaired(rest, first, last) && NoTerminal(started.events) && NoTerminal(rest.events)
    requires match ended
             case None => UserOpens(last) && (idsPresent ==> CallsHaveIds(last))
             case Some(ending) => ending == Escaped
    ensures RoundKeeps(started.Then(rest), ended, first, last, synthesis, u, r, idsPresent)
  {
    hide UserOpens, Acceptable, CallsHaveIds, OneTerminalLast;
    assert started.requests + [] == started.requests && [] + rest.checkpoints == rest.checkpoints;
  }

  lemma TerminalAtEnd(events: seq<Event>, last: Event)
    requires NoTerminal(events) && Terminal(last)
    ensures OneTerminalLast(events + [last])
  {
    assert (events + [last])[..|events|] == events;
  }

  lemma TerminalAfter(events: seq<Event>, tail: seq<Event>)
    requires NoTerminal(events) && OneTerminalLast(tail)
    ensures OneTerminalLast(events + tail)
  {
    var n := |tail| - 1;
    assert (events + tail)[..|events| + n] == events + tail[..n];
  }

  /** The nudge added when the last two calls of the run are the same. */
  ghost function Steering(history: seq<Fingerprint>, prompts: Prompts): seq<Message> {
    var n := |history|;
    if n >= 2 && history[n - 1] == history[n - 2] then [Message(User, Plain(prompts.loopSteering))] else []
  }

  function ResultEvents(results: seq<Block>): seq<Event> {
    seq(|results|, k requires 0 <= k < |results| => ToolResultEvent(results[k]))
  }

  // ---------- Requests ----------

  /** What is fixed for a run. */
  datatype Setup = Setup(
    limits: Limits,
    summarize: seq<Message> -> string,
    turns: TurnLimits,
    prompts: Prompts,
    policy: PinPolicy,
    digest: string -> string)

  /** What is spoken as the user behind the history: pins and findings, if there are any, and the warning. */
  function Notes(pinned: seq<Pin>, memory: nat, warn: bool, prompts: Prompts): seq<Message> {
    (if pinned != [] then [Message(User, Plain(prompts.pinned(pinned)))] else []) +
    (if memory > 0 then [Message(User, Plain(prompts.memory(memory)))] else []) +
    (if warn then [Message(User, Plain(prompts.budgetSteering))] else [])
  }

  /** The request of a round: the session's processed history, then the notes. */
  function RequestFor(
      ms: seq<Message>, pinned: seq<Pin>, memory: nat, warn: bool,
      l: Limits, summarize: seq<Message> -> string, prompts: Prompts): Outcome<seq<Message>>
  {
    match Processed(ms, PinnedToolUseIds(pinned), l, summarize)
    case Done(history) => Done(history + Notes(pinned, memory, warn, prompts))
    case IndexError => IndexError
  }

  lemma NotesAreQuiet(pinned: seq<Pin>, memory: nat, warn: bool, prompts: Prompts)
    ensures forall m | m in Notes(pinned, memory, warn, prompts) :: PlainUser(m) && Uses(m) == []
  {
  }

  /** One note each, in this order, for pins, findings and the warning, and none for what there is not. */
  lemma NotesSay(pinned: seq<Pin>, memory: nat, warn: bool, prompts: Prompts)
    ensures var notes := Notes(pinned, memory, warn, prompts);
            var m, w := (if pinned != [] then 1 else 0), (if pinned != [] then 1 else 0) + (if memory > 0 then 1 else 0);
            && |notes| == w + (if warn then 1 else 0)
            && (pinned != [] ==> notes[0] == Message(User, Plain(prompts.pinned(pinned))))
            && (memory > 0 ==> notes[m] == Message(User, Plain(prompts.memory(memory))))
            && (warn ==> notes[w] == Message(User, Plain(prompts.budgetSteering)))
  {
  }

  /**
   Every request begins with the session's first message and has its newest right before the notes,
   both whole but for thinking and over-long results: the model always sees what came last.
   */
  lemma RequestShowsNewest(
      ms: seq<Message>, pinned: seq<Pin>, memory: nat, warn: bool,
      l: Limits, summarize: seq<Message> -> string, prompts: Prompts)
    requires UserOpens(ms) && GoodLimits(l)
    ensures var request, ids := RequestFor(ms, pinned, memory, warn, l, summarize, prompts), PinnedToolUseIds(pinned);
            && request.Done?
            && (var n := |request.value| - |Notes(pinned, memory, warn, prompts)|;
                && n > 0 && request.value[n..] == Notes(pinned, memory, warn, prompts)
                && KeptFrom(request.value[0], ms[0], ids, l)
                && KeptFrom(request.value[n - 1], ms[|ms| - 1], ids, l))
  {
    hide KeptFrom, Notes, Processed, PinnedToolUseIds, UserOpens;
    HeadIsSent(ms, PinnedToolUseIds(pinned), l, summarize);
    NewestIsSent(ms, PinnedToolUseIds(pinned), l, summarize);
  }

  /** A pinned call reaches the model in a request under the condition under which it survives processing. */
  lemma RequestShowsPinned(
      ms: seq<Message>, pinned: seq<Pin>, memory: nat, warn: bool,
      l: Limits, summarize: seq<Message> -> string, prompts: Prompts, k: nat, id: string)
    requires UserOpens(ms) && GoodLimits(l)
    requires MadeOnlyAt(ms, id, k) && CallsPinned(ms[k], PinnedToolUseIds(pinned))
    ensures var request, ids := RequestFor(ms, pinned, memory, warn, l, summarize, prompts), PinnedToolUseIds(pinned);
            var all, fromCall := LeftFrom(ms, ids, l, 0), LeftFrom(ms, ids, l, k);
            && request.Done?
            && ((exists m :: m in request.value && id in Uses(m)) <==>
                fromCall <= l.maxMessages && (all <= l.summarizeAfter || fromCall <= KEEP_RECENT + 1))
  {
    hide Processed, PinnedToolUseIds, UserOpens, MadeOnlyAt, CallsPinned, LeftFrom, Uses, Notes;
    PinnedRoundReaches(ms, PinnedToolUseIds(pinned), l, summarize, k, id);
    NotesAreQuiet(pinned, memory, warn, prompts);
    var history := Processed(ms, PinnedToolUseIds(pinned), l, summarize).value;
    var notes := Notes(pinned, memory, warn, prompts);
    assert forall m :: m in history + notes <==> m in history || m in notes;
  }

  // ---------- One round ----------

  /** Where the loop stands between two rounds. */
  datatype Standing = Standing(
    messages: seq<Message>,
    steps: nat,
    pinned: seq<Pin>,
    memory: nat,
    warned: bool,
    calls: seq<Fingerprint>)

  /** The model is warned once, from the warning round on, unless the time is up already. */
  predicate Warns(s: Standing, round: RoundEnv, turns: TurnLimits) {
    !s.warned && s.steps + 1 >= turns.WarnRounds() && !round.wallAtWarning
  }

  function RequestAt(s: Standing, round: RoundEnv, u: Setup): Outcome<seq<Message>> {
    RequestFor(s.messages, s.pinned, s.memory, Warns(s, round, u.turns), u.limits, u.summarize, u.prompts)
  }

  /** The session told to come to an end. */
  function Closing(ms: seq<Message>, prompts: Prompts): seq<Message> {
    ms + [Message(User, Plain(prompts.budgetExhausted))]
  }

  /** The request of the closing call: the processed history, without pins and notes. */
  function ClosingRequest(ms: seq<Message>, u: Setup): Outcome<seq<Message>> {
    Processed(Closing(ms, u.prompts), {}, u.limits, u.summarize)
  }

  /** Whether a round is the last, and how it ends. */
  function EndingAt(s: Standing, round: RoundEnv, u: Setup): Option<Ending> {
    if round.wallAtHead then Some(if ClosingRequest(s.messages, u).Done? then Synthesized else Escaped)
    else if round.cancelledAtHead then Some(StoppedEarly)
    else if RequestAt(s, round, u).IndexError? then Some(Escaped)
    else if round.model.timedOut || round.model.cancelled then Some(StoppedEarly)
    else EndingOfTools(ToolUsesOf(FinalContent(round.model.stream)), round.tools)
  }

  /** No call ends the run; only what escapes a lone call escapes the round. */
  function EndingOfTools(uses: seq<Block>, tools: ToolPhase): Option<Ending> {
    if uses == [] then Some(EndTurn)
    else if |uses| == 1 && tools.PhaseRan? && tools.fate(0).Escapes? then Some(Escaped)
    else None
  }

  /**
   A round goes on exactly if there is time, nobody cancelled, the request can be built, the model
   answered in time and called a tool, and no exception escaped a lone call.
   */
  lemma GoesOnIff(s: Standing, round: RoundEnv, u: Setup)
    ensures EndingAt(s, round, u).None? <==>
              && !round.wallAtHead && !round.cancelledAtHead && !round.model.timedOut && !round.model.cancelled
              && !Processed(s.messages, PinnedToolUseIds(s.pinned), u.limits, u.summarize).IndexError?
              && (exists b :: b in FinalContent(round.model.stream) && b.ToolUse?)
              && !(|UseIds(FinalContent(round.model.stream))| == 1 && round.tools.PhaseRan? && round.tools.fate(0).Escapes?)
  {
    hide Processed, PinnedToolUseIds, FinalContent, ToolUsesOf, ClosingRequest;
    var content := FinalContent(round.model.stream);
    ToolUsesOfIds(content);
    UseIdsNonEmpty(content);
    CountUses(content);
  }

  lemma {:induction false} CountUses(bs: seq<Block>)
    ensures |ToolUsesOf(bs)| == |UseIds(bs)|
  {
    if bs != [] {
      CountUses(bs[..|bs| - 1]);
    }
  }

  /** The requests of a round: at most one. */
  function SentAt(s: Standing, round: RoundEnv, u: Setup): seq<seq<Message>> {
    var request :=
      if round.wallAtHead then ClosingRequest(s.messages, u)
      else if round.cancelledAtHead then IndexError
      else RequestAt(s, round, u);
    if request.Done? then [request.value] else []
  }

  /** The session after a round that is the last. */
  function MessagesAtEnd(s: Standing, round: RoundEnv, synthesis: seq<StreamEvent>, u: Setup): seq<Message> {
    if round.wallAtHead then ClosedWith(s.messages, synthesis, u)
    else if round.cancelledAtHead || RequestAt(s, round, u).IndexError? || round.model.timedOut || round.model.cancelled
    then s.messages
    else s.messages + [Message(Assistant, Blocks(FinalContent(round.model.stream)))]
  }

  /** The session after the closing call, whose request may raise. */
  function ClosedWith(ms: seq<Message>, synthesis: seq<StreamEvent>, u: Setup): seq<Message> {
    Closing(ms, u.prompts) +
    if ClosingRequest(ms, u).Done? then [Message(Assistant, Blocks(FinalContent(synthesis)))] else []
  }

  /** The terminal event of a round that is the last. */
  function TerminalAt(round: RoundEnv, steps: nat): Event {
    if round.wallAtHead then Completed("wall_clock_exhausted", steps)
    else if round.cancelledAtHead then Cancelled(steps)
    else if round.model.timedOut then Failed("llm_stream_timeout")
    else if round.model.cancelled then Cancelled(steps)
    else Completed("end_turn", steps)
  }

  /** Each call of a round has its own result: what its tool said, or that the phase ran out of time. */
  predicate PhaseSettles(results: seq<Block>, uses: seq<Block>, tools: ToolPhase) {
    AnswersCalls(results, uses) && forall i: nat | i < |uses| :: results[i] == ResultOf(uses[i], i, tools)
  }

  function ResultOf(use: Block, i: nat, tools: ToolPhase): Block
    requires use.ToolUse?
  {
    match tools
    case PhaseTimedOut(note) => ToolResult(use.id, Str(note), true)
    case PhaseRan(fate) => SettledTo(use, fate(i))
  }

  /** The calls and results that a round adds. */
  function RoundOf(content: seq<Block>, results: seq<Block>): seq<Message> {
    [Message(Assistant, Blocks(content)), Message(User, Blocks(results))]
  }

  /** Where the loop stands after a round that goes on. */
  ghost function AfterRound(s: Standing, results: seq<Block>, round: RoundEnv, u: Setup): Standing {
    var content := FinalContent(round.model.stream);
    var calls := s.calls + Fingerprints(ToolUsesOf(content), u.digest);
    Standing(
      s.messages + RoundOf(content, results) + Steering(calls, u.prompts),
      s.steps + 1,
      Recorded(s.pinned, ToolUsesOf(content), results, u.policy),
      UpdatedMemory(s.memory, results, u.prompts),
      s.warned || Warns(s, round, u.turns),
      calls)
  }

  function Relayed(stream: seq<StreamEvent>): seq<Event> {
    seq(|stream|, i requires 0 <= i < |stream| => Streamed(stream[i]))
  }

  /** What is let out while the model is asked: the size of the request, its stream, and the usage. */
  function EventsOfAsking(s: Standing, round: RoundEnv, u: Setup): seq<Event> {
    if RequestAt(s, round, u).IndexError? then []
    else [ContextEvent(|RequestAt(s, round, u).value|)] + Relayed(round.model.stream) + [UsageEstimate]
  }

  /** What a round that goes on lets out besides: each result, and how much is remembered. */
  function EventsOfTools(s: Standing, results: seq<Block>, u: Setup): seq<Event> {
    var memory := UpdatedMemory(s.memory, results, u.prompts);
    ResultEvents(results) + if memory > 0 then [MemoryEvent(memory)] else []
  }

  /** The events of a round that is the last. */
  function EventsAtEnd(s: Standing, round: RoundEnv, synthesis: seq<StreamEvent>, u: Setup): seq<Event> {
    if round.wallAtHead then EventsOfClosing(s.messages, synthesis, TerminalAt(round, s.steps + 1), u)
    else if round.cancelledAtHead then [TerminalAt(round, s.steps + 1)]
    else EventsOfAsking(s, round, u) +
         if EndingAt(s, round, u) == Some(Escaped) then [] else [TerminalAt(round, s.steps + 1)]
  }

  function EventsOfClosing(ms: seq<Message>, synthesis: seq<StreamEvent>, last: Event, u: Setup): seq<Event> {
    if ClosingRequest(ms, u).Done? then Relayed(synthesis) + [UsageEstimate] + [last] else []
  }

  /** The state saved after a round: its calls and results, before any nudge. */
  function SavedAt(s: Standing, results: seq<Block>, round: RoundEnv, hasRunId: bool): seq<seq<Message>> {
    if hasRunId then [s.messages + RoundOf(FinalContent(round.model.stream), results)] else []
  }

  /**
   What one round does: whether it is the last, what it sends and lets out, and where it leaves the
   session, are determined by where the loop stands, its surroundings and the results of its calls.
   */
  ghost predicate RoundIs(
      s: Standing, round: RoundEnv, synthesis: seq<StreamEvent>, u: Setup, hasRunId: bool,
      trace: Trace, ended: Option<Ending>, after: Standing, results: seq<Block>)
  {
    && ended == EndingAt(s, round, u)
    && trace.requests == SentAt(s, round, u)
    && match ended
       case None =>
         && after == AfterRound(s, results, round, u)
         && PhaseSettles(results, ToolUsesOf(FinalContent(round.model.stream)), round.tools)
         && RequestAt(s, round, u).Done?
         && trace.events == EventsOfAsking(s, round, u) + EventsOfTools(s, results, u)
         && trace.checkpoints == SavedAt(s, results, round, hasRunId)
       case Some(ending) =>
         && after.messages == MessagesAtEnd(s, round, synthesis, u) && after.steps == s.steps + 1
         && trace.checkpoints == [] && trace.events == EventsAtEnd(s, round, synthesis, u)
  }

  lemma WallRound(
      s: Standing, round: RoundEnv, synthesis: seq<StreamEvent>, u: Setup, hasRunId: bool,
      events: seq<Event>, requests: seq<seq<Message>>, ending: Ending, after: Standing)
    requires round.wallAtHead && after.messages == ClosedWith(s.messages, synthesis, u) && after.steps == s.steps + 1
    requires var request := ClosingRequest(s.messages, u);
             if request.Done? then
               && ending == Synthesized && requests == [request.value]
               && events == Relayed(synthesis) + [UsageEstimate] + [Completed("wall_clock_exhausted", after.steps)]
             else ending == Escaped && requests == [] && events == []
    ensures RoundIs(s, round, synthesis, u, hasRunId, Trace(events, requests, []), Some(ending), after, [])
  {
    hide ClosingRequest, ClosedWith, RequestAt;
  }

  lemma CancelledRound(
      s: Standing, round: RoundEnv, synthesis: seq<StreamEvent>, u: Setup, hasRunId: bool, after: Standing)
    requires !round.wallAtHead && round.cancelledAtHead && after.messages == s.messages && after.steps == s.steps + 1
    ensures RoundIs(s, round, synthesis, u, hasRunId, Trace([Cancelled(after.steps)], [], []), Some(StoppedEarly), after, [])
  {
    hide ClosingRequest, ClosedWith, RequestAt, EventsOfAsking;
  }

  lemma UnsentRound(
      s: Standing, round: RoundEnv, synthesis: seq<StreamEvent>, u: Setup, hasRunId: bool, after: Standing)
    requires !round.wallAtHead && !round.cancelledAtHead && RequestAt(s, round, u).IndexError?
    requires after.messages == s.messages && after.steps == s.steps + 1
    ensures RoundIs(s, round, synthesis, u, hasRunId, NOTHING, Some(Escaped), after, [])
  {
    hide ClosingRequest, ClosedWith, RequestAt;
  }

  /** The model was asked. */
  predicate Asked(s: Standing, round: RoundEnv, u: Setup, started: Trace) {
    && !round.wallAtHead && !round.cancelledAtHead && RequestAt(s, round, u).Done?
    && started == Trace(
         [ContextEvent(|RequestAt(s, round, u).value|)] + Relayed(round.model.stream) + [UsageEstimate],
         [RequestAt(s, round, u).value], [])
  }

  lemma StoppedRound(
      s: Standing, round: RoundEnv, synthesis: seq<StreamEvent>, u: Setup, hasRunId: bool,
      started: Trace, trace: Trace, ended: Option<Ending>, after: Standing)
    requires Asked(s, round, u, started) && trace.requests == started.requests && trace.checkpoints == []
    requires var content := FinalContent(round.model.stream);
             && ended ==
                (if round.model.timedOut || round.model.cancelled then Some(StoppedEarly)
                 else if ToolUsesOf(content) == [] then Some(EndTurn) else None)
             && ended.Some?
             && after.messages == s.messages + (if ended == Some(EndTurn) then [Message(Assistant, Blocks(content))] else [])
             && after.steps == s.steps + 1 && trace.events == started.events + [TerminalAt(round, after.steps)]
    ensures RoundIs(s, round, synthesis, u, hasRunId, trace, ended, after, [])
  {
    hide ClosingRequest, ClosedWith, RequestAt, FinalContent, ToolUsesOf, TerminalAt, Relayed;
    assert s.messages + [] == s.messages;
  }

  lemma EscapedRound(
      s: Standing, round: RoundEnv, synthesis: seq<StreamEvent>, u: Setup, hasRunId: bool,
      started: Trace, after: Standing)
    requires Asked(s, round, u, started) && !round.model.timedOut && !round.model.cancelled
    requires var content := FinalContent(round.model.stream);
             && EndingOfTools(ToolUsesOf(content), round.tools) == Some(Escaped)
             && after.messages == s.messages + [Message(Assistant, Blocks(content))] && after.steps == s.steps + 1
    ensures RoundIs(s, round, synthesis, u, hasRunId, started.Then(NOTHING), Some(Escaped), after, [])
  {
    hide ClosingRequest, ClosedWith, RequestAt, FinalContent, ToolUsesOf, TerminalAt, Relayed;
    assert started.requests + [] == started.requests && started.checkpoints + [] == started.checkpoints;
    assert started.events + [] == started.events;
  }

  lemma RoundOn(
      s: Standing, round: RoundEnv, synthesis: seq<StreamEvent>, u: Setup, hasRunId: bool,
      started: Trace, rest: Trace, after: Standing, results: seq<Block>)
    requires Asked(s, round, u, started) && !round.model.timedOut && !round.model.cancelled
    requires var content := FinalContent(round.model.stream);
             && EndingOfTools(ToolUsesOf(content), round.tools) == None
             && PhaseSettles(results, ToolUsesOf(content), round.tools)
             && after == AfterRound(s, results, round, u)
             && rest == Trace(
                  ResultEvents(results) + (if after.memory > 0 then [MemoryEvent(after.memory)] else []), [],
                  SavedAt(s, results, round, hasRunId))
    ensures RoundIs(s, round, synthesis, u, hasRunId, started.Then(rest), None, after, results)
  {
    hide ClosingRequest, ClosedWith, RequestAt, FinalContent, ToolUsesOf, PhaseSettles, RoundOf, Steering, Recorded,
      UpdatedMemory, Warns, Fingerprints, ResultEvents, Relayed;
    assert started.requests + [] == started.requests && [] + rest.checkpoints == rest.checkpoints;
  }

  // ---------- Many rounds ----------

  /** No lone tool call ever lets an exception escape its phase. */
  ghost predicate ToolsContained(env: nat -> RoundEnv) {
    forall i: nat :: env(i).tools.PhaseRan? ==> env(i).tools.fate(0).Runs?
  }

  ghost predicate ModelGivesIds(env: nat -> RoundEnv) {
    forall i: nat :: "" !in UseIds(FinalContent(env(i).model.stream))
  }

  /** Where the loop stands after rounds that brought these results. */
  ghost function Stood(start: Standing, env: nat -> RoundEnv, turns: seq<seq<Block>>, u: Setup): Standing {
    if turns == [] then start
    else
      var n := |turns| - 1;
      AfterRound(Stood(start, env, turns[..n], u), turns[n], env(n), u)
  }

  /** Everything sent in rounds that brought these results. */
  ghost function SentOver(start: Standing, env: nat -> RoundEnv, turns: seq<seq<Block>>, u: Setup): seq<seq<Message>> {
    if turns == [] then []
    else
      var n := |turns| - 1;
      SentOver(start, env, turns[..n], u) + SentAt(Stood(start, env, turns[..n], u), env(n), u)
  }

  /** Everything let out, and everything saved, in rounds that brought these results. */
  ghost function LetOutOver(start: Standing, env: nat -> RoundEnv, turns: seq<seq<Block>>, u: Setup): seq<Event> {
    if turns == [] then []
    else
      var n := |turns| - 1;
      var s := Stood(start, env, turns[..n], u);
      LetOutOver(start, env, turns[..n], u) + (EventsOfAsking(s, env(n), u) + EventsOfTools(s, turns[n], u))
  }

  ghost function SavedOver(
      start: Standing, env: nat -> RoundEnv, turns: seq<seq<Block>>, u: Setup, hasRunId: bool): seq<seq<Message>>
  {
    if turns == [] then []
    else
      var n := |turns| - 1;
      SavedOver(start, env, turns[..n], u, hasRunId) +
      SavedAt(Stood(start, env, turns[..n], u), turns[n], env(n), hasRunId)
  }

  /** What rounds that brought these results have let out, sent and saved. */
  ghost function TraceOver(
      start: Standing, env: nat -> RoundEnv, turns: seq<seq<Block>>, u: Setup, hasRunId: bool): Trace
  {
    Trace(LetOutOver(start, env, turns, u), SentOver(start, env, turns, u), SavedOver(start, env, turns, u, hasRunId))
  }

  /** No round before was the last, and each call was answered by what its own tool did. */
  ghost predicate GoesOn(start: Standing, env: nat -> RoundEnv, turns: seq<seq<Block>>, u: Setup) {
    forall k: nat | k < |turns| ::
      var s := Stood(start, env, turns[..k], u);
      && s.steps < u.turns.maxRounds && EndingAt(s, env(k), u) == None
      && PhaseSettles(turns[k], ToolUsesOf(FinalContent(env(k).model.stream)), env(k).tools)
  }

  // ---------- How a run ends ----------

  /** Once no round is left: the session, how it ends, the last request and the last event. */
  function ExhaustedWith(ms: seq<Message>, synthesis: seq<StreamEvent>, u: Setup): seq<Message> {
    if u.turns.synthesizeOnExhaust then ClosedWith(ms, synthesis, u) else ms
  }

  function ExhaustedEnding(ms: seq<Message>, u: Setup): Ending {
    if !u.turns.synthesizeOnExhaust then OutOfSteps
    else if ClosingRequest(ms, u).Done? then Synthesized else Escaped
  }

  function ExhaustedTrace(s: Standing, synthesis: seq<StreamEvent>, u: Setup): Trace {
    if !u.turns.synthesizeOnExhaust then Trace([Completed("max_steps_reached", s.steps)], [], [])
    else if ClosingRequest(s.messages, u).Done? then
      Trace(EventsOfClosing(s.messages, synthesis, Completed("max_rounds_reached", s.steps), u),
            [ClosingRequest(s.messages, u).value], [])
    else NOTHING
  }

  /**
   A whole run: some rounds that go on, each with the results its tools gave, then the round that is
   the last, or, when none is left, what follows. Events, requests, checkpoints, session and ending
   are determined by the surroundings and those results.
   */
  ghost predicate RunIs(
      start: Standing, env: nat -> RoundEnv, turns: seq<seq<Block>>, synthesis: seq<StreamEvent>, u: Setup,
      hasRunId: bool, trace: Trace, ending: Ending, ms: seq<Message>, steps: nat)
  {
    var s, n := Stood(start, env, turns, u), |turns|;
    && GoesOn(start, env, turns, u)
    && (s.steps < u.turns.maxRounds ==>
          && EndingAt(s, env(n), u) == Some(ending)
          && trace == TraceOver(start, env, turns, u, hasRunId).Then(
                        Trace(EventsAtEnd(s, env(n), synthesis, u), SentAt(s, env(n), u), []))
          && ms == MessagesAtEnd(s, env(n), synthesis, u) && steps == s.steps + 1)
    && (s.steps >= u.turns.maxRounds ==>
          && ending == ExhaustedEnding(s.messages, u)
          && trace == TraceOver(start, env, turns, u, hasRunId).Then(ExhaustedTrace(s, synthesis, u))
          && ms == ExhaustedWith(s.messages, synthesis, u) && steps == s.steps)
  }

  /** In every run that is not left by an exception the last event is the terminal one its ending calls for. */
  lemma RunEndsWith(
      start: Standing, env: nat -> RoundEnv, turns: seq<seq<Block>>, synthesis: seq<StreamEvent>, u: Setup,
      hasRunId: bool, trace: Trace, ending: Ending, ms: seq<Message>, steps: nat)
    requires RunIs(start, env, turns, synthesis, u, hasRunId, trace, ending, ms, steps) && ending != Escaped
    ensures ending == EndTurn ==> EndsWith(trace.events, Completed("end_turn", steps))
    ensures ending == OutOfSteps ==> EndsWith(trace.events, Completed("max_steps_reached", steps))
    ensures ending == Synthesized ==>
              EndsWith(trace.events, Completed(
                if Stood(start, env, turns, u).steps < u.turns.maxRounds then "wall_clock_exhausted"
                else "max_rounds_reached", steps))
    ensures ending == StoppedEarly ==>
              var round := env(|turns|);
              EndsWith(trace.events,
                       if !round.cancelledAtHead && round.model.timedOut then Failed("llm_stream_timeout")
                       else Cancelled(steps))
  {
    hide LetOutOver, SentOver, SavedOver, GoesOn, Stood, RequestAt, ClosingRequest, Relayed, ToolUsesOf, FinalContent;
  }

  predicate EndsWith(events: seq<Event>, last: Event) { events != [] && events[|events| - 1] == last }

  lemma RunStarts(start: Standing, env: nat -> RoundEnv, u: Setup)
    ensures GoesOn(start, env, [], u) && Stood(start, env, [], u) == start
    ensures forall hasRunId :: TraceOver(start, env, [], u, hasRunId) == NOTHING
  {
  }

  lemma GoesOnFurther(start: Standing, env: nat -> RoundEnv, turns: seq<seq<Block>>, u: Setup, results: seq<Block>)
    requires GoesOn(start, env, turns, u)
    requires var s, round := Stood(start, env, turns, u), env(|turns|);
             && s.steps < u.turns.maxRounds && EndingAt(s, round, u) == None
             && PhaseSettles(results, ToolUsesOf(FinalContent(round.model.stream)), round.tools)
    ensures var s, round, longer := Stood(start, env, turns, u), env(|turns|), turns + [results];
            GoesOn(start, env, longer, u) && Stood(start, env, longer, u) == AfterRound(s, results, round, u)
  {
    hide EndingAt, PhaseSettles, FinalContent, ToolUsesOf, AfterRound;
    var longer := turns + [results];
    assert longer[..|turns|] == turns;
    forall k: nat | k < |longer|
      ensures var s := Stood(start, env, longer[..k], u);
              && s.steps < u.turns.maxRounds && EndingAt(s, env(k), u) == None
              && PhaseSettles(longer[k], ToolUsesOf(FinalContent(env(k).model.stream)), env(k).tools)
    {
      assert k < |turns| ==> longer[..k] == turns[..k];
    }
  }

  lemma TraceFurther(
      start: Standing, env: nat -> RoundEnv, turns: seq<seq<Block>>, u: Setup, hasRunId: bool, results: seq<Block>)
    ensures var s, round, longer := Stood(start, env, turns, u), env(|turns|), turns + [results];
            TraceOver(start, env, longer, u, hasRunId) ==
            TraceOver(start, env, turns, u, hasRunId).Then(
              Trace(EventsOfAsking(s, round, u) + EventsOfTools(s, results, u), SentAt(s, round, u),
                    SavedAt(s, results, round, hasRunId)))
  {
    hide EventsOfAsking, EventsOfTools, SentAt, SavedAt, AfterRound;
    assert (turns + [results])[..|turns|] == turns;
  }

  /** A round that goes on extends the run by one. */
  lemma RunGoesOn(
      start: Standing, env: nat -> RoundEnv, turns: seq<seq<Block>>, synthesis: seq<StreamEvent>, u: Setup,
      hasRunId: bool, more: Trace, after: Standing, results: seq<Block>)
    requires GoesOn(start, env, turns, u)
    requires Stood(start, env, turns, u).steps < u.turns.maxRounds
    requires RoundIs(Stood(start, env, turns, u), env(|turns|), synthesis, u, hasRunId, more, None, after, results)
    ensures var longer := turns + [results];
            && GoesOn(start, env, longer, u) && after == Stood(start, env, longer, u)
            && TraceOver(start, env, turns, u, hasRunId).Then(more) == TraceOver(start, env, longer, u, hasRunId)
            && after.steps == Stood(start, env, turns, u).steps + 1
    ensures |more.requests| <= 1
  {
    hide EndingAt, PhaseSettles, FinalContent, ToolUsesOf, RequestAt, ClosingRequest, EventsOfAsking, EventsOfTools, Recorded,
      Steering, UpdatedMemory, Fingerprints, Warns, GoesOn, TraceOver, Stood, SavedAt;
    GoesOnFurther(start, env, turns, u, results);
    TraceFurther(start, env, turns, u, hasRunId, results);
  }

  lemma AtMostOneSent(s: Standing, round: RoundEnv, u: Setup)
    ensures |SentAt(s, round, u)| <= 1
  {
  }

  lemma RunEnds(
      start: Standing, env: nat -> RoundEnv, turns: seq<seq<Block>>, synthesis: seq<StreamEvent>, u: Setup,
      hasRunId: bool, more: Trace, ending: Ending, after: Standing, results: seq<Block>)
    requires GoesOn(start, env, turns, u) && NoTerminal(TraceOver(start, env, turns, u, hasRunId).events)
    requires Stood(start, env, turns, u).steps < u.turns.maxRounds
    requires RoundIs(Stood(start, env, turns, u), env(|turns|), synthesis, u, hasRunId, more, Some(ending), after, results)
    requires if ending == Escaped then NoTerminal(more.events) else OneTerminalLast(more.events)
    ensures var trace := TraceOver(start, env, turns, u, hasRunId).Then(more);
            && RunIs(start, env, turns, synthesis, u, hasRunId, trace, ending, after.messages, after.steps)
            && if ending == Escaped then NoTerminal(trace.events) else OneTerminalLast(trace.events)
    ensures |more.requests| <= 1
    ensures ending == Escaped ==> !(GoodLimits(u.limits) && UserOpens(Stood(start, env, turns, u).messages) && ToolsContained(env))
  {
    hide EndingAt, SentAt, MessagesAtEnd, EventsAtEnd, GoesOn, UserOpens, Processed, Stood, LetOutOver, SentOver, SavedOver;
    AtMostOneSent(Stood(start, env, turns, u), env(|turns|), u);
    if ending != Escaped {
      TerminalAfter(LetOutOver(start, env, turns, u), more.events);
    } else if GoodLimits(u.limits) && UserOpens(Stood(start, env, turns, u).messages) && ToolsContained(env) {
      NothingEscapes(Stood(start, env, turns, u), env(|turns|), u);
    }
  }

  /** With good limits only a lone call lets an exception escape. */
  lemma NothingEscapes(s: Standing, round: RoundEnv, u: Setup)
    requires GoodLimits(u.limits) && UserOpens(s.messages) && (round.tools.PhaseRan? ==> round.tools.fate(0).Runs?)
    ensures EndingAt(s, round, u) != Some(Escaped)
  {
    hide UserOpens, Processed;
    ProcessedPaired(s.messages, PinnedToolUseIds(s.pinned), u.limits, u.summarize);
    ClosingIsSent(s.messages, u);
  }

  lemma ClosingIsSent(ms: seq<Message>, u: Setup)
    requires GoodLimits(u.limits) && UserOpens(ms)
    ensures ClosingRequest(ms, u).Done?
  {
    hide Processed;
    PlainKeepsPromises(ms, u.prompts.budgetExhausted, false);
    ProcessedPaired(Closing(ms, u.prompts), {}, u.limits, u.summarize);
  }

  lemma RunIsExhausted(
      start: Standing, env: nat -> RoundEnv, turns: seq<seq<Block>>, synthesis: seq<StreamEvent>, u: Setup,
      hasRunId: bool, last: Trace, ending: Ending, ms: seq<Message>, steps: nat)
    requires GoesOn(start, env, turns, u) && NoTerminal(TraceOver(start, env, turns, u, hasRunId).events)
    requires var s := Stood(start, env, turns, u);
             && s.steps >= u.turns.maxRounds && ending == ExhaustedEnding(s.messages, u)
             && last == ExhaustedTrace(s, synthesis, u)
             && ms == ExhaustedWith(s.messages, synthesis, u) && steps == s.steps
             && if ending == Escaped then NoTerminal(last.events) else OneTerminalLast(last.events)
    ensures var trace := TraceOver(start, env, turns, u, hasRunId).Then(last);
            && RunIs(start, env, turns, synthesis, u, hasRunId, trace, ending, ms, steps)
            && if ending == Escaped then NoTerminal(trace.events) else OneTerminalLast(trace.events)
  {
    hide ExhaustedEnding, ExhaustedTrace, ExhaustedWith, GoesOn, Stood, LetOutOver, SentOver, SavedOver;
    if ending != Escaped {
      TerminalAfter(LetOutOver(start, env, turns, u), last.events);
    }
  }

  // ---------- What the model sees over a run ----------

  lemma {:induction false} StoodSteps(start: Standing, env: nat -> RoundEnv, turns: seq<seq<Block>>, u: Setup)
    ensures Stood(start, env, turns, u).steps == start.steps + |turns|
  {
    hide Fingerprints, Recorded, UpdatedMemory, Steering, FinalContent, ToolUsesOf;
    if turns != [] {
      StoodSteps(start, env, turns[..|turns| - 1], u);
    }
  }

  lemma {:induction false} StaysWarned(start: Standing, env: nat -> RoundEnv, turns: seq<seq<Block>>, u: Setup, k: nat)
    requires k < |turns| && Warns(Stood(start, env, turns[..k], u), env(k), u.turns)
    ensures Stood(start, env, turns, u).warned
  {
    hide Fingerprints, Recorded, UpdatedMemory, Steering, FinalContent, ToolUsesOf, Warns;
    var n := |turns| - 1;
    if k < n {
      assert turns[..n][..k] == turns[..k];
      StaysWarned(start, env, turns[..n], u, k);
    }
  }

  /** In every run the model is warned at most once, and not before the warning round. */
  lemma WarnedOnce(start: Standing, env: nat -> RoundEnv, turns: seq<seq<Block>>, u: Setup, j: nat, k: nat)
    requires j < k <= |turns| && Warns(Stood(start, env, turns[..j], u), env(j), u.turns)
    ensures !Warns(Stood(start, env, turns[..k], u), env(k), u.turns)
    ensures start.steps + j + 1 >= u.turns.WarnRounds()
  {
    assert turns[..k][..j] == turns[..j];
    StaysWarned(start, env, turns[..k], u, j);
    StoodSteps(start, env, turns[..j], u);
  }

  lemma NextIsPaired(s: Standing, results: seq<Block>, round: RoundEnv, u: Setup)
    requires UserOpens(s.messages) && EndingAt(s, round, u) == None
    requires PhaseSettles(results, ToolUsesOf(FinalContent(round.model.stream)), round.tools)
    ensures UserOpens(AfterRound(s, results, round, u).messages)
  {
    hide UserOpens, FinalContent, RequestAt, ClosingRequest, ToolUsesOf, Fingerprints;
    var content := FinalContent(round.model.stream);
    var calls := s.calls + Fingerprints(ToolUsesOf(content), u.digest);
    ToolUsesOfIds(content);
    RoundKeepsPromises(s.messages, content, results, false);
    var next := s.messages + RoundOf(content, results);
    assert next + [] == next;
    PlainKeepsPromises(next, u.prompts.loopSteering, false);
  }

  lemma {:induction false} StoodIsPaired(start: Standing, env: nat -> RoundEnv, turns: seq<seq<Block>>, u: Setup)
    requires UserOpens(start.messages) && GoesOn(start, env, turns, u)
    ensures UserOpens(Stood(start, env, turns, u).messages)
  {
    hide UserOpens, EndingAt, PhaseSettles, AfterRound, FinalContent, ToolUsesOf;
    if turns != [] {
      var n := |turns| - 1;
      GoesOnBefore(start, env, turns, u, n);
      StoodIsPaired(start, env, turns[..n], u);
      NextIsPaired(Stood(start, env, turns[..n], u), turns[n], env(n), u);
    }
  }

  lemma GoesOnBefore(start: Standing, env: nat -> RoundEnv, turns: seq<seq<Block>>, u: Setup, n: nat)
    requires GoesOn(start, env, turns, u) && n <= |turns|
    ensures GoesOn(start, env, turns[..n], u)
  {
    hide EndingAt, PhaseSettles, Stood, FinalContent, ToolUsesOf;
    assert forall k | 0 <= k < n :: turns[..n][..k] == turns[..k] && turns[..n][k] == turns[k];
  }

  lemma {:induction false} SentInRound(start: Standing, env: nat -> RoundEnv, turns: seq<seq<Block>>, u: Setup, k: nat)
    requires GoesOn(start, env, turns, u) && k < |turns|
    ensures |SentOver(start, env, turns, u)| == |turns|
    ensures RequestAt(Stood(start, env, turns[..k], u), env(k), u) == Done(SentOver(start, env, turns, u)[k])
  {
    hide RequestAt, PhaseSettles, Stood, FinalContent, ToolUsesOf, ClosingRequest;
    var n := |turns| - 1;
    GoesOnBefore(start, env, turns, u, n);
    SentOnce(start, env, turns, u, n);
    if n == 0 {
      assert SentOver(start, env, turns[..0], u) == [];
    } else {
      SentInRound(start, env, turns[..n], u, if k < n then k else 0);
    }
    assert k < n ==> turns[..n][..k] == turns[..k];
  }

  lemma SentOnce(start: Standing, env: nat -> RoundEnv, turns: seq<seq<Block>>, u: Setup, n: nat)
    requires GoesOn(start, env, turns, u) && n < |turns|
    ensures var s := Stood(start, env, turns[..n], u);
            RequestAt(s, env(n), u).Done? && SentAt(s, env(n), u) == [RequestAt(s, env(n), u).value]
  {
    hide RequestAt, PhaseSettles, Stood, FinalContent, ToolUsesOf, ClosingRequest, EndingOfTools;
    assert EndingAt(Stood(start, env, turns[..n], u), env(n), u) == None;
  }

  /**
   In every run, the request of round `k` ends, before its notes, in the newest message of the
   session at that round. Unless the model was told that it repeats itself, these are the results
   of the round before: the model always sees what its tools just gave.
   */
  lemma ModelSeesResults(start: Standing, env: nat -> RoundEnv, turns: seq<seq<Block>>, u: Setup, k: nat)
    requires UserOpens(start.messages) && GoodLimits(u.limits) && GoesOn(start, env, turns, u) && k < |turns|
    ensures var s, sent := Stood(start, env, turns[..k], u), SentOver(start, env, turns, u);
            && |sent| == |turns| && s.messages != []
            && (var notes := Notes(s.pinned, s.memory, Warns(s, env(k), u.turns), u.prompts);
                var n := |sent[k]| - |notes|;
                && n > 0 && sent[k][n..] == notes
                && KeptFrom(sent[k][0], s.messages[0], PinnedToolUseIds(s.pinned), u.limits)
                && KeptFrom(sent[k][n - 1], s.messages[|s.messages| - 1], PinnedToolUseIds(s.pinned), u.limits)
                && (k > 0 && Steering(s.calls, u.prompts) == [] ==>
                      s.messages[|s.messages| - 1] == Message(User, Blocks(turns[k - 1]))))
  {
    hide KeptFrom, Notes, RequestFor, PinnedToolUseIds, UserOpens, GoesOn, Steering, SentOver, EndingAt, GoodLimits, Warns;
    var s := Stood(start, env, turns[..k], u);
    GoesOnBefore(start, env, turns, u, k);
    StoodIsPaired(start, env, turns[..k], u);
    SentInRound(start, env, turns, u, k);
    OpensWithOne(s.messages);
    RequestShowsNewest(
      s.messages, s.pinned, s.memory, Warns(s, env(k), u.turns), u.limits, u.summarize, u.prompts);
    if k > 0 {
      assert turns[..k][..k - 1] == turns[..k - 1];
      LastOfRound(Stood(start, env, turns[..k - 1], u), turns[k - 1], env(k - 1), u);
    }
  }

  lemma LastOfRound(s: Standing, results: seq<Block>, round: RoundEnv, u: Setup)
    ensures var t := AfterRound(s, results, round, u);
            Steering(t.calls, u.prompts) == [] ==>
              t.messages != [] && t.messages[|t.messages| - 1] == Message(User, Blocks(results))
  {
    hide FinalContent, ToolUsesOf, Fingerprints, Recorded, UpdatedMemory, Warns;
  }

  // ---------- The scratchpad ----------

  const MEMORY_CAP := 32

  /** The number of findings remembered after a round. */
  function UpdatedMemory(memory: nat, results: seq<Block>, prompts: Prompts): nat {
    var grown := memory + |Findings(results, prompts)|;
    if grown > MEMORY_CAP then MEMORY_CAP else grown
  }

  function Findings(results: seq<Block>, prompts: Prompts): seq<Block> {
    if results == [] then []
    else
      var b := results[|results| - 1];
      Findings(results[..|results| - 1], prompts) + if prompts.isFinding(b) then [b] else []
  }
}

/** What the mapper and the two meters promise over whole event streams. */
module KorakuSseTheorems {
  import opened PyText
  import opened UsageMeters
  import opened KorakuSse

  // ---------- One completion per run ----------

  function CompletedCount(frames: seq<Frame>): nat {
    if frames == [] then 0
    else CompletedCount(frames[..|frames| - 1]) + if frames[|frames| - 1].CompletedFrame? then 1 else 0
  }

  lemma {:induction false} CompletedCountConcat(a: seq<Frame>, b: seq<Frame>)
    ensures CompletedCount(a + b) == CompletedCount(a) + CompletedCount(b)
  {
    if b == [] {
      assert a + b == a;
    } else {
      var n := |b| - 1;
      CompletedCountConcat(a, b[..n]);
      assert (a + b)[..|a| + n] == a + b[..n];
    }
  }

  /** A terminal event of the parent turn, not of a nested worker. */
  predicate TopTerminal(e: Event) {
    Terminal(e.body) && NestedPayload(e).None?
  }

  function TopTerminals(events: seq<Event>): nat {
    if events == [] then 0
    else TopTerminals(events[..|events| - 1]) + if TopTerminal(events[|events| - 1]) then 1 else 0
  }

  lemma {:induction false} ResultsComplete(s: SseState, results: seq<ResultPiece>, nested: Option<Nested>)
    ensures CompletedCount(MapResults(s, results, nested).1) == 0
  {
    if results != [] {
      var init := results[..|results| - 1];
      ResultsComplete(s, init, nested);
      var frames, all := MapResults(s, init, nested).1, MapResults(s, results, nested).1;
      assert all[..|all| - 1] == frames;
    }
  }

  lemma CompletedCountSnoc(frames: seq<Frame>, f: Frame)
    ensures CompletedCount(frames + [f]) == CompletedCount(frames) + if f.CompletedFrame? then 1 else 0
  {
    assert (frames + [f])[..|frames|] == frames;
  }

  lemma CompletionSequenceCompletesOnce(failed: bool, cancelled: bool)
    ensures CompletedCount(CompletionSequence(failed, cancelled)) == 1
  {
    var q := CompletionSequence(failed, cancelled);
    CompletedCountSnoc([], q[0]);
    CompletedCountSnoc([q[0]], q[1]);
    CompletedCountSnoc([q[0], q[1]], q[2]);
    assert [] + [q[0]] == [q[0]] && [q[0]] + [q[1]] == [q[0], q[1]] && [q[0], q[1]] + [q[2]] == q;
  }

  lemma {:induction false} NothingCompleted(frames: seq<Frame>)
    requires forall k | 0 <= k < |frames| :: !frames[k].CompletedFrame?
    ensures CompletedCount(frames) == 0
  {
    if frames != [] {
      NothingCompleted(frames[..|frames| - 1]);
    }
  }

  lemma StreamCompletesNothing(s: SseState, raw: Raw, nested: Option<Nested>)
    ensures CompletedCount(MapStream(s, raw, nested).1) == 0
  {
    NothingCompleted(MapStream(s, raw, nested).1);
  }

  predicate Terminal(body: Body) { body.Completed? || body.Cancelled? || body.Failed? }

  lemma TerminalCompletes(s: SseState, body: Body, nested: Option<Nested>)
    requires Terminal(body)
    ensures CompletedCount(MapBody(s, body, nested).1) == if nested.None? then 1 else 0
  {
    CompletionSequenceCompletesOnce(false, false);
    CompletionSequenceCompletesOnce(false, true);
    CompletionSequenceCompletesOnce(true, false);
  }

  lemma StartCompletesNothing(s: SseState, sid: string, tool: string, nested: Option<Nested>)
    ensures CompletedCount(ToolStarted(s, sid, tool, nested).1) == 0
  {
    NothingCompleted(ToolStarted(s, sid, tool, nested).1);
  }

  lemma ExecutionCompletesNothing(s: SseState, head: ToolHead, nested: Option<Nested>)
    ensures CompletedCount(MapBody(s, ToolExecution(head), nested).1) == 0
  {
    StartCompletesNothing(s, ScopedId(head.id, nested), OrTool(head.name), nested);
  }

  lemma OtherCompletesNothing(s: SseState, body: Body, nested: Option<Nested>)
    requires body.TraceBody? || body.SubagentPhase? || body.UsageEstimate? || body.OtherBody?
    ensures CompletedCount(MapBody(s, body, nested).1) == 0
  {
    NothingCompleted(MapBody(s, body, nested).1);
  }

  lemma BodyCompletes(s: SseState, body: Body, nested: Option<Nested>)
    ensures CompletedCount(MapBody(s, body, nested).1) == if Terminal(body) && nested.None? then 1 else 0
  {
    match body
    case ToolResults(results) => ResultsComplete(s, results, nested);
    case Stream(raw) => StreamCompletesNothing(s, raw, nested);
    case ToolExecution(head) => ExecutionCompletesNothing(s, head, nested);
    case Completed => TerminalCompletes(s, body, nested);
    case Cancelled => TerminalCompletes(s, body, nested);
    case Failed(_) => TerminalCompletes(s, body, nested);
    case _ => OtherCompletesNothing(s, body, nested);
  }

  /** The run is reported complete once per terminal event of its own, whatever nested workers report. */
  lemma {:induction false} CompletedOncePerTerminal(events: seq<Event>)
    ensures CompletedCount(MapAll(NEW_STATE, events).1) == TopTerminals(events)
  {
    if events != [] {
      var init, e := events[..|events| - 1], events[|events| - 1];
      CompletedOncePerTerminal(init);
      var (s, frames) := MapAll(NEW_STATE, init);
      BodyCompletes(s, e.body, NestedPayload(e));
      CompletedCountConcat(frames, MapEvent(s, e).1);
    }
  }

  // ---------- Suppressed tool blocks ----------

  predicate IsBlockEvent(raw: Raw) { raw.BlockStart? || raw.BlockDelta? || raw.BlockStop? }

  /** The content blocks open after an event, and whether each calls a tool. */
  function OpenAfter(body: Body, before: map<int, bool>): map<int, bool> {
    match body
    case Stream(BlockStart(index, tool)) => if index.Some? then before[index.value := tool.Some?] else before
    case Stream(BlockStop(index)) => if index.Some? then before - {index.value} else before
    case _ => before
  }

  function OpenBlocks(events: seq<Event>): map<int, bool> {
    if events == [] then map[] else OpenAfter(events[|events| - 1].body, OpenBlocks(events[..|events| - 1]))
  }

  /** A block opens at a free index; deltas and its end come while it is open, tool input only in tool blocks. */
  predicate Fits(body: Body, before: map<int, bool>) {
    match body
    case Stream(BlockStart(index, _)) => index.Some? && index.value !in before
    case Stream(BlockDelta(index, inputJson, _)) =>
      index.Some? && index.value in before && (inputJson ==> before[index.value])
    case Stream(BlockStop(index)) => index.Some? && index.value in before
    case _ => true
  }

  /** Blocks open, receive deltas and close one after the other at each index. */
  predicate WellBracketed(events: seq<Event>) {
    events == [] ||
    (WellBracketed(events[..|events| - 1]) &&
     Fits(events[|events| - 1].body, OpenBlocks(events[..|events| - 1])))
  }

  /** The block events left after deleting every tool block as a whole. */
  function Visible(events: seq<Event>): seq<Raw>
    requires WellBracketed(events)
  {
    if events == [] then []
    else
      Visible(events[..|events| - 1]) +
      VisibleOf(events[|events| - 1].body, OpenBlocks(events[..|events| - 1]))
  }

  /** The block events among the frames sent. */
  function Forwarded(frames: seq<Frame>): seq<Raw> {
    if frames == [] then []
    else
      var f := frames[|frames| - 1];
      Forwarded(frames[..|frames| - 1]) + if f.Wrapped? && IsBlockEvent(f.raw) then [f.raw] else []
  }

  lemma ForwardedSnoc(frames: seq<Frame>, f: Frame)
    ensures Forwarded(frames + [f]) == Forwarded(frames) + if f.Wrapped? && IsBlockEvent(f.raw) then [f.raw] else []
  {
    assert (frames + [f])[..|frames|] == frames;
  }

  lemma NoFramesForwardNothing()
    ensures Forwarded([]) == []
  {
  }

  lemma {:induction false} ForwardedConcat(a: seq<Frame>, b: seq<Frame>)
    ensures Forwarded(a + b) == Forwarded(a) + Forwarded(b)
  {
    hide Forwarded, IsBlockEvent;
    if b == [] {
      NoFramesForwardNothing();
      assert a + b == a && Forwarded(a) + [] == Forwarded(a);
    } else {
      var init, f := b[..|b| - 1], b[|b| - 1];
      ForwardedConcat(a, init);
      ForwardedSnoc(a + init, f);
      ForwardedSnoc(init, f);
      assert a + b == a + init + [f] && b == init + [f];
      var more := if f.Wrapped? && IsBlockEvent(f.raw) then [f.raw] else [];
      assert Forwarded(a) + (Forwarded(init) + more) == Forwarded(a) + Forwarded(init) + more;
    }
  }

  lemma {:induction false} NothingForwarded(frames: seq<Frame>)
    requires forall k | 0 <= k < |frames| :: !(frames[k].Wrapped? && IsBlockEvent(frames[k].raw))
    ensures Forwarded(frames) == []
  {
    if frames != [] {
      NothingForwarded(frames[..|frames| - 1]);
    }
  }

  lemma {:induction false} ResultsForwardNothing(s: SseState, results: seq<ResultPiece>, nested: Option<Nested>)
    ensures Forwarded(MapResults(s, results, nested).1) == []
    ensures MapResults(s, results, nested).0.suppressed == s.suppressed
    ensures MapResults(s, results, nested).0.meter == s.meter
  {
    if results != [] {
      var init := results[..|results| - 1];
      ResultsForwardNothing(s, init, nested);
      var frames, all := MapResults(s, init, nested).1, MapResults(s, results, nested).1;
      assert all[..|all| - 1] == frames;
    }
  }

  /** A stream event that is no block event leaves the blocks alone. */
  lemma OtherStreamForwardsNothing(s: SseState, raw: Raw, nested: Option<Nested>)
    requires !IsBlockEvent(raw)
    ensures Forwarded(MapStream(s, raw, nested).1) == []
    ensures MapStream(s, raw, nested).0.suppressed == s.suppressed
  {
    NothingForwarded(MapStream(s, raw, nested).1);
  }

  lemma StartForwardsNothing(s: SseState, sid: string, tool: string, nested: Option<Nested>)
    ensures Forwarded(ToolStarted(s, sid, tool, nested).1) == []
    ensures ToolStarted(s, sid, tool, nested).0.suppressed == s.suppressed
  {
    NothingForwarded([ToolEvent(Started, sid, tool, nested)]);
  }

  lemma OtherBodyForwardsNothing(s: SseState, body: Body, nested: Option<Nested>)
    requires !(body.Stream? && IsBlockEvent(body.raw))
    ensures Forwarded(MapBody(s, body, nested).1) == [] && MapBody(s, body, nested).0.suppressed == s.suppressed
  {
    match body
    case ToolResults(results) => ResultsForwardNothing(s, results, nested);
    case Stream(raw) => OtherStreamForwardsNothing(s, raw, nested);
    case ToolExecution(head) => StartForwardsNothing(s, ScopedId(head.id, nested), OrTool(head.name), nested);
    case TraceBody(kind) => NothingForwarded([TraceFrame(kind)]);
    case SubagentPhase => NothingForwarded([SubagentFrame(nested)]);
    case UsageEstimate(_, _) => NothingForwarded([]);
    case _ => NothingForwarded(MapBody(s, body, nested).1);
  }

  /** The open tool blocks. */
  function OpenTools(open: map<int, bool>): set<int> {
    set i | i in open && open[i]
  }

  lemma ForwardedSingleton(raw: Raw)
    requires IsBlockEvent(raw)
    ensures Forwarded([Wrapped(raw)]) == [raw]
  {
    assert [Wrapped(raw)][..0] == [];
  }

  lemma OpenToolsWith(open: map<int, bool>, i: int)
    requires i !in open
    ensures OpenTools(open[i := true]) == OpenTools(open) + {i}
    ensures OpenTools(open[i := false]) == OpenTools(open)
  {
    assert forall k | k in open :: open[i := true][k] == open[k] && open[i := false][k] == open[k];
  }

  lemma StartStep(s: SseState, i: int, tool: Option<ToolHead>, nested: Option<Nested>, open: map<int, bool>)
    requires s.suppressed == OpenTools(open) && i !in open
    ensures var raw := BlockStart(Some(i), tool);
            && Forwarded(MapStream(s, raw, nested).1) == (if tool.Some? then [] else [raw])
            && MapStream(s, raw, nested).0.suppressed == OpenTools(open[i := tool.Some?])
  {
    var raw := BlockStart(Some(i), tool);
    OpenToolsWith(open, i);
    if tool.Some? {
      var s', head := s.(suppressed := s.suppressed + {i}), tool.value;
      StartForwardsNothing(s', ScopedId(head.id, nested), OrTool(head.name), nested);
    } else {
      ForwardedSingleton(raw);
    }
  }

  lemma DeltaStep(s: SseState, i: int, inputJson: bool, text: string, nested: Option<Nested>, open: map<int, bool>)
    requires s.suppressed == OpenTools(open) && i in open && (inputJson ==> open[i])
    ensures var raw := BlockDelta(Some(i), inputJson, text);
            && Forwarded(MapStream(s, raw, nested).1) == (if open[i] then [] else [raw])
            && MapStream(s, raw, nested).0.suppressed == OpenTools(open)
  {
    ForwardedSingleton(BlockDelta(Some(i), inputJson, text));
  }

  lemma StopStep(s: SseState, i: int, nested: Option<Nested>, open: map<int, bool>)
    requires s.suppressed == OpenTools(open) && i in open
    ensures var raw := BlockStop(Some(i));
            && Forwarded(MapStream(s, raw, nested).1) == (if open[i] then [] else [raw])
            && MapStream(s, raw, nested).0.suppressed == OpenTools(open - {i})
  {
    ForwardedSingleton(BlockStop(Some(i)));
    assert OpenTools(open - {i}) == OpenTools(open) - {i};
  }

  /** What one event adds to the visible block events, given the blocks open before it. */
  function VisibleOf(body: Body, before: map<int, bool>): seq<Raw>
    requires Fits(body, before)
  {
    match body
    case Stream(BlockStart(index, tool)) => if tool.Some? then [] else [BlockStart(index, tool)]
    case Stream(BlockDelta(index, inputJson, text)) =>
      if before[index.value] then [] else [BlockDelta(index, inputJson, text)]
    case Stream(BlockStop(index)) => if before[index.value] then [] else [BlockStop(index)]
    case _ => []
  }

  lemma BlockStep(s: SseState, body: Body, nested: Option<Nested>, open: map<int, bool>)
    requires s.suppressed == OpenTools(open) && Fits(body, open)
    ensures Forwarded(MapBody(s, body, nested).1) == VisibleOf(body, open)
    ensures MapBody(s, body, nested).0.suppressed == OpenTools(OpenAfter(body, open))
  {
    match body
    case Stream(BlockStart(index, tool)) => StartStep(s, index.value, tool, nested, open);
    case Stream(BlockDelta(index, inputJson, text)) => DeltaStep(s, index.value, inputJson, text, nested, open);
    case Stream(BlockStop(index)) => StopStep(s, index.value, nested, open);
    case _ => OtherBodyForwardsNothing(s, body, nested);
  }

  /**
   On every stream whose blocks are well bracketed, the block events sent are exactly those
   left after deleting whole tool blocks, in order; what stays suppressed is what is still open.
   */
  lemma {:induction false} SuppressionDeletesToolBlocks(events: seq<Event>)
    requires WellBracketed(events)
    ensures var (s, frames) := MapAll(NEW_STATE, events);
            Forwarded(frames) == Visible(events) && s.suppressed == OpenTools(OpenBlocks(events))
  {
    if events != [] {
      var init, e := events[..|events| - 1], events[|events| - 1];
      SuppressionDeletesToolBlocks(init);
      var (s, frames) := MapAll(NEW_STATE, init);
      ForwardedConcat(frames, MapEvent(s, e).1);
      BlockStep(s, e.body, NestedPayload(e), OpenBlocks(init));
    }
  }

  /** Once all blocks are closed nothing is suppressed any more. */
  lemma NothingStaysSuppressed(events: seq<Event>)
    requires WellBracketed(events) && OpenBlocks(events) == map[]
    ensures MapAll(NEW_STATE, events).0.suppressed == {}
  {
    SuppressionDeletesToolBlocks(events);
  }

  // ---------- Two meters ----------

  /** The tool start an event carries for the mapper, if any. */
  function MapperStart(body: Body, nested: Option<Nested>): Option<ToolHead> {
    match body
    case ToolExecution(head) => Some(ToolHead(ScopedId(head.id, nested), OrTool(head.name)))
    case Stream(ToolUsePending(head)) => Some(ToolHead(ScopedId(head.id, nested), OrTool(head.name)))
    case Stream(BlockStart(index, tool)) =>
      if index.Some? && tool.Some? then Some(ToolHead(ScopedId(tool.value.id, nested), OrTool(tool.value.name)))
      else None
    case _ => None
  }

  /** The tool start it carries for the tracker: never from a content block, and never scoped. */
  function TrackerStart(body: Body): Option<ToolHead> {
    match body
    case ToolExecution(head) => Some(ToolHead(Strip(head.id), OrTool(head.name)))
    case Stream(ToolUsePending(head)) => Some(ToolHead(Strip(head.id), OrTool(head.name)))
    case _ => None
  }

  /** What an event does to the meters apart from tool starts: the same in both. */
  function Billed(m: Meter, body: Body): Meter {
    match body
    case UsageEstimate(input, output) => Estimated(m, input, output)
    case Stream(MessageDelta(t)) => if HasTokens(t) then m.(usage := AddTurn(m.usage, t)) else m
    case _ => m
  }

  function StartedOr(m: Meter, start: Option<ToolHead>, body: Body): Meter {
    match start
    case Some(head) => StartTool(m, head.id, head.name)
    case None => Billed(m, body)
  }

  lemma ToolStartedMeter(s: SseState, sid: string, tool: string, nested: Option<Nested>)
    ensures ToolStarted(s, sid, tool, nested).0.meter == StartTool(s.meter, sid, tool)
  {
  }

  lemma BlockStartMeter(s: SseState, index: int, head: ToolHead, nested: Option<Nested>)
    ensures ToolBlockOpens(s, index, head, nested).0.meter ==
            StartTool(s.meter, ScopedId(head.id, nested), OrTool(head.name))
  {
    ToolStartedMeter(s.(suppressed := s.suppressed + {index}), ScopedId(head.id, nested), OrTool(head.name), nested);
  }

  lemma UsageMeter(s: SseState, t: Tokens, nested: Option<Nested>)
    ensures MapStream(s, MessageDelta(t), nested).0.meter == Billed(s.meter, Stream(MessageDelta(t)))
  {
  }

  lemma StreamMeter(s: SseState, raw: Raw, nested: Option<Nested>)
    ensures MapStream(s, raw, nested).0.meter ==
            StartedOr(s.meter, MapperStart(Stream(raw), nested), Stream(raw))
  {
    match raw
    case MessageDelta(t) => UsageMeter(s, t, nested);
    case ToolUsePending(head) => ToolStartedMeter(s, ScopedId(head.id, nested), OrTool(head.name), nested);
    case BlockStart(index, tool) =>
      if index.Some? && tool.Some? {
        BlockStartMeter(s, index.value, tool.value, nested);
      }
    case BlockDelta(_, _, _) =>
    case BlockStop(_) =>
    case AssistantMessage(_) =>
    case OtherRaw(_) =>
  }

  /** The mapper's meter after one event. */
  lemma MapperStep(s: SseState, body: Body, nested: Option<Nested>)
    ensures MapBody(s, body, nested).0.meter == StartedOr(s.meter, MapperStart(body, nested), body)
  {
    match body
    case ToolResults(results) => ResultsForwardNothing(s, results, nested);
    case ToolExecution(head) =>
      ToolStartedMeter(s, ScopedId(head.id, nested), OrTool(head.name), nested);
    case Stream(raw) => StreamMeter(s, raw, nested);
    case _ =>
  }

  /** The tracker's meter after one event. */
  lemma TrackerStep(m: Meter, e: Event)
    ensures Ingested(m, e) == StartedOr(m, TrackerStart(e.body), e.body)
  {
  }

  /** At every step of any stream the mapper's tool counts add up to the tools started. */
  lemma {:induction false} MapperCountsStarts(events: seq<Event>)
    ensures CountsStarts(MeterAfter(events))
  {
    if events != [] {
      var init, e := events[..|events| - 1], events[|events| - 1];
      MapperCountsStarts(init);
      var s, nested := MapAll(NEW_STATE, init).0, NestedPayload(e);
      MapperStep(s, e.body, nested);
      var start := MapperStart(e.body, nested);
      if start.Some? {
        StartToolCounts(s.meter, start.value.id, start.value.name);
      }
    }
  }

  /** Usage apart from tool counts. */
  function TokenPart(m: Meter): (Tokens, int, int) {
    (m.usage.tokens, m.usage.estimatedInput, m.usage.estimatedOutput)
  }

  lemma BilledAlike(m: Meter, n: Meter, a: Option<ToolHead>, b: Option<ToolHead>, body: Body)
    requires TokenPart(m) == TokenPart(n)
    requires (a.Some? || b.Some?) ==> Billed(m, body) == m && Billed(n, body) == n
    ensures TokenPart(StartedOr(m, a, body)) == TokenPart(StartedOr(n, b, body))
  {
  }

  /** On every stream, nested workers and tool blocks included, both meters bill the same tokens. */
  lemma {:induction false} MetersBillTheSameTokens(events: seq<Event>)
    ensures TokenPart(MeterAfter(events)) == TokenPart(IngestedAll(NEW_METER, events))
  {
    if events != [] {
      var init, e := events[..|events| - 1], events[|events| - 1];
      MetersBillTheSameTokens(init);
      var s, m := MapAll(NEW_STATE, init).0, IngestedAll(NEW_METER, init);
      var nested := NestedPayload(e);
      MapperStep(s, e.body, nested);
      TrackerStep(m, e);
      BilledAlike(s.meter, m, MapperStart(e.body, nested), TrackerStart(e.body), e.body);
    }
  }

  /** The id an event starts, if it names one. */
  function StartIdOf(start: Option<ToolHead>): set<string> {
    if start.Some? && start.value.id != "" then {start.value.id} else {}
  }

  /** The ids that pending and execution events announce, as they stand in the events. */
  function AnnouncedIds(events: seq<Event>): set<string> {
    if events == [] then {}
    else AnnouncedIds(events[..|events| - 1]) + StartIdOf(TrackerStart(events[|events| - 1].body))
  }

  /** The ids that any event announces, kept apart by worker. */
  function ScopedIds(events: seq<Event>): set<string> {
    if events == [] then {}
    else
      var e := events[|events| - 1];
      ScopedIds(events[..|events| - 1]) + StartIdOf(MapperStart(e.body, NestedPayload(e)))
  }

  lemma StartedOrStarts(m: Meter, start: Option<ToolHead>, body: Body)
    ensures StartedOr(m, start, body).started == m.started + StartIdOf(start)
  {
  }

  lemma {:induction false} StartedAreAnnounced(events: seq<Event>)
    ensures MeterAfter(events).started == ScopedIds(events)
    ensures IngestedAll(NEW_METER, events).started == AnnouncedIds(events)
  {
    hide NestedPayload, MapperStart, TrackerStart, StartedOr, MapBody, Ingested;
    if events != [] {
      var init, e := events[..|events| - 1], events[|events| - 1];
      StartedAreAnnounced(init);
      var s, m, nested := MapAll(NEW_STATE, init).0, IngestedAll(NEW_METER, init), NestedPayload(e);
      MapperStep(s, e.body, nested);
      TrackerStep(m, e);
      StartedOrStarts(s.meter, MapperStart(e.body, nested), e.body);
      StartedOrStarts(m, TrackerStart(e.body), e.body);
    }
  }

  /**
   On every stream, nested workers included, the meters agree on the number of tools if and only
   if the events announce as many ids kept apart by worker, content blocks included, as pending
   and execution events announce taken together.
   */
  lemma ToolTotalsAgree(events: seq<Event>)
    ensures TotalTools(MeterAfter(events).usage.toolCounts) ==
            TotalTools(IngestedAll(NEW_METER, events).usage.toolCounts)
            <==> |ScopedIds(events)| == |AnnouncedIds(events)|
  {
    hide MapAll, IngestedAll, ScopedIds, AnnouncedIds, TotalTools;
    MapperCountsStarts(events);
    TrackerCountsStarts(events);
    StartedAreAnnounced(events);
  }

  /** No event comes from a nested worker. */
  predicate NoNested(events: seq<Event>) {
    forall e | e in events :: NestedPayload(e).None?
  }

  /** A tool start announced by a content block, which only the mapper sees. */
  function BlockToolIdOf(body: Body): set<string> {
    match body
    case Stream(BlockStart(index, tool)) =>
      if index.Some? && tool.Some? && Strip(tool.value.id) != "" then {Strip(tool.value.id)} else {}
    case _ => {}
  }

  function BlockToolIds(events: seq<Event>): set<string> {
    if events == [] then {} else BlockToolIds(events[..|events| - 1]) + BlockToolIdOf(events[|events| - 1].body)
  }

  lemma StartsDiffer(body: Body)
    ensures StartIdOf(MapperStart(body, None)) == StartIdOf(TrackerStart(body)) + BlockToolIdOf(body)
  {
  }

  lemma {:induction false} ScopedWithoutNested(events: seq<Event>)
    requires NoNested(events)
    ensures ScopedIds(events) == AnnouncedIds(events) + BlockToolIds(events)
  {
    hide NestedPayload, MapperStart, TrackerStart, BlockToolIdOf;
    if events != [] {
      var init, e := events[..|events| - 1], events[|events| - 1];
      assert events == init + [e];
      ScopedWithoutNested(init);
      StartsDiffer(e.body);
    }
  }

  /**
   Without nested workers: if and only if every tool announced by a content block is also
   announced by a pending or execution event.
   */
  lemma BlockToolsDecide(events: seq<Event>)
    requires NoNested(events)
    ensures TotalTools(MeterAfter(events).usage.toolCounts) ==
            TotalTools(IngestedAll(NEW_METER, events).usage.toolCounts)
            <==> BlockToolIds(events) <= AnnouncedIds(events)
  {
    hide MapAll, IngestedAll, ScopedIds, AnnouncedIds, BlockToolIds, TotalTools;
    ToolTotalsAgree(events);
    ScopedWithoutNested(events);
    var announced, scoped := AnnouncedIds(events), ScopedIds(events);
    assert scoped == announced + (scoped - announced);
    assert |scoped| == |announced| + |scoped - announced|;
    if BlockToolIds(events) <= announced {
      assert scoped == announced;
    } else {
      assert scoped - announced != {};
    }
  }

  lemma IdsSnoc(events: seq<Event>, e: Event)
    ensures ScopedIds(events + [e]) == ScopedIds(events) + StartIdOf(MapperStart(e.body, NestedPayload(e)))
    ensures AnnouncedIds(events + [e]) == AnnouncedIds(events) + StartIdOf(TrackerStart(e.body))
    ensures ScopedIds([]) == {} && AnnouncedIds([]) == {}
  {
    hide NestedPayload, MapperStart, TrackerStart;
    assert (events + [e])[..|events|] == events;
  }

  lemma IdsOfLetter(nested: Option<Nested>)
    requires nested.None? || nested == Some(Composio)
    ensures var body := ToolExecution(ToolHead("a", "search"));
            StartIdOf(TrackerStart(body)) == {"a"} &&
            StartIdOf(MapperStart(body, nested)) == if nested.None? then {"a"} else {"composio:a"}
  {
    assert Stripped("a") && "composio:" + "a" == "composio:a";
  }

  const SEARCH := ToolExecution(ToolHead("a", "search"))

  const PARENT_SEARCH := Event(SEARCH, None, None)

  const NESTED_SEARCH := Event(SEARCH, Some(SubagentField(true, "")), None)

  lemma TwoIds()
    ensures |{"a"} + {"composio:a"}| == 2 && |{"a"}| == 1
  {
    assert |"composio:a"| != |"a"|;
    assert |{"a"} + {"composio:a"}| == |{"a"}| + |{"composio:a"}|;
  }

  lemma SearchIds()
    ensures ScopedIds([PARENT_SEARCH] + [NESTED_SEARCH]) == {"a"} + {"composio:a"}
    ensures AnnouncedIds([PARENT_SEARCH] + [NESTED_SEARCH]) == {"a"}
  {
    hide Strip, ScopedId, OrTool, MapperStart, TrackerStart, StartIdOf, ScopedIds, AnnouncedIds;
    assert NestedPayload(NESTED_SEARCH) == Some(Composio) && NestedPayload(PARENT_SEARCH) == None;
    IdsOfLetter(None);
    IdsOfLetter(Some(Composio));
    IdsSnoc([], PARENT_SEARCH);
    IdsSnoc([PARENT_SEARCH], NESTED_SEARCH);
    assert [] + [PARENT_SEARCH] == [PARENT_SEARCH];
  }

  /** A nested worker and its parent that use one id are two tools for the mapper and one for the tracker. */
  lemma NestedWorkerSplitsAnId()
    ensures var events := [PARENT_SEARCH] + [NESTED_SEARCH];
            && TotalTools(MeterAfter(events).usage.toolCounts) == 2
            && TotalTools(IngestedAll(NEW_METER, events).usage.toolCounts) == 1
  {
    hide MapAll, IngestedAll, ScopedIds, AnnouncedIds, TotalTools;
    var events := [PARENT_SEARCH] + [NESTED_SEARCH];
    SearchIds();
    TwoIds();
    MapperCountsStarts(events);
    TrackerCountsStarts(events);
    StartedAreAnnounced(events);
  }

  lemma StartsAgree(m: Meter, body: Body)
    requires BlockToolIdOf(body) == {}
    ensures StartedOr(m, MapperStart(body, None), body) == StartedOr(m, TrackerStart(body), body)
  {
  }

  /** Without nested workers and tool blocks the two meters are identical at every step. */
  lemma {:induction false} MetersAgree(events: seq<Event>)
    requires NoNested(events) && BlockToolIds(events) == {}
    ensures MeterAfter(events) == IngestedAll(NEW_METER, events)
  {
    if events != [] {
      var init, e := events[..|events| - 1], events[|events| - 1];
      assert events == init + [e];
      MetersAgree(init);
      var s := MapAll(NEW_STATE, init).0;
      MapperStep(s, e.body, None);
      TrackerStep(s.meter, e);
      StartsAgree(s.meter, e.body);
    }
  }
}

/**
 The mapper from agent events to server-sent frames: tool starts, suppressed tool blocks,
 metering, and the completion sequence.
 */
module KorakuSse {
  import opened PyText
  import opened UsageMeters

  datatype ToolPhase = Started | Finished | Broken

  datatype Frame =
    | TraceFrame(kind: string)
    | TurnUsage(tokens: Tokens)
    | ToolEvent(phase: ToolPhase, id: string, name: string, nested: Option<Nested>)
    | SubagentFrame(nested: Option<Nested>)
    | Wrapped(raw: Raw)
    | ResultFrame(failed: bool, cancelled: bool)
    | CompletedFrame(exitCode: int, failed: bool, cancelled: bool)
    | OutputMarker

  /** The mutable part of `KorakuStreamState`. */
  datatype SseState = SseState(meter: Meter, suppressed: set<int>, calls: map<string, string>)

  const NEW_STATE := SseState(NEW_METER, {}, map[])

  /** Nested workers' tool ids are kept apart from the parent turn's. */
  function ScopedId(id: string, nested: Option<Nested>): string {
    var tid := Strip(id);
    if tid == "" || nested.None? then tid
    else
      var prefix := if nested.value.Composio? then "composio:" else "workhorse:";
      if StartsWith(tid, prefix) then tid else prefix + tid
  }

  lemma ScopedIdStripped(id: string, nested: Option<Nested>)
    ensures Strip(ScopedId(id, nested)) == ScopedId(id, nested)
  {
    var tid := Strip(id);
    if tid != "" && nested.Some? {
      assert Stripped("composio:" + tid) && Stripped("workhorse:" + tid);
    }
  }

  lemma OrToolTwice(name: string)
    ensures OrTool(OrTool(name)) == OrTool(name)
  {
    assert Stripped("tool");
  }

  // ---------- What one event does ----------

  function ToolStarted(s: SseState, sid: string, tool: string, nested: Option<Nested>): (SseState, seq<Frame>) {
    if sid == "" then (s, [])
    else (s.(meter := StartTool(s.meter, sid, tool), calls := s.calls[sid := tool]),
          [ToolEvent(Started, sid, tool, nested)])
  }

  function CompletionSequence(failed: bool, cancelled: bool): seq<Frame> {
    [ResultFrame(failed && !cancelled, cancelled),
     CompletedFrame(if cancelled then 130 else if failed then 1 else 0, failed && !cancelled, cancelled),
     OutputMarker]
  }

  predicate Suppressed(s: SseState, index: Option<int>) { index.Some? && index.value in s.suppressed }

  function WithoutToolCalls(content: seq<Piece>): seq<Piece> {
    if content == [] then []
    else
      var p := content[|content| - 1];
      WithoutToolCalls(content[..|content| - 1]) + if p.isToolUse then [] else [p]
  }

  function ToolExecuted(s: SseState, head: ToolHead, nested: Option<Nested>): (SseState, seq<Frame>) {
    ToolStarted(s, ScopedId(head.id, nested), OrTool(head.name), nested)
  }

  /** A tool block opens: its later events are swallowed, the tool is announced. */
  function ToolBlockOpens(s: SseState, index: int, head: ToolHead, nested: Option<Nested>): (SseState, seq<Frame>) {
    ToolStarted(s.(suppressed := s.suppressed + {index}), ScopedId(head.id, nested), OrTool(head.name), nested)
  }

  function MapUsage(s: SseState, t: Tokens): (SseState, seq<Frame>) {
    if HasTokens(t) then
      (s.(meter := s.meter.(usage := AddTurn(s.meter.usage, t))), [TurnUsage(t), Wrapped(MessageDelta(t))])
    else (s, [Wrapped(MessageDelta(t))])
  }

  function MapStream(s: SseState, raw: Raw, nested: Option<Nested>): (SseState, seq<Frame>) {
    match raw
    case MessageDelta(t) => MapUsage(s, t)
    case ToolUsePending(head) => ToolExecuted(s, head, nested)
    case BlockStart(index, tool) =>
      if index.Some? && tool.Some? then ToolBlockOpens(s, index.value, tool.value, nested)
      else (s, [Wrapped(raw)])
    case BlockDelta(index, inputJson, _) =>
      if Suppressed(s, index) || inputJson then (s, []) else (s, [Wrapped(raw)])
    case BlockStop(index) =>
      if Suppressed(s, index) then (s.(suppressed := s.suppressed - {index.value}), []) else (s, [Wrapped(raw)])
    case AssistantMessage(content) =>
      if content.None? then (s, [Wrapped(raw)])
      else
        var safe := WithoutToolCalls(content.value);
        if safe == [] then (s, []) else (s, [Wrapped(AssistantMessage(Some(safe)))])
    case OtherRaw(_) => (s, [Wrapped(raw)])
  }

  function MapResults(s: SseState, results: seq<ResultPiece>, nested: Option<Nested>): (SseState, seq<Frame>) {
    if results == [] then (s, [])
    else
      var (before, frames) := MapResults(s, results[..|results| - 1], nested);
      var r := results[|results| - 1];
      var sid := ScopedId(r.toolUseId, nested);
      var name := if sid != "" && sid in before.calls then before.calls[sid] else "tool";
      (if sid == "" then before else before.(calls := before.calls - {sid}),
       frames + [ToolEvent(if r.isError then Broken else Finished, sid, name, nested)])
  }

  function MapEvent(s: SseState, e: Event): (SseState, seq<Frame>) {
    MapBody(s, e.body, NestedPayload(e))
  }

  function MapBody(s: SseState, body: Body, nested: Option<Nested>): (SseState, seq<Frame>) {
    match body
    case TraceBody(kind) => (s, [TraceFrame(kind)])
    case UsageEstimate(input, output) => (s.(meter := Estimated(s.meter, input, output)), [])
    case ToolExecution(head) => ToolExecuted(s, head, nested)
    case SubagentPhase => (s, [SubagentFrame(nested)])
    case Stream(raw) => MapStream(s, raw, nested)
    case ToolResults(results) => MapResults(s, results, nested)
    case Completed => (s, if nested.Some? then [] else CompletionSequence(false, false))
    case Cancelled => (s, if nested.Some? then [] else CompletionSequence(false, true))
    case Failed(_) => (s, if nested.Some? then [] else CompletionSequence(true, false))
    case OtherBody => (s, [])
  }

  // ---------- The mapper in place ----------

  class KorakuStreamState {
    const usage: UsageAccumulator
    var suppressedToolBlockIndexes: set<int>
    var toolCallsById: map<string, string>
    var startedToolUseIds: set<string>

    function View(): SseState
      reads this, usage
    {
      SseState(Meter(usage.View(), startedToolUseIds), suppressedToolBlockIndexes, toolCallsById)
    }

    constructor ()
      ensures fresh(usage) && View() == NEW_STATE
    {
      usage := new UsageAccumulator();
      suppressedToolBlockIndexes, toolCallsById, startedToolUseIds := {}, map[], {};
    }

    method ToolStartedEvents(id: string, name: string, nested: Option<Nested>) returns (out: seq<Frame>)
      modifies this, usage
      ensures (View(), out) == ToolStarted(old(View()), Strip(id), OrTool(name), nested)
    {
      var sid, tool := Strip(id), OrTool(name);
      if sid == "" {
        return [];
      }
      var isNew := sid !in startedToolUseIds;
      assert !isNew ==> startedToolUseIds + {sid} == startedToolUseIds;
      toolCallsById := toolCallsById[sid := tool];
      startedToolUseIds := startedToolUseIds + {sid};
      if isNew {
        usage.RecordTool(tool);
      }
      return [ToolEvent(Started, sid, tool, nested)];
    }

    method OpenToolBlock(index: int, id: string, name: string, nested: Option<Nested>) returns (out: seq<Frame>)
      modifies this, usage
      ensures (View(), out) ==
              ToolStarted(old(View()).(suppressed := old(View()).suppressed + {index}), Strip(id), OrTool(name), nested)
    {
      ghost var withBlock := View().(suppressed := View().suppressed + {index});
      suppressedToolBlockIndexes := suppressedToolBlockIndexes + {index};
      assert View() == withBlock;
      out := ToolStartedEvents(id, name, nested);
    }

    method MeterUsage(t: Tokens) returns (out: seq<Frame>)
      modifies usage
      ensures (View(), out) == MapUsage(old(View()), t)
    {
      out := [];
      if HasTokens(t) {
        usage.AddTurnUsage(t);
        out := [TurnUsage(t)];
      }
      out := out + [Wrapped(MessageDelta(t))];
      assert out == if HasTokens(t) then [TurnUsage(t), Wrapped(MessageDelta(t))] else [Wrapped(MessageDelta(t))];
    }

    /** The later events of a content block: those of a tool block are swallowed. */
    method MapBlockEvent(raw: Raw, nested: Option<Nested>) returns (out: seq<Frame>)
      requires raw.BlockDelta? || raw.BlockStop?
      modifies this`suppressedToolBlockIndexes
      ensures (View(), out) == MapStream(old(View()), raw, nested)
    {
      if raw.index.Some? && raw.index.value in suppressedToolBlockIndexes {
        if raw.BlockStop? {
          suppressedToolBlockIndexes := suppressedToolBlockIndexes - {raw.index.value};
        }
        return [];
      }
      if raw.BlockDelta? && raw.inputJson {
        return [];
      }
      return [Wrapped(raw)];
    }

    method MapStreamEvent(raw: Raw, nested: Option<Nested>) returns (out: seq<Frame>)
      modifies this, usage
      ensures (View(), out) == MapStream(old(View()), raw, nested)
    {
      if raw.MessageDelta? {
        out := MeterUsage(raw.tokens);
      } else if raw.ToolUsePending? {
        ScopedIdStripped(raw.head.id, nested);
        out := ToolStartedEvents(ScopedId(raw.head.id, nested), raw.head.name, nested);
      } else if raw.BlockStart? && raw.index.Some? && raw.tool.Some? {
        ScopedIdStripped(raw.tool.value.id, nested);
        out := OpenToolBlock(raw.index.value, ScopedId(raw.tool.value.id, nested), raw.tool.value.name, nested);
      } else if raw.BlockDelta? || raw.BlockStop? {
        out := MapBlockEvent(raw, nested);
      } else if raw.AssistantMessage? && raw.content.Some? {
        var safe := WithoutToolCalls(raw.content.value);
        out := if safe == [] then [] else [Wrapped(AssistantMessage(Some(safe)))];
      } else {
        out := [Wrapped(raw)];
      }
    }

    method MapToolResults(results: seq<ResultPiece>, nested: Option<Nested>) returns (out: seq<Frame>)
      modifies this
      ensures (View(), out) == MapResults(old(View()), results, nested)
    {
      ghost var s := View();
      out := [];
      for i := 0 to |results|
        invariant (View(), out) == MapResults(s, results[..i], nested)
      {
        assert results[..i + 1][..i] == results[..i];
        var r := results[i];
        var sid := ScopedId(r.toolUseId, nested);
        var name := if sid != "" && sid in toolCallsById then toolCallsById[sid] else "tool";
        if sid != "" {
          toolCallsById := toolCallsById - {sid};
        }
        out := out + [ToolEvent(if r.isError then Broken else Finished, sid, name, nested)];
      }
      assert results[..|results|] == results;
    }

    method MapEstimate(input: int, output: int)
      modifies usage
      ensures View() == old(View()).(meter := Estimated(old(View()).meter, input, output))
    {
      if input > 0 || output > 0 {
        if usage.tokens.input <= 0 && usage.tokens.output <= 0 {
          usage.AddEstimatedRound(input, output);
        }
      }
    }

    method MapToolExecution(head: ToolHead, nested: Option<Nested>) returns (out: seq<Frame>)
      modifies this, usage
      ensures (View(), out) == ToolExecuted(old(View()), head, nested)
    {
      var scoped, name := ScopedId(head.id, nested), OrTool(head.name);
      ScopedIdStripped(head.id, nested);
      OrToolTwice(head.name);
      out := ToolStartedEvents(scoped, name, nested);
    }

    method MapEventBody(body: Body, nested: Option<Nested>) returns (out: seq<Frame>)
      modifies this, usage
      ensures (View(), out) == MapBody(old(View()), body, nested)
    {
      match body {
        case TraceBody(kind) => out := [TraceFrame(kind)];
        case UsageEstimate(input, output) =>
          MapEstimate(input, output);
          out := [];
        case ToolExecution(head) => out := MapToolExecution(head, nested);
        case SubagentPhase => out := [SubagentFrame(nested)];
        case Stream(raw) => out := MapStreamEvent(raw, nested);
        case ToolResults(results) => out := MapToolResults(results, nested);
        case Completed => out := if nested.Some? then [] else CompletionSequence(false, false);
        case Cancelled => out := if nested.Some? then [] else CompletionSequence(false, true);
        case Failed(_) => out := if nested.Some? then [] else CompletionSequence(true, false);
        case OtherBody => out := [];
      }
    }

    method MapKorakuStreamEvents(e: Event) returns (out: seq<Frame>)
      modifies this, usage
      ensures (View(), out) == MapEvent(old(View()), e)
    {
      var nested := NestedPayload(e);
      out := MapEventBody(e.body, nested);
    }
  }

  // ---------- Whole streams ----------

  function MapAll(s: SseState, events: seq<Event>): (SseState, seq<Frame>) {
    if events == [] then (s, [])
    else
      var (before, frames) := MapAll(s, events[..|events| - 1]);
      var (after, more) := MapEvent(before, events[|events| - 1]);
      (after, frames + more)
  }

  function MeterAfter(events: seq<Event>): Meter { MapAll(NEW_STATE, events).0.meter }
}

/**
 What a whole stream of events is told as. All frames but those of content blocks, and but for the
 tool names in result frames, are determined event by event, whatever went before.
 */
module KorakuSseFrames {
  import opened PyText
  import opened Collections
  import opened UsageMeters
  import opened KorakuSse
  import opened KorakuSseTheorems

  /** A frame without what depends on earlier events. */
  function Seen(f: Frame): seq<Frame> {
    match f
    case Wrapped(raw) => if IsBlockEvent(raw) then [] else [f]
    case ToolEvent(phase, id, name, nested) => if phase.Started? then [f] else [ToolEvent(phase, id, "", nested)]
    case _ => [f]
  }

  /** A tool is announced under its scoped id, if it has one, and under its name or as "tool". */
  function Announced(head: ToolHead, nested: Option<Nested>): seq<Frame> {
    if Strip(head.id) == "" then []
    else [ToolEvent(Started, ScopedId(head.id, nested), if Strip(head.name) == "" then "tool" else Strip(head.name), nested)]
  }

  function Told(nested: Option<Nested>): ResultPiece -> seq<Frame> {
    (r: ResultPiece) => [ToolEvent(if r.isError then Broken else Finished, ScopedId(r.toolUseId, nested), "", nested)]
  }

  function Safe(p: Piece): seq<Piece> { if p.isToolUse then [] else [p] }

  /** What one event is told as, from the event alone. */
  function Telling(e: Event): seq<Frame> {
    var nested := NestedPayload(e);
    match e.body
    case TraceBody(kind) => [TraceFrame(kind)]
    case SubagentPhase => [SubagentFrame(nested)]
    case ToolExecution(head) => Announced(head, nested)
    case Stream(raw) => StreamTelling(raw, nested)
    case ToolResults(results) => Collect(results, Told(nested))
    // A run that ends tells its result, that it is complete, and that nothing follows.
    case Completed => if nested.Some? then [] else [ResultFrame(false, false), CompletedFrame(0, false, false), OutputMarker]
    case Cancelled => if nested.Some? then [] else [ResultFrame(false, true), CompletedFrame(130, false, true), OutputMarker]
    case Failed(_) => if nested.Some? then [] else [ResultFrame(true, false), CompletedFrame(1, true, false), OutputMarker]
    case _ => []
  }

  function StreamTelling(raw: Raw, nested: Option<Nested>): seq<Frame> {
    match raw
    case MessageDelta(t) =>
      if t.input > 0 || t.output > 0 || t.cacheCreation > 0 || t.cacheRead > 0 then [TurnUsage(t), Wrapped(raw)]
      else [Wrapped(raw)]
    case ToolUsePending(head) => Announced(head, nested)
    case BlockStart(Some(_), Some(head)) => Announced(head, nested)
    // An assistant message loses its calls, and is not sent when nothing else is in it.
    case AssistantMessage(Some(content)) =>
      if Collect(content, Safe) == [] then [] else [Wrapped(AssistantMessage(Some(Collect(content, Safe))))]
    case AssistantMessage(None) => [Wrapped(raw)]
    case OtherRaw(_) => [Wrapped(raw)]
    case _ => []
  }

  /** A scoped id is the id itself, or the id behind the name of the kind of worker, which stands there once. */
  lemma ScopedIdSays(id: string, nested: Option<Nested>)
    ensures var s := ScopedId(id, nested);
            && (s == "" <==> Strip(id) == "")
            && (nested.None? ==> s == Strip(id))
            && (nested.Some? && Strip(id) != "" ==>
                  var prefix := if nested.value.Composio? then "composio:" else "workhorse:";
                  StartsWith(s, prefix) && s == if StartsWith(Strip(id), prefix) then Strip(id) else prefix + Strip(id))
  {
    hide Strip;
  }

  lemma AnnouncesHead(s: SseState, head: ToolHead, nested: Option<Nested>)
    ensures Collect(ToolStarted(s, ScopedId(head.id, nested), OrTool(head.name), nested).1, Seen) == Announced(head, nested)
  {
    hide Strip, ScopedId;
    ScopedIdSays(head.id, nested);
    CollectOne(ToolEvent(Started, ScopedId(head.id, nested), OrTool(head.name), nested), Seen);
  }

  lemma {:induction false} SafePieces(content: seq<Piece>)
    ensures WithoutToolCalls(content) == Collect(content, Safe)
  {
    if content != [] {
      SafePieces(content[..|content| - 1]);
    }
  }

  lemma {:induction false} ResultsTold(s: SseState, results: seq<ResultPiece>, nested: Option<Nested>)
    ensures Collect(MapResults(s, results, nested).1, Seen) == Collect(results, Told(nested))
  {
    hide ScopedId;
    if results != [] {
      var init, r := results[..|results| - 1], results[|results| - 1];
      ResultsTold(s, init, nested);
      var (before, frames) := MapResults(s, init, nested);
      var all := MapResults(s, results, nested).1;
      assert all[..|all| - 1] == frames;
      assert Seen(all[|all| - 1]) == Told(nested)(r);
    }
  }

  lemma CollectTwo(f: Frame, g: Frame)
    ensures Collect([f, g], Seen) == Seen(f) + Seen(g)
  {
    CollectOne(f, Seen);
    CollectSnoc([f], g, Seen);
    assert [f] + [g] == [f, g];
  }

  lemma StreamTold(s: SseState, raw: Raw, nested: Option<Nested>)
    ensures Collect(MapStream(s, raw, nested).1, Seen) == StreamTelling(raw, nested)
  {
    hide Strip, ScopedId, OrTool, Announced, ToolStarted;
    CollectNone(Seen);
    match raw
    case MessageDelta(t) =>
      CollectOne(Wrapped(raw), Seen);
      CollectTwo(TurnUsage(t), Wrapped(raw));
    case ToolUsePending(head) => AnnouncesHead(s, head, nested);
    case BlockStart(index, tool) =>
      CollectOne(Wrapped(raw), Seen);
      if index.Some? && tool.Some? {
        AnnouncesHead(s.(suppressed := s.suppressed + {index.value}), tool.value, nested);
      }
    case BlockDelta(_, _, _) => CollectOne(Wrapped(raw), Seen);
    case BlockStop(_) => CollectOne(Wrapped(raw), Seen);
    case AssistantMessage(content) =>
      CollectOne(Wrapped(raw), Seen);
      if content.Some? {
        SafePieces(content.value);
        CollectOne(Wrapped(AssistantMessage(Some(Collect(content.value, Safe)))), Seen);
      }
    case OtherRaw(_) => CollectOne(Wrapped(raw), Seen);
  }

  lemma CompletionTold(failed: bool, cancelled: bool)
    ensures Collect(CompletionSequence(failed, cancelled), Seen) == CompletionSequence(failed, cancelled)
  {
    var q := CompletionSequence(failed, cancelled);
    CollectTwo(q[0], q[1]);
    CollectSnoc([q[0], q[1]], q[2], Seen);
    assert [q[0], q[1]] + [q[2]] == q;
  }

  lemma EventTold(s: SseState, e: Event)
    ensures Collect(MapEvent(s, e).1, Seen) == Telling(e)
  {
    hide ScopedId, OrTool, MapStream, MapResults, StreamTelling, NestedPayload, Announced, ToolStarted;
    var nested := NestedPayload(e);
    CollectNone(Seen);
    match e.body
    case TraceBody(kind) => CollectOne(TraceFrame(kind), Seen);
    case SubagentPhase => CollectOne(SubagentFrame(nested), Seen);
    case ToolExecution(head) => AnnouncesHead(s, head, nested);
    case Stream(raw) => StreamTold(s, raw, nested);
    case ToolResults(results) => ResultsTold(s, results, nested);
    case Completed => CompletionTold(false, false);
    case Cancelled => CompletionTold(false, true);
    case Failed(_) => CompletionTold(true, false);
    case _ =>
  }

  /** On every stream the frames sent, but for content blocks and names in results, are what the events alone tell. */
  lemma {:induction false} StreamIsTold(events: seq<Event>)
    ensures Collect(MapAll(NEW_STATE, events).1, Seen) == Collect(events, Telling)
  {
    hide MapEvent, Telling, Seen;
    if events != [] {
      var init, e := events[..|events| - 1], events[|events| - 1];
      StreamIsTold(init);
      var (s, frames) := MapAll(NEW_STATE, init);
      EventTold(s, e);
      CollectConcat(frames, MapEvent(s, e).1, Seen);
    }
  }
}

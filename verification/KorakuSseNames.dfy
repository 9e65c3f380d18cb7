/** The frames of a run explain themselves: a result carries the name under which its call was announced. */
module KorakuSseNames {
  import opened PyText
  import opened UsageMeters
  import opened KorakuSse

  /** The name of the call with this id that was announced and has no result yet, as the frames show it. */
  function OpenCall(frames: seq<Frame>, id: string): Option<string> {
    if frames == [] then None
    else
      var f := frames[|frames| - 1];
      if f.ToolEvent? && f.id == id then (if f.phase.Started? then Some(f.name) else None)
      else OpenCall(frames[..|frames| - 1], id)
  }

  function NameFor(open: Option<string>): string { if open.Some? then open.value else "tool" }

  /** Each result is named after the call it closes. */
  ghost predicate NamesFit(frames: seq<Frame>) {
    forall k | 0 <= k < |frames| && frames[k].ToolEvent? && !frames[k].phase.Started? ::
      frames[k].name == NameFor(OpenCall(frames[..k], frames[k].id))
  }

  /** The calls remembered are those the frames show open. */
  ghost predicate CallsFit(calls: map<string, string>, frames: seq<Frame>) {
    && "" !in calls
    && forall id :: OpenCall(frames, id) == if id in calls then Some(calls[id]) else None
  }

  ghost predicate Explained(s: SseState, frames: seq<Frame>) {
    CallsFit(s.calls, frames) && NamesFit(frames)
  }

  lemma OpenCallSnoc(frames: seq<Frame>, f: Frame, id: string)
    ensures OpenCall(frames + [f], id) ==
            if f.ToolEvent? && f.id == id then (if f.phase.Started? then Some(f.name) else None)
            else OpenCall(frames, id)
  {
    assert (frames + [f])[..|frames|] == frames;
  }

  lemma NamesSnoc(frames: seq<Frame>, f: Frame)
    requires NamesFit(frames)
    requires f.ToolEvent? && !f.phase.Started? ==> f.name == NameFor(OpenCall(frames, f.id))
    ensures NamesFit(frames + [f])
  {
    var all := frames + [f];
    forall k | 0 <= k < |all| && all[k].ToolEvent? && !all[k].phase.Started?
      ensures all[k].name == NameFor(OpenCall(all[..k], all[k].id))
    {
      assert all[..k] == if k < |frames| then frames[..k] else frames;
    }
  }

  /** One more frame, and what it does to the calls remembered. */
  lemma FrameAppended(s: SseState, t: SseState, frames: seq<Frame>, f: Frame)
    requires Explained(s, frames)
    requires !f.ToolEvent? ==> t.calls == s.calls
    requires f.ToolEvent? && f.phase.Started? ==> f.id != "" && t.calls == s.calls[f.id := f.name]
    requires f.ToolEvent? && !f.phase.Started? ==>
               f.name == (if f.id in s.calls then s.calls[f.id] else "tool") && t.calls == s.calls - {f.id}
    ensures Explained(t, frames + [f])
  {
    NamesSnoc(frames, f);
    forall id
      ensures OpenCall(frames + [f], id) == if id in t.calls then Some(t.calls[id]) else None
    {
      OpenCallSnoc(frames, f, id);
    }
  }

  lemma NothingAppended(s: SseState, t: SseState, frames: seq<Frame>)
    requires Explained(s, frames) && t.calls == s.calls
    ensures Explained(t, frames + [])
  {
    assert frames + [] == frames;
  }

  lemma {:induction false} PlainFrames(s: SseState, t: SseState, frames: seq<Frame>, more: seq<Frame>)
    requires Explained(s, frames) && t.calls == s.calls
    requires forall k | 0 <= k < |more| :: !more[k].ToolEvent?
    ensures Explained(t, frames + more)
    decreases |more|
  {
    if more == [] {
      NothingAppended(s, t, frames);
    } else {
      var n := |more| - 1;
      PlainFrames(s, s, frames, more[..n]);
      FrameAppended(s, t, frames + more[..n], more[n]);
      assert frames + more[..n] + [more[n]] == frames + more;
    }
  }

  lemma StartExplained(s: SseState, sid: string, tool: string, nested: Option<Nested>, frames: seq<Frame>)
    requires Explained(s, frames)
    ensures var (t, more) := ToolStarted(s, sid, tool, nested); Explained(t, frames + more)
  {
    var (t, more) := ToolStarted(s, sid, tool, nested);
    if sid == "" {
      NothingAppended(s, t, frames);
    } else {
      FrameAppended(s, t, frames, ToolEvent(Started, sid, tool, nested));
    }
  }

  lemma {:induction false} ResultsExplained(s: SseState, results: seq<ResultPiece>, nested: Option<Nested>, frames: seq<Frame>)
    requires Explained(s, frames)
    ensures var (t, more) := MapResults(s, results, nested); Explained(t, frames + more)
  {
    hide ScopedId, NamesFit;
    if results == [] {
      NothingAppended(s, s, frames);
    } else {
      var init, r := results[..|results| - 1], results[|results| - 1];
      ResultsExplained(s, init, nested, frames);
      var (before, some) := MapResults(s, init, nested);
      var (t, more) := MapResults(s, results, nested);
      var f := more[|some|];
      FrameAppended(before, t, frames + some, f);
      assert frames + some + [f] == frames + more;
    }
  }

  lemma StreamExplained(s: SseState, raw: Raw, nested: Option<Nested>, frames: seq<Frame>)
    requires Explained(s, frames)
    ensures var (t, more) := MapStream(s, raw, nested); Explained(t, frames + more)
  {
    hide ScopedId, Explained, OrTool;
    var (t, more) := MapStream(s, raw, nested);
    match raw
    case ToolUsePending(head) => StartExplained(s, ScopedId(head.id, nested), OrTool(head.name), nested, frames);
    case BlockStart(index, tool) =>
      if index.Some? && tool.Some? {
        var s', head := s.(suppressed := s.suppressed + {index.value}), tool.value;
        SameCalls(s, s', frames);
        StartExplained(s', ScopedId(head.id, nested), OrTool(head.name), nested, frames);
      } else {
        PlainFrames(s, t, frames, more);
      }
    case _ => PlainFrames(s, t, frames, more);
  }

  lemma SameCalls(s: SseState, t: SseState, frames: seq<Frame>)
    requires Explained(s, frames) && t.calls == s.calls
    ensures Explained(t, frames)
  {
  }

  lemma BodyExplained(s: SseState, body: Body, nested: Option<Nested>, frames: seq<Frame>)
    requires Explained(s, frames)
    ensures var (t, more) := MapBody(s, body, nested); Explained(t, frames + more)
  {
    hide ScopedId, Explained, OrTool;
    var (t, more) := MapBody(s, body, nested);
    match body
    case ToolExecution(head) => StartExplained(s, ScopedId(head.id, nested), OrTool(head.name), nested, frames);
    case Stream(raw) => StreamExplained(s, raw, nested, frames);
    case ToolResults(results) => ResultsExplained(s, results, nested, frames);
    case _ => PlainFrames(s, t, frames, more);
  }

  /**
   Over every stream: each result frame is named after the last announcement of its call, or
   "tool" when there was none or its result was already sent, and what the mapper remembers
   are exactly the calls that the frames show open.
   */
  lemma {:induction false} ResultsNameTheirCalls(events: seq<Event>)
    ensures var (s, frames) := MapAll(NEW_STATE, events); Explained(s, frames)
  {
    if events != [] {
      var init, e := events[..|events| - 1], events[|events| - 1];
      ResultsNameTheirCalls(init);
      var (s, frames) := MapAll(NEW_STATE, init);
      BodyExplained(s, e.body, NestedPayload(e), frames);
    }
  }
}

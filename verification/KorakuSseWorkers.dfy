/** Several workers on one stream: what the block indexes they share do to each worker's blocks. */
module KorakuSseWorkers {
  import opened PyText
  import opened UsageMeters
  import opened KorakuSse
  import opened KorakuSseTheorems

  /** The last tool block opened at an index has not been followed by the end of a block there. */
  predicate ToolOpen(events: seq<Event>, i: int) {
    events != [] &&
    match events[|events| - 1].body
    case Stream(BlockStart(index, tool)) =>
      (index == Some(i) && tool.Some?) || ToolOpen(events[..|events| - 1], i)
    case Stream(BlockStop(index)) => index != Some(i) && ToolOpen(events[..|events| - 1], i)
    case _ => ToolOpen(events[..|events| - 1], i)
  }

  lemma BodySuppresses(s: SseState, body: Body, nested: Option<Nested>, i: int)
    ensures i in MapBody(s, body, nested).0.suppressed <==>
            match body
            case Stream(BlockStart(index, tool)) => (index == Some(i) && tool.Some?) || i in s.suppressed
            case Stream(BlockStop(index)) => index != Some(i) && i in s.suppressed
            case _ => i in s.suppressed
  {
    hide ScopedId, OrTool;
    if body.ToolResults? {
      ResultsForwardNothing(s, body.results, nested);
    }
  }

  /** On every stream, bracketed or not, this is what the suppressed indexes are. */
  lemma {:induction false} SuppressedIsLastToolStart(events: seq<Event>, i: int)
    ensures i in MapAll(NEW_STATE, events).0.suppressed <==> ToolOpen(events, i)
  {
    hide MapBody, NestedPayload;
    if events != [] {
      var init, e := events[..|events| - 1], events[|events| - 1];
      SuppressedIsLastToolStart(init, i);
      BodySuppresses(MapAll(NEW_STATE, init).0, e.body, NestedPayload(e), i);
    }
  }

  // ---------- One worker's share of the stream ----------

  /** The events of one worker; the parent turn is the worker `None`. */
  function EventsOf(events: seq<Event>, worker: Option<Nested>): seq<Event> {
    if events == [] then []
    else
      var e := events[|events| - 1];
      EventsOf(events[..|events| - 1], worker) + if NestedPayload(e) == worker then [e] else []
  }

  /** The blocks that a worker has open, and whether each calls a tool. */
  function OwnBlocks(events: seq<Event>, worker: Option<Nested>): map<int, bool> {
    OpenBlocks(EventsOf(events, worker))
  }

  /** The block events forwarded for the events of one worker. */
  function ForwardedFor(events: seq<Event>, worker: Option<Nested>): seq<Raw> {
    if events == [] then []
    else
      var init, e := events[..|events| - 1], events[|events| - 1];
      ForwardedFor(init, worker) +
      if NestedPayload(e) == worker then Forwarded(MapEvent(MapAll(NEW_STATE, init).0, e).1) else []
  }

  /** Each worker's own blocks open, receive deltas and close one after the other at each index. */
  ghost predicate EachBracketed(events: seq<Event>) {
    forall worker :: WellBracketed(EventsOf(events, worker))
  }

  lemma EventsSnoc(events: seq<Event>, worker: Option<Nested>)
    requires events != []
    ensures var init, e := events[..|events| - 1], events[|events| - 1];
            && (NestedPayload(e) != worker ==>
                  EventsOf(events, worker) == EventsOf(init, worker) && OwnBlocks(events, worker) == OwnBlocks(init, worker))
            && (NestedPayload(e) == worker ==>
                  var own := EventsOf(events, worker);
                  own != [] && own[|own| - 1] == e && own[..|own| - 1] == EventsOf(init, worker) &&
                  OwnBlocks(events, worker) == OpenAfter(e.body, OwnBlocks(init, worker)))
  {
    hide NestedPayload, OpenAfter;
  }

  lemma EachBracketedInit(events: seq<Event>)
    requires events != [] && EachBracketed(events)
    ensures var init, e := events[..|events| - 1], events[|events| - 1];
            EachBracketed(init) && Fits(e.body, OwnBlocks(init, NestedPayload(e)))
  {
    hide NestedPayload, Fits, OpenBlocks;
    var init, e := events[..|events| - 1], events[|events| - 1];
    forall worker
      ensures WellBracketed(EventsOf(init, worker))
    {
      assert WellBracketed(EventsOf(events, worker));
      EventsSnoc(events, worker);
    }
    assert WellBracketed(EventsOf(events, NestedPayload(e)));
    EventsSnoc(events, NestedPayload(e));
  }

  lemma VisibleSnoc(events: seq<Event>, worker: Option<Nested>)
    requires events != [] && EachBracketed(events)
    ensures var init, e := events[..|events| - 1], events[|events| - 1];
            && EachBracketed(init) && Fits(e.body, OwnBlocks(init, NestedPayload(e)))
            && Visible(EventsOf(events, worker)) ==
               Visible(EventsOf(init, worker)) +
               if NestedPayload(e) == worker then VisibleOf(e.body, OwnBlocks(init, worker)) else []
  {
    hide NestedPayload, Fits, OpenBlocks, VisibleOf;
    EachBracketedInit(events);
    EventsSnoc(events, worker);
  }

  // ---------- When each worker gets exactly its visible blocks ----------

  /** The index a text delta or the end of a block is at. */
  function LaterIndex(body: Body): Option<int> {
    match body
    case Stream(BlockDelta(index, inputJson, _)) => if inputJson then None else index
    case Stream(BlockStop(index)) => index
    case _ => None
  }

  lemma LaterForwarded(s: SseState, body: Body, nested: Option<Nested>, i: int)
    requires LaterIndex(body) == Some(i)
    ensures Forwarded(MapBody(s, body, nested).1) == if i in s.suppressed then [] else [body.raw]
  {
    hide ScopedId, OrTool;
    ForwardedSingleton(body.raw);
  }

  /** At the index of a later event all workers together and its own worker agree about open tool blocks. */
  predicate Agrees(init: seq<Event>, e: Event) {
    LaterIndex(e.body).Some? ==>
      var i := LaterIndex(e.body).value;
      ToolOpen(init, i) <==> i in OpenTools(OwnBlocks(init, NestedPayload(e)))
  }

  predicate AlwaysAgree(events: seq<Event>) {
    events == [] || (AlwaysAgree(events[..|events| - 1]) && Agrees(events[..|events| - 1], events[|events| - 1]))
  }

  /** At every moment each worker has been sent exactly its block events outside its own tool blocks. */
  ghost predicate EachServed(events: seq<Event>) {
    && EachBracketed(events)
    && (forall worker :: ForwardedFor(events, worker) == Visible(EventsOf(events, worker)))
    && (events != [] ==> EachServed(events[..|events| - 1]))
  }

  /** What one event is sent as, compared with what its worker's own blocks ask for. */
  lemma EventServed(init: seq<Event>, e: Event)
    requires Fits(e.body, OwnBlocks(init, NestedPayload(e)))
    ensures Forwarded(MapEvent(MapAll(NEW_STATE, init).0, e).1) == VisibleOf(e.body, OwnBlocks(init, NestedPayload(e)))
            <==> Agrees(init, e)
  {
    hide MapAll, NestedPayload, OpenBlocks, EventsOf, ToolOpen;
    var s, worker := MapAll(NEW_STATE, init).0, NestedPayload(e);
    if LaterIndex(e.body).Some? {
      SuppressedIsLastToolStart(init, LaterIndex(e.body).value);
      LaterForwarded(s, e.body, worker, LaterIndex(e.body).value);
    } else {
      OtherServed(s, e.body, worker, OwnBlocks(init, worker));
    }
  }

  lemma OtherServed(s: SseState, body: Body, nested: Option<Nested>, open: map<int, bool>)
    requires LaterIndex(body).None? && Fits(body, open)
    ensures Forwarded(MapBody(s, body, nested).1) == VisibleOf(body, open)
  {
    hide ScopedId, OrTool;
    match body
    case Stream(BlockStart(index, tool)) =>
      if tool.Some? {
        StartForwardsNothing(s.(suppressed := s.suppressed + {index.value}),
                             ScopedId(tool.value.id, nested), OrTool(tool.value.name), nested);
      } else {
        ForwardedSingleton(body.raw);
      }
    case Stream(BlockDelta(_, _, _)) => NoFramesForwardNothing();
    case _ => OtherBodyForwardsNothing(s, body, nested);
  }

  lemma ServedStep(events: seq<Event>, worker: Option<Nested>)
    requires events != [] && EachBracketed(events)
    ensures var init, e := events[..|events| - 1], events[|events| - 1];
            && EachBracketed(init)
            && (ForwardedFor(init, worker) == Visible(EventsOf(init, worker)) ==>
                  (ForwardedFor(events, worker) == Visible(EventsOf(events, worker)) <==>
                   NestedPayload(e) != worker || Agrees(init, e)))
  {
    hide MapEvent, MapAll, NestedPayload, Visible, VisibleOf, Agrees, Fits, OwnBlocks, EventsOf, EachBracketed, Forwarded;
    var init, e := events[..|events| - 1], events[|events| - 1];
    VisibleSnoc(events, worker);
    EventServed(init, e);
    var before := ForwardedFor(init, worker);
    assert before + [] == before;
    SameTail(before, Forwarded(MapEvent(MapAll(NEW_STATE, init).0, e).1), VisibleOf(e.body, OwnBlocks(init, NestedPayload(e))));
  }

  lemma SameTail(before: seq<Raw>, a: seq<Raw>, b: seq<Raw>)
    ensures before + a == before + b <==> a == b
  {
    assert (before + a)[|before|..] == a && (before + b)[|before|..] == b;
  }

  /**
   The suppressed indexes are shared by all workers. Each worker is sent, at every moment, exactly
   the block events left after deleting its own tool blocks, if and only if at every text delta and
   block end the stream of all workers and that worker's own agree on whether a tool block is open
   at that index.
   */
  lemma {:induction false} EachServedIff(events: seq<Event>)
    requires EachBracketed(events)
    ensures EachServed(events) <==> AlwaysAgree(events)
  {
    hide ForwardedFor, Visible, EventsOf, Agrees;
    if events != [] {
      var init, e := events[..|events| - 1], events[|events| - 1];
      EachBracketedInit(events);
      EachServedIff(init);
      forall worker
        ensures ForwardedFor(init, worker) == Visible(EventsOf(init, worker)) ==>
                  (ForwardedFor(events, worker) == Visible(EventsOf(events, worker)) <==>
                   NestedPayload(e) != worker || Agrees(init, e))
      {
        ServedStep(events, worker);
      }
      assert EachServed(events) ==> ForwardedFor(events, NestedPayload(e)) == Visible(EventsOf(events, NestedPayload(e)));
      assert EachServed(init) ==> ForwardedFor(init, NestedPayload(e)) == Visible(EventsOf(init, NestedPayload(e)));
    } else {
      NothingServed();
    }
  }

  lemma NothingServed()
    ensures EachBracketed([]) && forall worker :: ForwardedFor([], worker) == Visible(EventsOf([], worker))
  {
  }

  // ---------- Workers that keep their indexes apart ----------

  function BlockIndex(body: Body): Option<int> {
    match body
    case Stream(BlockStart(index, _)) => index
    case Stream(BlockDelta(index, _, _)) => index
    case Stream(BlockStop(index)) => index
    case _ => None
  }

  /** No worker touches an index at which another has a block open. */
  ghost predicate KeptApart(events: seq<Event>) {
    events == [] ||
    (var init, e := events[..|events| - 1], events[|events| - 1];
     && KeptApart(init)
     && (BlockIndex(e.body).Some? ==>
           forall worker | worker != NestedPayload(e) :: BlockIndex(e.body).value !in OwnBlocks(init, worker)))
  }

  /** Somebody's tool block is open at an index. */
  ghost predicate ToolOwned(events: seq<Event>, i: int) {
    exists worker :: i in OpenTools(OwnBlocks(events, worker))
  }

  /** Kept apart, the tool blocks open for all are those open for somebody. */
  lemma {:induction false} ToolsAreOwned(events: seq<Event>, i: int)
    requires EachBracketed(events) && KeptApart(events)
    ensures ToolOpen(events, i) <==> ToolOwned(events, i)
  {
    hide NestedPayload, EventsOf, EachBracketed;
    if events != [] {
      var init, e := events[..|events| - 1], events[|events| - 1];
      EachBracketedInit(events);
      ToolsAreOwned(init, i);
      OwnedStep(init, e, events, i);
    } else {
      NothingOwned(i);
    }
  }

  lemma NothingOwned(i: int)
    ensures !ToolOwned([], i)
  {
  }

  lemma OwnedStep(init: seq<Event>, e: Event, events: seq<Event>, i: int)
    requires events == init + [e] && KeptApart(events) && Fits(e.body, OwnBlocks(init, NestedPayload(e)))
    requires ToolOpen(init, i) <==> ToolOwned(init, i)
    ensures ToolOpen(events, i) <==> ToolOwned(events, i)
  {
    hide NestedPayload, EventsOf, OwnBlocks;
    var own := NestedPayload(e);
    assert events[..|events| - 1] == init;
    forall worker
      ensures OwnBlocks(events, worker) ==
              if worker == own then OpenAfter(e.body, OwnBlocks(init, worker)) else OwnBlocks(init, worker)
    {
      EventsSnoc(events, worker);
    }
    assert BlockIndex(e.body) == Some(i) ==> forall worker | worker != own :: i !in OpenTools(OwnBlocks(init, worker));
    if BlockIndex(e.body) != Some(i) {
      OtherIndex(e.body, OwnBlocks(init, own), i);
      assert forall worker :: i in OpenTools(OwnBlocks(events, worker)) <==> i in OpenTools(OwnBlocks(init, worker));
    } else {
      assert ToolOwned(events, i) <==> i in OpenTools(OwnBlocks(events, own));
      assert ToolOwned(init, i) <==> i in OpenTools(OwnBlocks(init, own));
    }
  }

  lemma OtherIndex(body: Body, open: map<int, bool>, i: int)
    requires BlockIndex(body) != Some(i)
    ensures i in OpenTools(OpenAfter(body, open)) <==> i in OpenTools(open)
  {
  }

  lemma {:induction false} ApartAgree(events: seq<Event>)
    requires EachBracketed(events) && KeptApart(events)
    ensures AlwaysAgree(events)
  {
    hide EachBracketed, EventsOf, NestedPayload, ToolOpen;
    if events != [] {
      var init, e := events[..|events| - 1], events[|events| - 1];
      EachBracketedInit(events);
      ApartAgree(init);
      if LaterIndex(e.body).Some? {
        ToolsAreOwned(init, LaterIndex(e.body).value);
        OnlyOwner(init, e, LaterIndex(e.body).value);
      }
    }
  }

  lemma OnlyOwner(init: seq<Event>, e: Event, i: int)
    requires LaterIndex(e.body) == Some(i)
    requires forall worker | worker != NestedPayload(e) :: i !in OwnBlocks(init, worker)
    ensures ToolOwned(init, i) <==> i in OpenTools(OwnBlocks(init, NestedPayload(e)))
  {
    hide OwnBlocks, NestedPayload;
  }

  /** Workers that never share an open index each get exactly the block events visible in their own stream. */
  lemma WorkersApart(events: seq<Event>, worker: Option<Nested>)
    requires EachBracketed(events) && KeptApart(events)
    ensures ForwardedFor(events, worker) == Visible(EventsOf(events, worker))
  {
    hide ForwardedFor, Visible, AlwaysAgree, KeptApart;
    ApartAgree(events);
    EachServedIff(events);
  }

  /** While a nested worker has a tool block open, the parent's text at that index is swallowed. */
  lemma InterleavingSwallowsText(text: string)
    ensures var nested := Some(SubagentField(true, ""));
            var events := [Event(Stream(BlockStart(Some(0), None)), None, None),
                           Event(Stream(BlockStart(Some(0), Some(ToolHead("a", "search")))), nested, None)];
            var delta := Event(Stream(BlockDelta(Some(0), false, text)), None, None);
            Forwarded(MapBody(MapAll(NEW_STATE, events).0, delta.body, None).1) == [] && 0 !in OpenTools(OwnBlocks(events, None))
  {
    hide MapBody, MapAll;
    var parent := Event(Stream(BlockStart(Some(0), None)), None, None);
    var tool := Event(Stream(BlockStart(Some(0), Some(ToolHead("a", "search")))), Some(SubagentField(true, "")), None);
    assert [parent, tool][..1] == [parent];
    assert NestedPayload(parent) == None && NestedPayload(tool) == Some(Composio);
    assert ToolOpen([parent, tool], 0);
    SuppressedIsLastToolStart([parent, tool], 0);
    LaterForwarded(MapAll(NEW_STATE, [parent, tool]).0, Stream(BlockDelta(Some(0), false, text)), None, 0);
  }
}

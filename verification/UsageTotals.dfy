/** What both meters hold after a whole stream: every kind of token, and the tools under their names. */
module UsageTotals {
  import opened PyText
  import opened UsageMeters
  import opened KorakuSse
  import opened KorakuSseTheorems

  // ---------- Tokens ----------

  function Plus(a: Tokens, b: Tokens): Tokens {
    Tokens(a.input + b.input, a.output + b.output, a.cacheCreation + b.cacheCreation, a.cacheRead + b.cacheRead)
  }

  /** The sum of all that providers reported, each kind for itself. */
  function AllReported(events: seq<Event>): Tokens {
    if events == [] then Tokens(0, 0, 0, 0)
    else
      Plus(AllReported(events[..|events| - 1]),
           match events[|events| - 1].body
           case Stream(MessageDelta(t)) => t
           case _ => Tokens(0, 0, 0, 0))
  }

  lemma TokensOfEvent(m: Meter, e: Event)
    requires SoundReport(e.body)
    ensures Ingested(m, e).usage.tokens ==
            Plus(m.usage.tokens, match e.body case Stream(MessageDelta(t)) => t case _ => Tokens(0, 0, 0, 0))
  {
    hide Strip, ToolKey;
  }

  /** On every stream both meters hold the sum of each kind of token reported, cached ones included. */
  lemma {:induction false} TokensAreReported(events: seq<Event>)
    requires SoundReports(events)
    ensures IngestedAll(NEW_METER, events).usage.tokens == AllReported(events)
    ensures MeterAfter(events).usage.tokens == AllReported(events)
  {
    hide Ingested;
    MetersBillTheSameTokens(events);
    if events != [] {
      TokensAreReported(events[..|events| - 1]);
      TokensOfEvent(IngestedAll(NEW_METER, events[..|events| - 1]), events[|events| - 1]);
    }
  }

  // ---------- Tools ----------

  /** A tool is counted under its name up to the first colon, without white space around the name. */
  lemma KeySays(name: string)
    ensures var full, key := (if Strip(name) == "" then "tool" else Strip(name)), ToolKey(name);
            && ':' !in key
            && (full == key || (|key| < |full| && full[..|key|] == key && full[|key|] == ':'))
  {
    hide Strip;
    UpToColon(if Strip(name) == "" then "tool" else Strip(name));
  }

  lemma {:induction false} UpToColon(s: string)
    ensures ':' !in BeforeColon(s) && |BeforeColon(s)| <= |s| && s[..|BeforeColon(s)|] == BeforeColon(s)
    ensures |BeforeColon(s)| < |s| ==> s[|BeforeColon(s)|] == ':'
  {
    if s != "" && s[0] != ':' {
      UpToColon(s[1..]);
      assert s == [s[0]] + s[1..];
    }
  }

  /** How many of some names are counted under a key. */
  function Times(names: seq<string>, key: string): nat {
    if names == [] then 0
    else Times(names[..|names| - 1], key) + if ToolKey(names[|names| - 1]) == key then 1 else 0
  }

  /** The name of the tool an event starts, if its id was not started before. */
  function NewName(start: Option<ToolHead>, before: set<string>): seq<string> {
    if start.Some? && start.value.id != "" && start.value.id !in before then [start.value.name] else []
  }

  /** The names under which ids were first announced, to the tracker and to the mapper. */
  function TrackerNames(events: seq<Event>): seq<string> {
    if events == [] then []
    else
      var init, e := events[..|events| - 1], events[|events| - 1];
      TrackerNames(init) + NewName(TrackerStart(e.body), AnnouncedIds(init))
  }

  function MapperNames(events: seq<Event>): seq<string> {
    if events == [] then []
    else
      var init, e := events[..|events| - 1], events[|events| - 1];
      MapperNames(init) + NewName(MapperStart(e.body, NestedPayload(e)), ScopedIds(init))
  }

  lemma CountsGrow(m: Meter, start: Option<ToolHead>, body: Body, names: seq<string>, key: string)
    requires CountOf(m.usage.toolCounts, key) == Times(names, key)
    ensures CountOf(StartedOr(m, start, body).usage.toolCounts, key) == Times(names + NewName(start, m.started), key)
  {
    hide ToolKey;
    var more := NewName(start, m.started);
    if more == [] {
      assert names + more == names;
    } else {
      assert (names + more)[..|names|] == names;
    }
  }

  /** On every stream each meter counts a tool once per id, under the name it was first announced with. */
  lemma {:induction false} ToolsAreCounted(events: seq<Event>, key: string)
    ensures CountOf(IngestedAll(NEW_METER, events).usage.toolCounts, key) == Times(TrackerNames(events), key)
    ensures CountOf(MeterAfter(events).usage.toolCounts, key) == Times(MapperNames(events), key)
  {
    hide NestedPayload, MapperStart, TrackerStart, StartedOr, MapBody, Ingested, Times, NewName;
    if events != [] {
      var init, e := events[..|events| - 1], events[|events| - 1];
      ToolsAreCounted(init, key);
      StartedAreAnnounced(init);
      var s, m, nested := MapAll(NEW_STATE, init).0, IngestedAll(NEW_METER, init), NestedPayload(e);
      MapperStep(s, e.body, nested);
      TrackerStep(m, e);
      CountsGrow(s.meter, MapperStart(e.body, nested), e.body, MapperNames(init), key);
      CountsGrow(m, TrackerStart(e.body), e.body, TrackerNames(init), key);
    } else {
      NothingCounted(key);
    }
  }

  lemma NothingCounted(key: string)
    ensures Times([], key) == 0
  {
  }
}

/** The events of one agent run, and the accumulator and tracker that meter them. */
module UsageMeters {
  import opened PyText

  // ---------- Events ----------

  /** The `subagent` and `subprocess_context` fields of an event, where they are objects. */
  datatype SubagentField = SubagentField(composio: bool, workhorse: string)

  datatype ContextField = ContextField(
    worker: string, compilationActive: bool, formatTarget: string, integrationActive: bool)

  datatype Nested = Composio | Workhorse(name: string)

  datatype ToolHead = ToolHead(id: string, name: string)

  /** A content block of an assistant message, reduced to whether it calls a tool. */
  datatype Piece = Piece(isToolUse: bool, text: string)

  datatype Tokens = Tokens(input: int, output: int, cacheCreation: int, cacheRead: int)

  datatype Raw =
    | MessageDelta(tokens: Tokens)
    | ToolUsePending(head: ToolHead)
    | BlockStart(index: Option<int>, tool: Option<ToolHead>)
    | BlockDelta(index: Option<int>, inputJson: bool, text: string)
    | BlockStop(index: Option<int>)
    | AssistantMessage(content: Option<seq<Piece>>)
    | OtherRaw(kind: string)

  datatype ResultPiece = ResultPiece(toolUseId: string, isError: bool)

  datatype Body =
    | TraceBody(kind: string)
    | UsageEstimate(input: int, output: int)
    | ToolExecution(head: ToolHead)
    | SubagentPhase
    | Stream(raw: Raw)
    | ToolResults(results: seq<ResultPiece>)
    | Completed
    | Cancelled
    | Failed(error: string)
    | OtherBody

  datatype Event = Event(body: Body, subagent: Option<SubagentField>, context: Option<ContextField>)

  /** `_nested_subagent_payload`. */
  function NestedPayload(e: Event): Option<Nested> {
    if e.subagent.Some? && e.subagent.value.composio then Some(Composio)
    else if e.subagent.Some? && Strip(e.subagent.value.workhorse) != "" then
      Some(Workhorse(Strip(e.subagent.value.workhorse)))
    else if e.context.Some? then
      var c := e.context.value;
      if Strip(c.worker) != "" then Some(Workhorse(Strip(c.worker)))
      else if c.compilationActive then
        Some(Workhorse(if Strip(c.formatTarget) == "" then "artifact" else Strip(c.formatTarget)))
      else if c.integrationActive then Some(Composio)
      else None
    else None
  }

  // ---------- The accumulator ----------

  datatype Usage = Usage(tokens: Tokens, estimatedInput: int, estimatedOutput: int, toolCounts: map<string, nat>)

  const NO_USAGE := Usage(Tokens(0, 0, 0, 0), 0, 0, map[])

  function OrTool(name: string): string {
    if Strip(name) == "" then "tool" else Strip(name)
  }

  /** The part of a tool's name before the first colon. */
  function BeforeColon(s: string): string {
    if s == "" || s[0] == ':' then "" else [s[0]] + BeforeColon(s[1..])
  }

  function ToolKey(name: string): string { BeforeColon(OrTool(name)) }

  function CountOf(counts: map<string, nat>, key: string): nat {
    if key in counts then counts[key] else 0
  }

  function AddTurn(u: Usage, t: Tokens): Usage {
    u.(tokens := Tokens(
      u.tokens.input + t.input, u.tokens.output + t.output,
      u.tokens.cacheCreation + t.cacheCreation, u.tokens.cacheRead + t.cacheRead))
  }

  function AddEstimate(u: Usage, input: int, output: int): Usage {
    if u.tokens.input > 0 || u.tokens.output > 0 then u
    else u.(estimatedInput := u.estimatedInput + (if input > 0 then input else 0),
            estimatedOutput := u.estimatedOutput + (if output > 0 then output else 0))
  }

  function AddTool(u: Usage, name: string): Usage {
    var key := ToolKey(name);
    u.(toolCounts := u.toolCounts[key := CountOf(u.toolCounts, key) + 1])
  }

  function BillingInput(u: Usage): int { if u.tokens.input > 0 then u.tokens.input else u.estimatedInput }

  function BillingOutput(u: Usage): int { if u.tokens.output > 0 then u.tokens.output else u.estimatedOutput }

  class UsageAccumulator {
    var tokens: Tokens
    var estimatedInput: int
    var estimatedOutput: int
    var toolCounts: map<string, nat>

    function View(): Usage
      reads this
    {
      Usage(tokens, estimatedInput, estimatedOutput, toolCounts)
    }

    constructor ()
      ensures View() == NO_USAGE
    {
      tokens, estimatedInput, estimatedOutput, toolCounts := Tokens(0, 0, 0, 0), 0, 0, map[];
    }

    method AddTurnUsage(t: Tokens)
      modifies this
      ensures View() == AddTurn(old(View()), t)
    {
      tokens := Tokens(
        tokens.input + t.input, tokens.output + t.output,
        tokens.cacheCreation + t.cacheCreation, tokens.cacheRead + t.cacheRead);
    }

    method AddEstimatedRound(input: int, output: int)
      modifies this
      ensures View() == AddEstimate(old(View()), input, output)
    {
      if tokens.input > 0 || tokens.output > 0 {
        return;
      }
      estimatedInput := estimatedInput + if input > 0 then input else 0;
      estimatedOutput := estimatedOutput + if output > 0 then output else 0;
    }

    method RecordTool(name: string)
      modifies this
      ensures View() == AddTool(old(View()), name)
    {
      var key := ToolKey(name);
      toolCounts := toolCounts[key := CountOf(toolCounts, key) + 1];
    }
  }

  // ---------- Counting tools ----------

  ghost function SumOver(keys: set<string>, counts: map<string, nat>): nat {
    if keys == {} then 0
    else
      var k :| k in keys;
      CountOf(counts, k) + SumOver(keys - {k}, counts)
  }

  /** The number of tool starts recorded. */
  ghost function TotalTools(counts: map<string, nat>): nat { SumOver(counts.Keys, counts) }

  lemma {:induction false} SumOverRemove(keys: set<string>, counts: map<string, nat>, x: string)
    requires x in keys
    ensures SumOver(keys, counts) == CountOf(counts, x) + SumOver(keys - {x}, counts)
    decreases |keys|
  {
    var k :| k in keys && SumOver(keys, counts) == CountOf(counts, k) + SumOver(keys - {k}, counts);
    if k != x {
      SumOverRemove(keys - {k}, counts, x);
      SumOverRemove(keys - {x}, counts, k);
      assert keys - {k} - {x} == keys - {x} - {k};
    }
  }

  lemma {:induction false} SumOverUpdate(keys: set<string>, counts: map<string, nat>, x: string, n: nat)
    requires x !in keys
    ensures SumOver(keys, counts[x := n]) == SumOver(keys, counts)
    decreases |keys|
  {
    if keys != {} {
      var k :| k in keys;
      SumOverRemove(keys, counts, k);
      SumOverRemove(keys, counts[x := n], k);
      SumOverUpdate(keys - {k}, counts, x, n);
    }
  }

  lemma AddToolCounts(u: Usage, name: string)
    ensures TotalTools(AddTool(u, name).toolCounts) == TotalTools(u.toolCounts) + 1
  {
    var key, counts := ToolKey(name), u.toolCounts;
    var more := AddTool(u, name).toolCounts;
    SumOverRemove(more.Keys, more, key);
    SumOverUpdate(counts.Keys - {key}, counts, key, more[key]);
    assert more.Keys - {key} == counts.Keys - {key};
    if key in counts {
      SumOverRemove(counts.Keys, counts, key);
    } else {
      assert counts.Keys - {key} == counts.Keys;
    }
  }

  // ---------- The tracker ----------

  /** What both meters keep: usage, and the tools that already started. */
  datatype Meter = Meter(usage: Usage, started: set<string>)

  const NEW_METER := Meter(NO_USAGE, {})

  /** A tool starts at most once per id, and never without an id. */
  function StartTool(m: Meter, id: string, name: string): Meter {
    if id == "" || id in m.started then m
    else Meter(AddTool(m.usage, name), m.started + {id})
  }

  predicate HasTokens(t: Tokens) {
    t.input > 0 || t.output > 0 || t.cacheCreation > 0 || t.cacheRead > 0
  }

  function Estimated(m: Meter, input: int, output: int): Meter {
    if (input > 0 || output > 0) && m.usage.tokens.input <= 0 && m.usage.tokens.output <= 0
    then m.(usage := AddEstimate(m.usage, input, output)) else m
  }

  function Ingested(m: Meter, e: Event): Meter {
    match e.body
    case UsageEstimate(input, output) => Estimated(m, input, output)
    case ToolExecution(head) => StartTool(m, Strip(head.id), OrTool(head.name))
    case Stream(MessageDelta(t)) => if HasTokens(t) then m.(usage := AddTurn(m.usage, t)) else m
    case Stream(ToolUsePending(head)) => StartTool(m, Strip(head.id), OrTool(head.name))
    case _ => m
  }

  class RunUsageTracker {
    const usage: UsageAccumulator
    var startedToolUseIds: set<string>

    function View(): Meter
      reads this, usage
    {
      Meter(usage.View(), startedToolUseIds)
    }

    constructor ()
      ensures fresh(usage) && View() == NEW_METER
    {
      usage := new UsageAccumulator();
      startedToolUseIds := {};
    }

    method Ingest(e: Event)
      modifies this, usage
      ensures View() == Ingested(old(View()), e)
    {
      match e.body {
        case UsageEstimate(input, output) =>
          if input > 0 || output > 0 {
            if usage.tokens.input <= 0 && usage.tokens.output <= 0 {
              usage.AddEstimatedRound(input, output);
            }
          }
        case ToolExecution(head) => Start(head);
        case Stream(MessageDelta(t)) =>
          if HasTokens(t) {
            usage.AddTurnUsage(t);
          }
        case Stream(ToolUsePending(head)) => Start(head);
        case _ =>
      }
    }

    method Start(head: ToolHead)
      modifies this, usage
      ensures View() == StartTool(old(View()), Strip(head.id), OrTool(head.name))
    {
      var id := Strip(head.id);
      if id != "" && id !in startedToolUseIds {
        startedToolUseIds := startedToolUseIds + {id};
        usage.RecordTool(OrTool(head.name));
      }
    }
  }

  function IngestedAll(m: Meter, events: seq<Event>): Meter {
    if events == [] then m else Ingested(IngestedAll(m, events[..|events| - 1]), events[|events| - 1])
  }

  /** Each started tool is counted once. */
  ghost predicate CountsStarts(m: Meter) {
    TotalTools(m.usage.toolCounts) == |m.started|
  }

  lemma StartToolCounts(m: Meter, id: string, name: string)
    requires CountsStarts(m)
    ensures CountsStarts(StartTool(m, id, name))
  {
    AddToolCounts(m.usage, name);
  }

  /** At every step of any stream the tracker's tool counts add up to the tools started. */
  lemma {:induction false} TrackerCountsStarts(events: seq<Event>)
    ensures CountsStarts(IngestedAll(NEW_METER, events))
  {
    if events != [] {
      var m, e := IngestedAll(NEW_METER, events[..|events| - 1]), events[|events| - 1];
      TrackerCountsStarts(events[..|events| - 1]);
      match e.body
      case ToolExecution(head) => StartToolCounts(m, Strip(head.id), OrTool(head.name));
      case Stream(ToolUsePending(head)) => StartToolCounts(m, Strip(head.id), OrTool(head.name));
      case _ =>
    }
  }

  // ---------- Reported and estimated tokens ----------

  function ReportOf(body: Body): Tokens {
    match body
    case Stream(MessageDelta(t)) => t
    case _ => Tokens(0, 0, 0, 0)
  }

  /** Providers report no negative counts. */
  predicate SoundReport(body: Body) {
    var t := ReportOf(body);
    t.input >= 0 && t.output >= 0 && t.cacheCreation >= 0 && t.cacheRead >= 0
  }

  function ReportedInput(events: seq<Event>): int {
    if events == [] then 0 else ReportedInput(events[..|events| - 1]) + ReportOf(events[|events| - 1].body).input
  }

  function ReportedOutput(events: seq<Event>): int {
    if events == [] then 0 else ReportedOutput(events[..|events| - 1]) + ReportOf(events[|events| - 1].body).output
  }

  function Positive(n: int): int { if n > 0 then n else 0 }

  function EstimatedInput(events: seq<Event>): int {
    if events == [] then 0
    else
      EstimatedInput(events[..|events| - 1]) +
      match events[|events| - 1].body
      case UsageEstimate(input, _) => Positive(input)
      case _ => 0
  }

  function EstimatedOutput(events: seq<Event>): int {
    if events == [] then 0
    else
      EstimatedOutput(events[..|events| - 1]) +
      match events[|events| - 1].body
      case UsageEstimate(_, output) => Positive(output)
      case _ => 0
  }

  predicate Reported(events: seq<Event>) { ReportedInput(events) > 0 || ReportedOutput(events) > 0 }

  predicate SoundReports(events: seq<Event>) {
    forall k | 0 <= k < |events| :: SoundReport(events[k].body)
  }

  /** What one event does to tokens and estimates. */
  lemma IngestTokens(m: Meter, e: Event)
    requires SoundReport(e.body)
    ensures var t, r := Ingested(m, e), ReportOf(e.body);
            && t.usage.tokens.input == m.usage.tokens.input + r.input
            && t.usage.tokens.output == m.usage.tokens.output + r.output
            && (m.usage.tokens.input > 0 || m.usage.tokens.output > 0 || !e.body.UsageEstimate? ==>
                  t.usage.estimatedInput == m.usage.estimatedInput && t.usage.estimatedOutput == m.usage.estimatedOutput)
            && (m.usage.tokens.input <= 0 && m.usage.tokens.output <= 0 && e.body.UsageEstimate? ==>
                  && t.usage.estimatedInput == m.usage.estimatedInput + Positive(e.body.input)
                  && t.usage.estimatedOutput == m.usage.estimatedOutput + Positive(e.body.output))
  {
    hide Strip, ToolKey;
  }

  /**
   Tokens are the sum of what providers reported. Estimates add up only until the first report,
   at position `n`, and never change again.
   */
  lemma {:induction false} EstimatesStopAtFirstReport(events: seq<Event>) returns (n: nat)
    requires SoundReports(events)
    ensures n <= |events| && !Reported(events[..n]) && (n < |events| ==> Reported(events[..n + 1]) && Reported(events))
    ensures var u := IngestedAll(NEW_METER, events).usage;
            && u.tokens.input == ReportedInput(events) && u.tokens.output == ReportedOutput(events)
            && u.estimatedInput == EstimatedInput(events[..n]) && u.estimatedOutput == EstimatedOutput(events[..n])
    ensures ReportedInput(events) >= 0 && ReportedOutput(events) >= 0
  {
    hide Ingested, ReportOf;
    n := 0;
    if events != [] {
      var init, e := events[..|events| - 1], events[|events| - 1];
      n := EstimatesStopAtFirstReport(init);
      assert SoundReport(e.body) && init[..n] == events[..n];
      IngestTokens(IngestedAll(NEW_METER, init), e);
      if n == |init| {
        assert events[..n] == init && events[..n + 1] == events;
        NoReport(e.body);
        if !Reported(events) {
          n := |events|;
        }
      } else {
        assert init[..n + 1] == events[..n + 1];
      }
    }
  }

  lemma NoReport(body: Body)
    ensures body.UsageEstimate? ==> ReportOf(body) == Tokens(0, 0, 0, 0)
  {
  }

  /** Each kind of token is billed as reported, or as estimated before the first report: never both. */
  lemma BilledOnce(events: seq<Event>) returns (n: nat)
    requires SoundReports(events)
    ensures n <= |events| && !Reported(events[..n]) && (n < |events| ==> Reported(events[..n + 1]) && Reported(events))
    ensures var u := IngestedAll(NEW_METER, events).usage;
            && BillingInput(u) == (if ReportedInput(events) > 0 then ReportedInput(events) else EstimatedInput(events[..n]))
            && BillingOutput(u) == (if ReportedOutput(events) > 0 then ReportedOutput(events) else EstimatedOutput(events[..n]))
  {
    hide Ingested;
    n := EstimatesStopAtFirstReport(events);
  }
}

/** Context limits derived from a model's window, and what they mean for compaction. */
module ModelProfiles {
  import opened Messages
  import opened ContextPasses
  import opened ContextManagement

  datatype Field =
    | MaxOutputTokens
    | MaxToolResultChars
    | ContextMaxMessages
    | ContextSummarizeAfter
    | BashOutputMaxChars
    | WebFetchMaxChars

  const FIELDS: seq<Field> := [
    MaxOutputTokens, MaxToolResultChars, ContextMaxMessages,
    ContextSummarizeAfter, BashOutputMaxChars, WebFetchMaxChars]

  function Min(a: int, b: int): int { if a < b then a else b }

  function Max(a: int, b: int): int { if a > b then a else b }

  /** `_derive_from_context`; the one fractional factor is taken over the reals. */
  function Derived(contextTokens: int, defaults: Field -> int, f: Field): int {
    var ctx := Max(1, contextTokens);
    match f
    case MaxOutputTokens => Min(defaults(f), Max(4096, ctx / 2))
    case MaxToolResultChars => Min(defaults(f), Max(8000, (ctx as real * 0.49).Floor))
    case ContextMaxMessages => Max(28, Min(80, ctx / 4500))
    case ContextSummarizeAfter => Max(14, Min(40, ctx / 9000))
    case BashOutputMaxChars => Min(defaults(f), Max(4000, ctx / 8))
    case WebFetchMaxChars => Min(defaults(f), Max(8000, ctx / 8))
  }

  /** Whatever the context size, the window holds at least two summary thresholds. */
  lemma DerivedWindowHoldsTwoSummaries(contextTokens: int, defaults: Field -> int)
    ensures var max, after := Derived(contextTokens, defaults, ContextMaxMessages),
                              Derived(contextTokens, defaults, ContextSummarizeAfter);
            2 * after <= max <= 80 && 14 <= after && 28 <= max
  {
    var ctx := Max(1, contextTokens);
    assert 2 * (ctx / 9000) <= ctx / 4500;
  }

  /** An explicit setting wins over the model's profile, which wins over the derived value. */
  method ResolveLimits(
      overrides: map<Field, int>, profile: map<Field, int>, contextTokens: int, defaults: Field -> int)
    returns (resolved: map<Field, int>)
    ensures forall f: Field :: f in resolved
    ensures forall f: Field :: resolved[f] ==
              if f in overrides then overrides[f]
              else if f in profile then profile[f]
              else Derived(contextTokens, defaults, f)
  {
    resolved := map[];
    for i := 0 to |FIELDS|
      invariant forall j | 0 <= j < i :: FIELDS[j] in resolved
      invariant forall f: Field | f in resolved ::
          resolved[f] ==
          if f in overrides then overrides[f]
          else if f in profile then profile[f]
          else Derived(contextTokens, defaults, f)
    {
      var key := FIELDS[i];
      if key in overrides {
        resolved := resolved[key := overrides[key]];
        continue;
      }
      if key in profile {
        resolved := resolved[key := profile[key]];
        continue;
      }
      resolved := resolved[key := Derived(contextTokens, defaults, key)];
    }
    forall f: Field
      ensures f in resolved
    {
      var i := match f
        case MaxOutputTokens => 0
        case MaxToolResultChars => 1
        case ContextMaxMessages => 2
        case ContextSummarizeAfter => 3
        case BashOutputMaxChars => 4
        case WebFetchMaxChars => 5;
      assert FIELDS[i] == f;
    }
  }

  /** Limits that leave the two context fields to be derived. */
  predicate LeavesContextDerived(overrides: map<Field, int>, profile: map<Field, int>) {
    && ContextMaxMessages !in overrides && ContextMaxMessages !in profile
    && ContextSummarizeAfter !in overrides && ContextSummarizeAfter !in profile
  }

  method ConfigureContextManager(
      cm: ContextManager,
      overrides: map<Field, int>, profile: map<Field, int>, contextTokens: int, defaults: Field -> int)
    returns (resolved: map<Field, int>)
    modifies cm
    ensures forall f: Field :: f in resolved
    ensures cm.CurrentLimits() == old(cm.CurrentLimits()).(
              maxMessages := resolved[ContextMaxMessages],
              summarizeAfter := resolved[ContextSummarizeAfter],
              maxToolResultChars := resolved[MaxToolResultChars])
    ensures LeavesContextDerived(overrides, profile) ==>
              && 2 * cm.summarizeAfter <= cm.maxMessages
              && 14 <= cm.summarizeAfter && 28 <= cm.maxMessages
  {
    resolved := ResolveLimits(overrides, profile, contextTokens, defaults);
    DerivedWindowHoldsTwoSummaries(contextTokens, defaults);
    cm.maxMessages := resolved[ContextMaxMessages];
    cm.summarizeAfter := resolved[ContextSummarizeAfter];
    cm.maxToolResultChars := resolved[MaxToolResultChars];
  }

  /**
   Under derived limits the sliding window never cuts a well-paired history: processing
   ends with the summarised history, within the derived bound, for every context size.
   */
  lemma DerivedLimitsNeedNoWindow(
      ms: seq<Message>, pins: set<string>, l: Limits, summarize: seq<Message> -> string,
      contextTokens: int, defaults: Field -> int)
    requires UserOpens(ms)
    requires l.maxMessages == Derived(contextTokens, defaults, ContextMaxMessages)
    requires l.summarizeAfter == Derived(contextTokens, defaults, ContextSummarizeAfter)
    ensures var r := Processed(ms, pins, l, summarize);
            && r.Done? && UserOpens(r.value)
            && r == Summarized(Trimmed(ms, pins, l), l.summarizeAfter, summarize)
            && |r.value| <= Max(l.summarizeAfter, 11) <= l.maxMessages
  {
    DerivedWindowHoldsTwoSummaries(contextTokens, defaults);
    ProcessedPaired(ms, pins, l, summarize);
    WindowIsIdle(ms, pins, l, summarize);
    TrimmedPaired(ms, pins, l);
    SummarizedPaired(Trimmed(ms, pins, l), l.summarizeAfter, summarize);
  }
}

/**
 What each pass of the context manager computes, as functions of the history, and
 what the passes promise: tool-call pairing survives every one of them.
 */
module ContextPasses {
  import opened PyText
  import opened Messages

  /** A Python call that returns a value or raises `IndexError`. */
  datatype Outcome<+T> = Done(value: T) | IndexError {
    predicate IsFailure() { IndexError? }
    function PropagateFailure<U>(): Outcome<U>
      requires IndexError?
    {
      IndexError
    }
    function Extract(): T
      requires Done?
    {
      value
    }
  }

  // ---------- Shapes of messages ----------

  predicate IsBlank(s: string) { Strip(s) == "" }

  /** An assistant turn of tool calls and nothing the user would see. */
  predicate ToolUseOnly(m: Message) {
    && m.role.Assistant?
    && m.content.Blocks?
    && (forall b | b in m.content.blocks ::
          b.ToolUse? || b.Thinking? || (b.Text? && IsBlank(b.text)))
    && Uses(m) != []
  }

  predicate VisibleText(m: Message) {
    m.role.Assistant? &&
    match m.content
    case Plain(text) => !IsBlank(text)
    case Blocks(bs) => exists b :: b in bs && b.Text? && !IsBlank(b.text)
  }

  /** The stripped, non-empty ids of the calls an assistant message makes. */
  function UseIdSet(m: Message): set<string> {
    StrippedIds(Uses(m))
  }

  function StrippedIds(ids: seq<string>): set<string> {
    set id | id in ids && Strip(id) != "" :: Strip(id)
  }

  lemma StrippedIdsSnoc(ids: seq<string>, last: string)
    ensures StrippedIds(ids + [last]) ==
            StrippedIds(ids) + if Strip(last) == "" then {} else {Strip(last)}
  {
    var more := ids + [last];
    forall id | id in ids
      ensures id in more
    {
    }
    assert last in more;
  }

  /** The presence of a block that calls a tool. */
  predicate HasToolUse(m: Message) {
    m.role.Assistant? && exists b :: b in BlocksOf(m) && b.ToolUse?
  }

  lemma {:induction false} UseIdsNonEmpty(bs: seq<Block>)
    ensures UseIds(bs) != [] <==> exists b :: b in bs && b.ToolUse?
  {
    if bs != [] {
      var n := |bs| - 1;
      UseIdsNonEmpty(bs[..n]);
      assert bs == bs[..n] + [bs[n]];
    }
  }

  lemma HasToolUseIsUses(m: Message)
    ensures HasToolUse(m) <==> Uses(m) != []
  {
    UseIdsNonEmpty(BlocksOf(m));
  }

  // ---------- Dropping thinking blocks ----------

  function WithoutThinking(bs: seq<Block>): seq<Block> {
    if bs == [] then []
    else
      var b := bs[|bs| - 1];
      WithoutThinking(bs[..|bs| - 1]) + if b.Thinking? then [] else [b]
  }

  function CleanMessage(m: Message): Message {
    if m.content.Plain? then m else m.(content := Blocks(WithoutThinking(m.content.blocks)))
  }

  function ThinkingDropped(ms: seq<Message>): seq<Message> {
    seq(|ms|, i requires 0 <= i < |ms| => CleanMessage(ms[i]))
  }

  lemma {:induction false} WithoutThinkingKeepsIds(bs: seq<Block>)
    ensures UseIds(WithoutThinking(bs)) == UseIds(bs)
    ensures ResultIds(WithoutThinking(bs)) == ResultIds(bs)
  {
    if bs != [] {
      var n := |bs| - 1;
      WithoutThinkingKeepsIds(bs[..n]);
      var w := WithoutThinking(bs);
      if bs[n].Thinking? {
        assert w == WithoutThinking(bs[..n]);
      } else {
        assert w[..|w| - 1] == WithoutThinking(bs[..n]);
      }
    }
  }

  lemma {:induction false} WithoutThinkingOfOthers(bs: seq<Block>)
    requires forall b | b in bs :: b.ToolResult?
    ensures WithoutThinking(bs) == bs
  {
    if bs != [] {
      WithoutThinkingOfOthers(bs[..|bs| - 1]);
      assert bs[|bs| - 1] in bs;
    }
  }

  lemma ThinkingDroppedPaired(ms: seq<Message>)
    requires WellPaired(ms)
    ensures WellPaired(ThinkingDropped(ms))
  {
    forall k: nat | k < |ms|
      ensures Uses(ms[k]) == Uses(CleanMessage(ms[k]))
      ensures Results(ms[k]) == Results(CleanMessage(ms[k]))
      ensures ResultsOnly(ms[k]) ==> ResultsOnly(CleanMessage(ms[k]))
    {
      WithoutThinkingKeepsIds(BlocksOf(ms[k]));
      if ResultsOnly(ms[k]) {
        WithoutThinkingOfOthers(BlocksOf(ms[k]));
      }
    }
    PairedTransfer(ms, ThinkingDropped(ms));
  }

  // ---------- Dropping completed tool rounds ----------

  /** Position `k` opens a finished tool round that no pin protects. */
  predicate RoundStart(ms: seq<Message>, pins: set<string>, k: int) {
    && 0 <= k && k + 2 < |ms|
    && ToolUseOnly(ms[k])
    && ResultsOnly(ms[k + 1])
    && VisibleText(ms[k + 2])
    && UseIdSet(ms[k]) * pins == {}
  }

  predicate Dropped(ms: seq<Message>, pins: set<string>, k: int) {
    RoundStart(ms, pins, k) || RoundStart(ms, pins, k - 1)
  }

  function DropMask(ms: seq<Message>, pins: set<string>): seq<bool> {
    seq(|ms|, k requires 0 <= k < |ms| => Dropped(ms, pins, k))
  }

  /** The messages before position `n` that `drop` does not mark. */
  function Kept(ms: seq<Message>, drop: seq<bool>, n: nat): seq<Message>
    requires n <= |ms| == |drop|
  {
    if n == 0 then []
    else Kept(ms, drop, n - 1) + if drop[n - 1] then [] else [ms[n - 1]]
  }

  function RoundsDropped(ms: seq<Message>, pins: set<string>): seq<Message> {
    Kept(ms, DropMask(ms, pins), |ms|)
  }

  lemma VisibleIsNotToolUseOnly(m: Message)
    ensures !(VisibleText(m) && ToolUseOnly(m))
  {
  }

  /** Dropped rounds never overlap, and the answer after a dropped round is kept. */
  lemma DroppedRoundsAreSeparate(ms: seq<Message>, pins: set<string>, k: nat)
    requires RoundStart(ms, pins, k)
    ensures !RoundStart(ms, pins, k - 1) && !RoundStart(ms, pins, k + 1) && !RoundStart(ms, pins, k + 2)
    ensures Dropped(ms, pins, k) && Dropped(ms, pins, k + 1) && !Dropped(ms, pins, k + 2)
  {
    VisibleIsNotToolUseOnly(ms[k + 2]);
  }

  /** A tool round goes or stays as a whole, and only rounds go. */
  lemma RoundsGoTogether(ms: seq<Message>, pins: set<string>, k: nat)
    requires WellPaired(ms) && k < |ms|
    ensures ResultsOnly(ms[k]) ==> k > 0 && (Dropped(ms, pins, k - 1) <==> Dropped(ms, pins, k))
    ensures Inert(ms[k]) ==> !Dropped(ms, pins, k)
  {
    if ResultsOnly(ms[k]) {
      ResultsStandAlone(ms, k);
    } else if RoundStart(ms, pins, k - 1) {
      assert false;
    }
  }

  /** A mask that marks tool rounds as a whole, and nothing but tool rounds. */
  ghost predicate MarksRounds(ms: seq<Message>, drop: seq<bool>) {
    && |drop| == |ms|
    && forall k: nat | k < |ms| ::
         && (ResultsOnly(ms[k]) ==> k > 0 && drop[k - 1] == drop[k])
         && (Inert(ms[k]) ==> !drop[k])
  }

  /** One turn of the loop that drops rounds: a round is skipped whole, anything else is kept. */
  lemma DropTurn(ms: seq<Message>, pins: set<string>, i: nat)
    requires i < |ms| && !RoundStart(ms, pins, i - 1)
    ensures var drop := DropMask(ms, pins);
            if RoundStart(ms, pins, i) then
              i + 2 <= |ms| && Kept(ms, drop, i + 2) == Kept(ms, drop, i) && !RoundStart(ms, pins, i + 1)
            else Kept(ms, drop, i + 1) == Kept(ms, drop, i) + [ms[i]]
  {
    hide ToolUseOnly, ResultsOnly, VisibleText, UseIdSet;
    var drop := DropMask(ms, pins);
    if RoundStart(ms, pins, i) {
      DroppedRoundsAreSeparate(ms, pins, i);
      assert drop[i] && drop[i + 1];
      assert Kept(ms, drop, i + 1) == Kept(ms, drop, i);
    }
  }

  lemma {:induction false} KeptPaired(ms: seq<Message>, drop: seq<bool>, n: nat)
    requires WellPaired(ms) && MarksRounds(ms, drop) && n <= |ms|
    requires n < |ms| ==> !ResultsOnly(ms[n])
    ensures WellPaired(Kept(ms, drop, n))
  {
    hide ResultsOnly, Uses, Results, PairedAt;
    if n == 0 {
      NothingIsPaired();
    } else if ResultsOnly(ms[n - 1]) {
      CallsBeforeResults(ms, n - 1);
      KeptPaired(ms, drop, n - 2);
      KeepRound(ms, drop, n - 2);
    } else {
      QuietOrLast(ms, n);
      KeptPaired(ms, drop, n - 1);
      assert !drop[n - 1];
      PairedSnoc(Kept(ms, drop, n - 1), ms[n - 1]);
    }
  }

  lemma NothingIsPaired()
    ensures WellPaired([])
  {
  }

  /** A message that is neither results nor followed by results calls nothing. */
  lemma QuietOrLast(ms: seq<Message>, n: nat)
    requires WellPaired(ms) && 0 < n <= |ms| && !ResultsOnly(ms[n - 1])
    requires n < |ms| ==> !ResultsOnly(ms[n])
    ensures Inert(ms[n - 1])
  {
    hide ResultsOnly;
    assert PairedAt(ms, n - 1);
  }

  /** The two messages of a round, kept or dropped together, leave the kept part well paired. */
  lemma KeepRound(ms: seq<Message>, drop: seq<bool>, k: nat)
    requires k + 2 <= |ms| == |drop| && WellPaired(Kept(ms, drop, k))
    requires ResultsOnly(ms[k + 1]) && Results(ms[k + 1]) == Uses(ms[k])
    requires drop[k] == drop[k + 1]
    ensures WellPaired(Kept(ms, drop, k + 2))
  {
    var kept := Kept(ms, drop, k);
    if drop[k] {
      assert Kept(ms, drop, k + 1) == kept;
      assert Kept(ms, drop, k + 2) == kept;
    } else {
      PairedRound(kept, ms[k], ms[k + 1]);
      assert Kept(ms, drop, k + 1) == kept + [ms[k]];
      assert kept + [ms[k]] + [ms[k + 1]] == kept + [ms[k], ms[k + 1]];
    }
  }

  lemma {:induction false} KeptHead(ms: seq<Message>, drop: seq<bool>, n: nat)
    requires 0 < n <= |ms| == |drop| && !drop[0]
    ensures Kept(ms, drop, n) != [] && Kept(ms, drop, n)[0] == ms[0]
  {
    if n == 1 {
      assert Kept(ms, drop, 0) == [];
    } else {
      KeptHead(ms, drop, n - 1);
    }
  }

  lemma MaskMarksRounds(ms: seq<Message>, pins: set<string>)
    requires WellPaired(ms)
    ensures MarksRounds(ms, DropMask(ms, pins))
  {
    hide Dropped, ResultsOnly, Inert, WellPaired;
    var drop := DropMask(ms, pins);
    forall k: nat | k < |ms|
      ensures ResultsOnly(ms[k]) ==> k > 0 && drop[k - 1] == drop[k]
      ensures Inert(ms[k]) ==> !drop[k]
    {
      RoundsGoTogether(ms, pins, k);
    }
  }

  lemma HeadIsKept(ms: seq<Message>, pins: set<string>)
    requires UserOpens(ms)
    ensures ms != [] && !Dropped(ms, pins, 0)
  {
    hide ResultsOnly, VisibleText, UseIdSet;
  }

  lemma RoundsDroppedPaired(ms: seq<Message>, pins: set<string>)
    requires UserOpens(ms)
    ensures UserOpens(RoundsDropped(ms, pins))
  {
    hide Dropped, MarksRounds, Kept, WellPaired;
    var drop := DropMask(ms, pins);
    MaskMarksRounds(ms, pins);
    HeadIsKept(ms, pins);
    KeptPaired(ms, drop, |ms|);
    KeptHead(ms, drop, |ms|);
  }

  // ---------- Truncating tool results ----------

  /** `s[:cap]`, with Python's reading of a negative bound. */
  function SliceTo(s: string, cap: int): string {
    if cap >= |s| then s
    else if cap >= 0 then s[..cap]
    else if |s| + cap >= 0 then s[..|s| + cap]
    else ""
  }

  function TruncationNote(cap: int): string {
    "\n...[truncated: tool result exceeded " + SignedDec(cap) + " chars for LLM context]"
  }

  function CapFor(id: string, pins: set<string>, plainCap: int, pinCap: int): int {
    if Strip(id) in pins then pinCap else plainCap
  }

  function TruncateBlock(b: Block, pins: set<string>, plainCap: int, pinCap: int): Block {
    if !b.ToolResult? || !b.body.Str? then b
    else
      var cap := CapFor(b.toolUseId, pins, plainCap, pinCap);
      if |b.body.s| > cap then b.(body := Str(SliceTo(b.body.s, cap) + TruncationNote(cap))) else b
  }

  function TruncateBlocks(bs: seq<Block>, pins: set<string>, plainCap: int, pinCap: int): seq<Block> {
    seq(|bs|, i requires 0 <= i < |bs| => TruncateBlock(bs[i], pins, plainCap, pinCap))
  }

  function TruncateMessage(m: Message, pins: set<string>, plainCap: int, pinCap: int): Message {
    if m.content.Plain? then m
    else m.(content := Blocks(TruncateBlocks(m.content.blocks, pins, plainCap, pinCap)))
  }

  function ResultsTruncated(ms: seq<Message>, pins: set<string>, plainCap: int, pinCap: int): seq<Message> {
    seq(|ms|, i requires 0 <= i < |ms| => TruncateMessage(ms[i], pins, plainCap, pinCap))
  }

  lemma {:induction false} TruncateBlocksKeeps(bs: seq<Block>, pins: set<string>, plainCap: int, pinCap: int)
    ensures UseIds(TruncateBlocks(bs, pins, plainCap, pinCap)) == UseIds(bs)
    ensures ResultIds(TruncateBlocks(bs, pins, plainCap, pinCap)) == ResultIds(bs)
  {
    if bs != [] {
      var n := |bs| - 1;
      TruncateBlocksKeeps(bs[..n], pins, plainCap, pinCap);
      var t := TruncateBlocks(bs, pins, plainCap, pinCap);
      assert t[..n] == TruncateBlocks(bs[..n], pins, plainCap, pinCap);
    }
  }

  lemma ResultsTruncatedPaired(ms: seq<Message>, pins: set<string>, plainCap: int, pinCap: int)
    requires WellPaired(ms)
    ensures WellPaired(ResultsTruncated(ms, pins, plainCap, pinCap))
  {
    forall k: nat | k < |ms|
      ensures Uses(ms[k]) == Uses(TruncateMessage(ms[k], pins, plainCap, pinCap))
      ensures Results(ms[k]) == Results(TruncateMessage(ms[k], pins, plainCap, pinCap))
      ensures ResultsOnly(ms[k]) ==> ResultsOnly(TruncateMessage(ms[k], pins, plainCap, pinCap))
    {
      TruncateMessageKeeps(ms[k], pins, plainCap, pinCap);
    }
    PairedTransfer(ms, ResultsTruncated(ms, pins, plainCap, pinCap));
  }

  lemma TruncateMessageKeeps(m: Message, pins: set<string>, plainCap: int, pinCap: int)
    ensures Uses(TruncateMessage(m, pins, plainCap, pinCap)) == Uses(m)
    ensures Results(TruncateMessage(m, pins, plainCap, pinCap)) == Results(m)
    ensures ResultsOnly(m) ==> ResultsOnly(TruncateMessage(m, pins, plainCap, pinCap))
  {
    var bs := BlocksOf(m);
    var ts := TruncateBlocks(bs, pins, plainCap, pinCap);
    TruncateBlocksKeeps(bs, pins, plainCap, pinCap);
    if ResultsOnly(m) {
      forall b | b in ts
        ensures b.ToolResult?
      {
        var i :| 0 <= i < |ts| && ts[i] == b;
        assert bs[i] in bs;
      }
    }
  }

  // ---------- Cutting history at a round boundary ----------

  /** The last position at or before `start` that is not a message of tool results, or 0. */
  function BackToBoundary(ms: seq<Message>, start: nat): (r: nat)
    requires start == 0 || start < |ms|
    ensures r <= start
    ensures r == 0 || !ResultsOnly(ms[r])
    ensures forall k | r < k <= start :: ResultsOnly(ms[k])
  {
    if start > 0 && ResultsOnly(ms[start]) then BackToBoundary(ms, start - 1) else start
  }

  /** `_adjust_start_for_tool_pairs`: reads `ms[|ms|]`, an `IndexError`, when clamped to the end. */
  function AdjustedStart(ms: seq<Message>, start: int): Outcome<nat> {
    var low := if start < |ms| then start else |ms|;
    var s := if low < 0 then 0 else low;
    if s == 0 then Done(0)
    else if s == |ms| then IndexError
    else Done(BackToBoundary(ms, s))
  }

  /** In a well-paired history the cut moves back by at most one message. */
  lemma BackByAtMostOne(ms: seq<Message>, start: nat)
    requires WellPaired(ms) && start < |ms|
    ensures start - 1 <= BackToBoundary(ms, start)
    ensures start > 0 && !ResultsOnly(ms[start]) ==> BackToBoundary(ms, start) == start
  {
    if start > 0 && ResultsOnly(ms[start]) {
      ResultsStandAlone(ms, start);
    }
  }

  // ---------- Summarising and windowing ----------

  const KEEP_RECENT := 8

  function SummaryMessage(summarize: seq<Message> -> string, earlier: seq<Message>): Message {
    Message(User, Plain(summarize(earlier)))
  }

  function Summarized(ms: seq<Message>, after: int, summarize: seq<Message> -> string): Outcome<seq<Message>> {
    if |ms| <= after then Done(ms)
    else
      var start :- AdjustedStart(ms, if |ms| - KEEP_RECENT > 1 then |ms| - KEEP_RECENT else 1);
      if start <= 1 then Done(ms)
      else Done([ms[0], SummaryMessage(summarize, ms[1..start])] + ms[start..])
  }

  function Windowed(ms: seq<Message>, max: int): Outcome<seq<Message>> {
    if |ms| <= max then Done(ms)
    else
      var start :- AdjustedStart(ms, |ms| - (max - 1));
      if ms == [] then IndexError else Done([ms[0]] + ms[start..])
  }

  /** `_summarize_if_needed` raises only on one message with `summarize_after` below one. */
  lemma SummarizedRaises(ms: seq<Message>, after: int, summarize: seq<Message> -> string)
    ensures Summarized(ms, after, summarize).IndexError? <==> |ms| == 1 && after <= 0
  {
  }

  /** `_apply_sliding_window` raises exactly when it has to cut to fewer than two messages. */
  lemma WindowedRaises(ms: seq<Message>, max: int)
    ensures Windowed(ms, max).IndexError? <==> |ms| > max && max <= 1
  {
  }

  /** First message, one summary, and the recent tail: paired again and never longer. */
  lemma SummarizedPaired(ms: seq<Message>, after: int, summarize: seq<Message> -> string)
    requires UserOpens(ms) && after >= 1
    ensures var r := Summarized(ms, after, summarize);
            r.Done? && UserOpens(r.value) && |r.value| <= |ms|
    ensures |Summarized(ms, after, summarize).value| <= if after >= 11 then after else 11
    ensures var r := Summarized(ms, after, summarize).value;
            r[0] == ms[0] && r[|r| - 1] == ms[|ms| - 1]
  {
    if |ms| > after {
      var from := if |ms| - KEEP_RECENT > 1 then |ms| - KEEP_RECENT else 1;
      var start := BackToBoundary(ms, from);
      BackByAtMostOne(ms, from);
      if start > 1 {
        HeadIsInert(ms);
        var summary := SummaryMessage(summarize, ms[1..start]);
        PairedSingleton(ms[0]);
        PairedSnoc([ms[0]], summary);
        assert [ms[0]] + [summary] == [ms[0], summary];
        PairedSuffix(ms, start);
        PairedConcat([ms[0], summary], ms[start..]);
      }
    }
  }

  lemma HeadIsInert(ms: seq<Message>)
    requires UserOpens(ms)
    ensures Inert(ms[0]) && !ResultsOnly(ms[0])
  {
    assert PairedAt(ms, 0);
    if ResultsOnly(ms[0]) {
      ResultIdsNonEmpty(ms[0]);
    }
  }

  /** The window exceeds its bound by at most one message, and never repeats the first one. */
  lemma WindowedPaired(ms: seq<Message>, max: int)
    requires UserOpens(ms) && max >= 2
    ensures var r := Windowed(ms, max);
            r.Done? && UserOpens(r.value) && |r.value| <= |ms| && |r.value| <= max + 1
    ensures var r := Windowed(ms, max).value;
            r[0] == ms[0] && r[|r| - 1] == ms[|ms| - 1]
  {
    hide PairedAt, ResultsOnly, Results;
    if |ms| > max {
      var from := |ms| - (max - 1);
      var start := BackToBoundary(ms, from);
      BackByAtMostOne(ms, from);
      HeadIsInert(ms);
      PairedSingleton(ms[0]);
      PairedSuffix(ms, start);
      PairedConcat([ms[0]], ms[start..]);
    }
  }

  // ---------- Dropping orphaned results ----------

  /** A results-only message may stay after `prev`. */
  predicate MayFollow(prev: seq<Message>) {
    prev != [] && HasToolUse(prev[|prev| - 1])
  }

  function OrphansDropped(ms: seq<Message>): seq<Message> {
    if ms == [] then []
    else
      var before := OrphansDropped(ms[..|ms| - 1]);
      var m := ms[|ms| - 1];
      if ResultsOnly(m) && !MayFollow(before) then before else before + [m]
  }

  /** Every results-only message directly follows an assistant message that calls tools. */
  ghost predicate NoOrphans(ms: seq<Message>) {
    forall k | 0 <= k < |ms| && ResultsOnly(ms[k]) :: MayFollow(ms[..k])
  }

  lemma NoOrphansSnoc(ms: seq<Message>, m: Message)
    requires NoOrphans(ms)
    requires ResultsOnly(m) ==> MayFollow(ms)
    ensures NoOrphans(ms + [m])
  {
    var s := ms + [m];
    forall k | 0 <= k < |s| && ResultsOnly(s[k])
      ensures MayFollow(s[..k])
    {
      assert s[..k] == ms[..k];
      assert k == |ms| ==> ms[..k] == ms;
    }
  }

  /** Whatever the input, no orphaned results are left. */
  lemma {:induction false} OrphansDroppedLeavesNone(ms: seq<Message>)
    ensures NoOrphans(OrphansDropped(ms))
  {
    if ms != [] {
      var before := OrphansDropped(ms[..|ms| - 1]);
      OrphansDroppedLeavesNone(ms[..|ms| - 1]);
      if OrphansDropped(ms) != before {
        NoOrphansSnoc(before, ms[|ms| - 1]);
      }
    }
  }

  lemma {:induction false} OrphansDroppedIdentity(ms: seq<Message>)
    requires NoOrphans(ms)
    ensures OrphansDropped(ms) == ms
  {
    if ms != [] {
      var before := ms[..|ms| - 1];
      forall k | 0 <= k < |before| && ResultsOnly(before[k])
        ensures MayFollow(before[..k])
      {
        assert before[..k] == ms[..k];
      }
      OrphansDroppedIdentity(before);
    }
  }

  /** The pass is idempotent, and the identity exactly on histories without orphans. */
  lemma OrphansDroppedIdempotent(ms: seq<Message>)
    ensures OrphansDropped(OrphansDropped(ms)) == OrphansDropped(ms)
    ensures OrphansDropped(ms) == ms <==> NoOrphans(ms)
  {
    OrphansDroppedLeavesNone(ms);
    OrphansDroppedIdentity(OrphansDropped(ms));
    if NoOrphans(ms) {
      OrphansDroppedIdentity(ms);
    }
  }

  lemma PairedHasNoOrphans(ms: seq<Message>)
    requires WellPaired(ms)
    ensures NoOrphans(ms) && OrphansDropped(ms) == ms
  {
    forall k | 0 <= k < |ms| && ResultsOnly(ms[k])
      ensures MayFollow(ms[..k])
    {
      ResultsStandAlone(ms, k);
      ResultIdsNonEmpty(ms[k]);
      HasToolUseIsUses(ms[k - 1]);
    }
    OrphansDroppedIdentity(ms);
  }

  // ---------- The whole pipeline ----------

  datatype Limits = Limits(
    maxMessages: int,
    summarizeAfter: int,
    maxToolResultChars: int,
    pinnedResultChars: int,
    compactToolRounds: bool)
  {
    function PinCap(): int {
      if maxToolResultChars > pinnedResultChars then maxToolResultChars else pinnedResultChars
    }
  }

  /** The history after the three passes that look at single messages and rounds. */
  function Trimmed(ms: seq<Message>, pins: set<string>, l: Limits): seq<Message> {
    var cleaned := ThinkingDropped(ms);
    var compacted := if l.compactToolRounds then RoundsDropped(cleaned, pins) else cleaned;
    ResultsTruncated(compacted, pins, l.maxToolResultChars, l.PinCap())
  }

  /** The passes that look at the length of the history. */
  function Finished(ms: seq<Message>, l: Limits, summarize: seq<Message> -> string): Outcome<seq<Message>> {
    var short :- Summarized(ms, l.summarizeAfter, summarize);
    var window :- Windowed(short, l.maxMessages);
    Done(OrphansDropped(window))
  }

  function Processed(ms: seq<Message>, pins: set<string>, l: Limits, summarize: seq<Message> -> string)
    : Outcome<seq<Message>>
  {
    Finished(Trimmed(ms, pins, l), l, summarize)
  }

  lemma FinishedPaired(ms: seq<Message>, l: Limits, summarize: seq<Message> -> string)
    requires UserOpens(ms) && l.maxMessages >= 2 && l.summarizeAfter >= 1
    ensures var r := Finished(ms, l, summarize);
            && r.Done? && UserOpens(r.value) && |r.value| <= l.maxMessages + 1
            && r.value[|r.value| - 1] == ms[|ms| - 1]
  {
    SummarizedPaired(ms, l.summarizeAfter, summarize);
    var short := Summarized(ms, l.summarizeAfter, summarize).value;
    WindowedPaired(short, l.maxMessages);
    PairedHasNoOrphans(Windowed(short, l.maxMessages).value);
  }

  lemma TrimmedPaired(ms: seq<Message>, pins: set<string>, l: Limits)
    requires UserOpens(ms)
    ensures UserOpens(Trimmed(ms, pins, l))
  {
    ThinkingDroppedPaired(ms);
    var cleaned := ThinkingDropped(ms);
    RoundsDroppedPaired(cleaned, pins);
    var compacted := if l.compactToolRounds then RoundsDropped(cleaned, pins) else cleaned;
    ResultsTruncatedPaired(compacted, pins, l.maxToolResultChars, l.PinCap());
  }

  /**
   The central promise of the context manager: a well-paired history opened by the user
   stays one, the last pass has nothing left to drop, and the bound is missed by at most one.
   */
  lemma ProcessedPaired(ms: seq<Message>, pins: set<string>, l: Limits, summarize: seq<Message> -> string)
    requires UserOpens(ms) && l.maxMessages >= 2 && l.summarizeAfter >= 1
    ensures var r := Processed(ms, pins, l, summarize);
            r.Done? && UserOpens(r.value) && |r.value| <= l.maxMessages + 1
  {
    TrimmedPaired(ms, pins, l);
    FinishedPaired(Trimmed(ms, pins, l), l, summarize);
  }

  /**
   When the window leaves room for a summarised history, it never cuts: processing ends
   with the summarised history itself, within the bound.
   */
  lemma WindowIsIdle(ms: seq<Message>, pins: set<string>, l: Limits, summarize: seq<Message> -> string)
    requires UserOpens(ms) && l.summarizeAfter >= 1
    requires l.maxMessages >= 11 && l.maxMessages >= l.summarizeAfter
    ensures Processed(ms, pins, l, summarize) == Summarized(Trimmed(ms, pins, l), l.summarizeAfter, summarize)
    ensures |Processed(ms, pins, l, summarize).value| <= l.maxMessages
  {
    TrimmedPaired(ms, pins, l);
    var trimmed := Trimmed(ms, pins, l);
    SummarizedPaired(trimmed, l.summarizeAfter, summarize);
    PairedHasNoOrphans(Summarized(trimmed, l.summarizeAfter, summarize).value);
  }

  /** When processing raises, in terms of the length of the trimmed history. */
  lemma TrimmedRaises(ms: seq<Message>, pins: set<string>, l: Limits, summarize: seq<Message> -> string)
    ensures var n := |Trimmed(ms, pins, l)|;
            Processed(ms, pins, l, summarize).IndexError? <==>
              || (n == 1 && l.summarizeAfter <= 0)
              || l.maxMessages < 0
              || (l.maxMessages == 0 && n > 0)
              || (l.maxMessages == 1 && n > 1)
  {
    hide Trimmed, OrphansDropped;
    var trimmed := Trimmed(ms, pins, l);
    SummarizedRaises(trimmed, l.summarizeAfter, summarize);
    var short := Summarized(trimmed, l.summarizeAfter, summarize);
    if short.Done? {
      WindowedRaises(short.value, l.maxMessages);
    }
  }

  /** Whatever the history, a result that comes out has no orphaned tool results. */
  lemma ProcessedLeavesNoOrphans(ms: seq<Message>, pins: set<string>, l: Limits, summarize: seq<Message> -> string)
    requires Processed(ms, pins, l, summarize).Done?
    ensures NoOrphans(Processed(ms, pins, l, summarize).value)
  {
    var short := Summarized(Trimmed(ms, pins, l), l.summarizeAfter, summarize).value;
    OrphansDroppedLeavesNone(Windowed(short, l.maxMessages).value);
  }

  // ---------- What compaction keeps, and where ----------

  lemma {:induction false} KeptPosition(ms: seq<Message>, drop: seq<bool>, k: nat, n: nat)
    requires k < n <= |ms| == |drop| && !drop[k]
    ensures |Kept(ms, drop, k)| < |Kept(ms, drop, n)|
    ensures Kept(ms, drop, n)[|Kept(ms, drop, k)|] == ms[k]
  {
    if k < n - 1 {
      KeptPosition(ms, drop, k, n - 1);
    }
  }

  lemma AnswerTakesThePlace(ms: seq<Message>, pins: set<string>, k: nat)
    requires RoundStart(ms, pins, k)
    ensures var out, at := RoundsDropped(ms, pins), |Kept(ms, DropMask(ms, pins), k)|;
            at < |out| && out[at] == ms[k + 2]
  {
    hide ToolUseOnly, ResultsOnly, VisibleText, UseIdSet;
    var drop := DropMask(ms, pins);
    DroppedRoundsAreSeparate(ms, pins, k);
    KeptPosition(ms, drop, k + 2, |ms|);
    assert Kept(ms, drop, k + 1) == Kept(ms, drop, k);
    assert Kept(ms, drop, k + 2) == Kept(ms, drop, k);
  }

  lemma PinnedRoundStays(ms: seq<Message>, pins: set<string>, k: nat)
    requires k < |ms| && ToolUseOnly(ms[k]) && UseIdSet(ms[k]) * pins != {}
    ensures !Dropped(ms, pins, k)
    ensures k + 1 < |ms| && ResultsOnly(ms[k + 1]) ==> !Dropped(ms, pins, k + 1)
  {
    hide UseIdSet, VisibleText;
  }

  /**
   Compaction deletes whole finished rounds and nothing else. The answer takes the place of
   its round, every other message keeps its place in the order, and a round holding a
   pinned id is kept.
   */
  lemma CompactionDeletesOnlyRounds(ms: seq<Message>, pins: set<string>, k: nat)
    requires k < |ms|
    ensures var out, at := RoundsDropped(ms, pins), |Kept(ms, DropMask(ms, pins), k)|;
            && (!Dropped(ms, pins, k) ==> at < |out| && out[at] == ms[k])
            && (RoundStart(ms, pins, k) ==> at < |out| && out[at] == ms[k + 2])
            && (RoundStart(ms, pins, k) ==> ToolUseOnly(ms[k]) && ResultsOnly(ms[k + 1]))
    ensures ToolUseOnly(ms[k]) && UseIdSet(ms[k]) * pins != {} ==>
              !Dropped(ms, pins, k) &&
              (k + 1 < |ms| && ResultsOnly(ms[k + 1]) ==> !Dropped(ms, pins, k + 1))
  {
    hide ToolUseOnly, ResultsOnly, VisibleText, UseIdSet, Dropped, Kept;
    if !Dropped(ms, pins, k) {
      KeptPosition(ms, DropMask(ms, pins), k, |ms|);
    }
    if RoundStart(ms, pins, k) {
      AnswerTakesThePlace(ms, pins, k);
    }
    if ToolUseOnly(ms[k]) && UseIdSet(ms[k]) * pins != {} {
      PinnedRoundStays(ms, pins, k);
    }
  }

  lemma CompactionKeepsTheLast(ms: seq<Message>, pins: set<string>)
    requires ms != []
    ensures var out := RoundsDropped(ms, pins);
            out != [] && out[|out| - 1] == ms[|ms| - 1]
  {
    assert !DropMask(ms, pins)[|ms| - 1];
  }

  lemma TrimmedKeepsTheLast(ms: seq<Message>, pins: set<string>, l: Limits)
    requires ms != []
    ensures var out := Trimmed(ms, pins, l);
            out != [] && out[|out| - 1] ==
              TruncateMessage(CleanMessage(ms[|ms| - 1]), pins, l.maxToolResultChars, l.PinCap())
  {
    CompactionKeepsTheLast(ThinkingDropped(ms), pins);
  }

  /** The newest message always reaches the model, at most trimmed in itself. */
  lemma NewestSurvives(ms: seq<Message>, pins: set<string>, l: Limits, summarize: seq<Message> -> string)
    requires UserOpens(ms) && l.maxMessages >= 2 && l.summarizeAfter >= 1
    ensures var r := Processed(ms, pins, l, summarize);
            r.Done? && r.value != [] && r.value[|r.value| - 1] ==
              TruncateMessage(CleanMessage(ms[|ms| - 1]), pins, l.maxToolResultChars, l.PinCap())
  {
    hide TruncateMessage, CleanMessage, Trimmed, Finished;
    TrimmedPaired(ms, pins, l);
    TrimmedKeepsTheLast(ms, pins, l);
    FinishedPaired(Trimmed(ms, pins, l), l, summarize);
  }
}

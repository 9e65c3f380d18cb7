/** Which pinned tool rounds are still in the history that the model is sent. */
module ContextReach {
  import opened PyText
  import opened Messages
  import opened ContextPasses
  import opened CompactionPasses
  import opened ContextBounds

  // ---------- Where a message goes ----------

  /** Where a message that compaction keeps stands in the trimmed history. */
  function PlaceOf(ms: seq<Message>, pins: set<string>, l: Limits, k: nat): nat
    requires k <= |ms|
  {
    if l.compactToolRounds then |Kept(ThinkingDropped(ms), DropMask(ThinkingDropped(ms), pins), k)| else k
  }

  /** A message that calls a tool whose result is pinned. */
  predicate CallsPinned(m: Message, pins: set<string>) {
    Uses(m) != [] && UseIdSet(m) * pins != {}
  }

  lemma CleanKeepsUses(m: Message)
    ensures Uses(CleanMessage(m)) == Uses(m) && UseIdSet(CleanMessage(m)) == UseIdSet(m)
  {
    if m.content.Blocks? {
      WithoutThinkingKeepsIds(m.content.blocks);
    }
  }

  lemma PinnedIsNotDropped(ms: seq<Message>, pins: set<string>, k: nat)
    requires k < |ms| && CallsPinned(ms[k], pins)
    ensures !Dropped(ms, pins, k)
  {
  }

  lemma TrimmedAt(ms: seq<Message>, pins: set<string>, l: Limits, j: nat) returns (k: nat)
    requires j < |Trimmed(ms, pins, l)|
    ensures k < |ms| && PlaceOf(ms, pins, l, k) == j
    ensures Trimmed(ms, pins, l)[j] == TruncateMessage(CleanMessage(ms[k]), pins, l.maxToolResultChars, l.PinCap())
  {
    hide TruncateMessage, CleanMessage, Dropped;
    var cleaned := ThinkingDropped(ms);
    if l.compactToolRounds {
      k := Origin(cleaned, DropMask(cleaned, pins), j, |cleaned|);
    } else {
      k := j;
    }
  }

  lemma PinnedPlace(ms: seq<Message>, pins: set<string>, l: Limits, k: nat)
    requires k < |ms| && CallsPinned(ms[k], pins)
    ensures var t, at := Trimmed(ms, pins, l), PlaceOf(ms, pins, l, k);
            at < |t| && t[at] == TruncateMessage(CleanMessage(ms[k]), pins, l.maxToolResultChars, l.PinCap())
  {
    hide TruncateMessage, Dropped, UseIdSet;
    CleanKeepsUses(ms[k]);
    var cleaned := ThinkingDropped(ms);
    if l.compactToolRounds {
      PinnedIsNotDropped(cleaned, pins, k);
      KeptPosition(cleaned, DropMask(cleaned, pins), k, |cleaned|);
    }
  }

  /** The call of this id is made in no other message. */
  predicate MadeOnlyAt(ms: seq<Message>, id: string, k: nat) {
    k < |ms| && id in Uses(ms[k]) && forall j | 0 <= j < |ms| && j != k :: id !in Uses(ms[j])
  }

  lemma UsesInTrimmed(ms: seq<Message>, pins: set<string>, l: Limits, id: string, k: nat, j: nat)
    requires MadeOnlyAt(ms, id, k) && j < |Trimmed(ms, pins, l)| && id in Uses(Trimmed(ms, pins, l)[j])
    ensures j == PlaceOf(ms, pins, l, k)
  {
    hide TruncateMessage, CleanMessage, Trimmed, PlaceOf, Uses;
    var o := TrimmedAt(ms, pins, l, j);
    TruncateMessageKeeps(CleanMessage(ms[o]), pins, l.maxToolResultChars, l.PinCap());
    CleanKeepsUses(ms[o]);
  }

  lemma FrontMakesNoCalls(t: seq<Message>, l: Limits, summarize: seq<Message> -> string)
    requires UserOpens(t)
    ensures forall m | m in Front(t, l, summarize) :: Uses(m) == []
  {
    HeadIsInert(t);
  }

  /** A pinned call is found in what is processed exactly if its place is not before the tail. */
  lemma ReachesFromTail(
      ms: seq<Message>, pins: set<string>, l: Limits, summarize: seq<Message> -> string, k: nat, id: string)
    requires UserOpens(ms) && l.maxMessages >= 2 && l.summarizeAfter >= 1
    requires MadeOnlyAt(ms, id, k) && CallsPinned(ms[k], pins)
    ensures var t, out := Trimmed(ms, pins, l), Processed(ms, pins, l, summarize);
            && t != [] && out.Done?
            && ((exists m :: m in out.value && id in Uses(m)) <==> PlaceOf(ms, pins, l, k) >= TailStart(t, l))
  {
    hide Trimmed, Processed, Front, TailStart, PlaceOf, UserOpens, Uses;
    var t, at := Trimmed(ms, pins, l), PlaceOf(ms, pins, l, k);
    TrimmedPaired(ms, pins, l);
    ProcessedShape(ms, pins, l, summarize);
    FrontMakesNoCalls(t, l, summarize);
    PinnedPlace(ms, pins, l, k);
    TruncateMessageKeeps(CleanMessage(ms[k]), pins, l.maxToolResultChars, l.PinCap());
    CleanKeepsUses(ms[k]);
    var front, from := Front(t, l, summarize), TailStart(t, l);
    var out := front + t[from..];
    if at >= from {
      assert out[|front| + at - from] == t[at] && t[at] in out;
    } else if m :| m in out && id in Uses(m) {
      var tail := t[from..];
      assert m in tail;
      var p :| 0 <= p < |tail| && tail[p] == m;
      UsesInTrimmed(ms, pins, l, id, k, from + p);
    }
  }

  // ---------- How many messages are left ----------

  /** How many messages from position `k` on compaction leaves. */
  function LeftFrom(ms: seq<Message>, pins: set<string>, l: Limits, k: nat): nat
    requires k <= |ms|
    decreases |ms| - k
  {
    if k == |ms| then 0
    else
      LeftFrom(ms, pins, l, k + 1) +
      if l.compactToolRounds && Dropped(ThinkingDropped(ms), pins, k) then 0 else 1
  }

  lemma {:induction false} PlaceAndRest(ms: seq<Message>, pins: set<string>, l: Limits, k: nat)
    requires k <= |ms|
    ensures PlaceOf(ms, pins, l, k) + LeftFrom(ms, pins, l, k) == |Trimmed(ms, pins, l)|
    decreases |ms| - k
  {
    hide Dropped, TruncateMessage, CleanMessage;
    if k < |ms| {
      PlaceAndRest(ms, pins, l, k + 1);
    }
  }

  /** A call is not before a cut that spares rounds exactly if it is at most one message before the plain cut. */
  lemma CutSparesRounds(t: seq<Message>, at: nat, start: nat)
    requires WellPaired(t) && at < |t| && Uses(t[at]) != [] && 1 <= start < |t|
    ensures at >= BackToBoundary(t, start) <==> at + 1 >= start
  {
    hide ResultsOnly, Uses, Results, BackToBoundary;
    ResultsAfterCalls(t, at);
    BackByAtMostOne(t, start);
    if at + 1 == start {
      BackToCall(t, start);
    }
  }

  lemma BackToCall(t: seq<Message>, start: nat)
    requires WellPaired(t) && 1 <= start < |t| && ResultsOnly(t[start])
    ensures BackToBoundary(t, start) == start - 1
  {
    hide ResultsOnly;
    CallsBeforeResults(t, start);
  }

  /** A call escapes the summary exactly if the history is short, or the call is recent. */
  lemma SummarySpares(t: seq<Message>, at: nat, after: int)
    requires UserOpens(t) && 1 <= at < |t| && Uses(t[at]) != []
    ensures at >= SummaryCut(t, after) <==> |t| <= after || |t| - at <= KEEP_RECENT + 1
  {
    hide ResultsOnly, Uses, Results, BackToBoundary;
    ResultsAfterCalls(t, at);
    var recent := if |t| - KEEP_RECENT > 1 then |t| - KEEP_RECENT else 1;
    CutSparesRounds(t, at, recent);
  }

  /** A summarised history has ten messages, or eleven when the cut spares a round. */
  lemma ShortLengths(t: seq<Message>, after: int)
    requires UserOpens(t) && SummaryCut(t, after) > 1
    ensures |t| > after
    ensures var n := ShortLength(t, after);
            || (n == KEEP_RECENT + 2 && n <= |t|)
            || (n == KEEP_RECENT + 3 && n <= |t| && ResultsOnly(t[|t| - KEEP_RECENT]))
  {
    hide ResultsOnly;
    BackByAtMostOne(t, |t| - KEEP_RECENT);
  }

  lemma TailSpares(t: seq<Message>, l: Limits, at: nat)
    requires UserOpens(t) && l.maxMessages >= 2 && 1 <= at < |t| && Uses(t[at]) != []
    ensures at >= TailStart(t, l) <==>
            |t| - at <= l.maxMessages && (|t| <= l.summarizeAfter || |t| - at <= KEEP_RECENT + 1)
  {
    hide ResultsOnly, Uses, Results, BackToBoundary, SummaryCut, UserOpens;
    PairedAfterOpening(t);
    SummarySpares(t, at, l.summarizeAfter);
    ResultsAfterCalls(t, at);
    var c, n := SummaryCut(t, l.summarizeAfter), ShortLength(t, l.summarizeAfter);
    if c > 1 {
      ShortLengths(t, l.summarizeAfter);
      if n == KEEP_RECENT + 3 {
        NoCallBetween(t, at, |t| - KEEP_RECENT);
      }
    }
    if n > l.maxMessages {
      CutSparesRounds(t, at, |t| - (l.maxMessages - 1));
    }
  }

  lemma NoCallBetween(t: seq<Message>, at: nat, k: nat)
    requires WellPaired(t) && at < |t| && Uses(t[at]) != [] && k < |t| && ResultsOnly(t[k])
    ensures at + 2 != k
  {
    ResultsAfterCalls(t, at);
    CallsBeforeResults(t, k);
  }

  /**
   Pins keep a round out of compaction, not out of the summary or the window. A pinned call made
   under an id of its own reaches the model if and only if, of the messages that compaction leaves,
   no more than the window holds stand from the call on, and either all are too few to be
   summarised or no more than nine stand from the call on. Its results then follow it.
   */
  lemma PinnedRoundReaches(
      ms: seq<Message>, pins: set<string>, l: Limits, summarize: seq<Message> -> string, k: nat, id: string)
    requires UserOpens(ms) && l.maxMessages >= 2 && l.summarizeAfter >= 1
    requires MadeOnlyAt(ms, id, k) && CallsPinned(ms[k], pins)
    ensures var out, all, fromCall := Processed(ms, pins, l, summarize), LeftFrom(ms, pins, l, 0), LeftFrom(ms, pins, l, k);
            && out.Done?
            && ((exists m :: m in out.value && id in Uses(m)) <==>
                fromCall <= l.maxMessages && (all <= l.summarizeAfter || fromCall <= KEEP_RECENT + 1))
  {
    hide Trimmed, Processed, TailStart, PlaceOf, UserOpens, Uses, LeftFrom, UseIdSet;
    var t, at := Trimmed(ms, pins, l), PlaceOf(ms, pins, l, k);
    ReachesFromTail(ms, pins, l, summarize, k, id);
    TrimmedPaired(ms, pins, l);
    PinnedPlace(ms, pins, l, k);
    TruncateMessageKeeps(CleanMessage(ms[k]), pins, l.maxToolResultChars, l.PinCap());
    CleanKeepsUses(ms[k]);
    HeadIsInert(t);
    TailSpares(t, l, at);
    PlaceAndRest(ms, pins, l, k);
    PlaceAndRest(ms, pins, l, 0);
    NothingBefore(ms, pins, l);
  }

  lemma NothingBefore(ms: seq<Message>, pins: set<string>, l: Limits)
    ensures PlaceOf(ms, pins, l, 0) == 0
  {
  }

  // ---------- A pinned round that is summarised away ----------

  const CALL := Message(Assistant, Blocks([ToolUse("a", "search", "")]))

  const ANSWER := Message(User, Blocks([ToolResult("a", Str("found"), false)]))

  /** A question, a tool round, and the user talking on. */
  function TalkOn(n: nat): seq<Message> {
    if n == 0 then [Message(User, Plain("hi"))] + [CALL, ANSWER] else TalkOn(n - 1) + [Message(User, Plain("more"))]
  }

  lemma {:induction false} TalkIsPaired(n: nat)
    ensures UserOpens(TalkOn(n)) && |TalkOn(n)| == n + 3 && TalkOn(n)[1] == CALL
    ensures forall j | 0 <= j < n + 3 && j != 1 :: TalkOn(n)[j].role.User?
  {
    hide Uses, Results, ResultsOnly, PairedAt;
    if n == 0 {
      FirstRound();
    } else {
      TalkIsPaired(n - 1);
      PlainIsInert("more");
      PairedSnoc(TalkOn(n - 1), Message(User, Plain("more")));
    }
  }

  lemma PlainIsInert(text: string)
    ensures Inert(Message(User, Plain(text)))
  {
  }

  lemma FirstRound()
    ensures UserOpens([Message(User, Plain("hi"))] + [CALL, ANSWER])
  {
    CallIds();
    PairedSingleton(Message(User, Plain("hi")));
    PairedRound([Message(User, Plain("hi"))], CALL, ANSWER);
  }

  lemma CallIds()
    ensures Uses(CALL) == ["a"] && ResultsOnly(ANSWER) && Results(ANSWER) == ["a"]
  {
    assert BlocksOf(CALL)[..0] == [] && BlocksOf(ANSWER)[..0] == [];
  }

  lemma CallIsPinned()
    ensures CallsPinned(CALL, {"a"})
  {
    CallIds();
    assert Stripped("a") && "a" in Uses(CALL);
    assert "a" in UseIdSet(CALL) * {"a"};
  }

  /** While only the user talks, no round is finished and compaction leaves everything. */
  lemma {:induction false} TalkIsLeft(n: nat, pins: set<string>, l: Limits, k: nat)
    requires k <= n + 3 == |TalkOn(n)|
    ensures LeftFrom(TalkOn(n), pins, l, k) == n + 3 - k
    decreases n + 3 - k
  {
    if k < n + 3 {
      TalkIsLeft(n, pins, l, k + 1);
      NothingFinished(n, pins, k);
    }
  }

  lemma NothingFinished(n: nat, pins: set<string>, k: nat)
    requires k < n + 3 == |TalkOn(n)|
    ensures !Dropped(ThinkingDropped(TalkOn(n)), pins, k)
  {
    hide ResultsOnly, UseIdSet, TalkOn;
    TalkIsPaired(n);
  }

  /** Under all limits a pinned round vanishes once enough messages have followed. */
  lemma PinnedRoundIsSummarised(n: nat, l: Limits, summarize: seq<Message> -> string)
    requires l.maxMessages >= 2 && l.summarizeAfter >= 1 && n >= KEEP_RECENT && n + 3 > l.summarizeAfter
    ensures var out := Processed(TalkOn(n), {"a"}, l, summarize);
            out.Done? && forall m | m in out.value :: "a" !in Uses(m)
  {
    hide Processed, TalkOn, LeftFrom, UserOpens, CallsPinned;
    TalkIsPaired(n);
    CallIds();
    CallIsPinned();
    PinnedRoundReaches(TalkOn(n), {"a"}, l, summarize, 1, "a");
    TalkIsLeft(n, {"a"}, l, 0);
    TalkIsLeft(n, {"a"}, l, 1);
  }
}

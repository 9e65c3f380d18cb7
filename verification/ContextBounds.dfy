/** What exactly is left of a history after processing: when it raises, how far back it reaches, how long results are. */
module ContextBounds {
  import opened PyText
  import opened Messages
  import opened ContextPasses
  import opened CompactionPasses

  // ---------- When processing raises ----------

  /** A finished round and its answer, and nothing else: compaction leaves the answer alone. */
  predicate LoneRound(ms: seq<Message>, pins: set<string>) {
    |ms| == 3 && RoundStart(ThinkingDropped(ms), pins, 0)
  }

  lemma LastIsKept(ms: seq<Message>, pins: set<string>)
    requires ms != []
    ensures !Dropped(ms, pins, |ms| - 1)
  {
  }

  lemma {:induction false} AllDropped(ms: seq<Message>, drop: seq<bool>, n: nat)
    requires n <= |ms| == |drop| && forall k | 0 <= k < n :: drop[k]
    ensures Kept(ms, drop, n) == []
  {
    if n > 0 {
      AllDropped(ms, drop, n - 1);
    }
  }

  /** If all but the last message are dropped, they are one round. */
  lemma FirstDropped(ms: seq<Message>, pins: set<string>)
    requires |ms| > 1 && forall k: nat | k < |ms| - 1 :: Dropped(ms, pins, k)
    ensures |ms| == 3 && RoundStart(ms, pins, 0)
  {
    hide ToolUseOnly, ResultsOnly, VisibleText, UseIdSet;
    assert Dropped(ms, pins, 0);
    DroppedRoundsAreSeparate(ms, pins, 0);
  }

  lemma TwoLeft(ms: seq<Message>, drop: seq<bool>, k: nat)
    requires k + 1 < |ms| == |drop| && !drop[k] && !drop[|ms| - 1]
    ensures |Kept(ms, drop, |ms|)| >= 2
  {
    KeptPosition(ms, drop, k, |ms| - 1);
    KeptStep(ms, drop, |ms| - 1);
  }

  lemma LoneRoundLeavesOne(ms: seq<Message>, pins: set<string>)
    requires |ms| == 3 && RoundStart(ms, pins, 0)
    ensures |RoundsDropped(ms, pins)| == 1
  {
    DroppedRoundsAreSeparate(ms, pins, 0);
    AllDropped(ms, DropMask(ms, pins), 2);
    KeptStep(ms, DropMask(ms, pins), 2);
  }

  lemma OneLeft(ms: seq<Message>, pins: set<string>)
    ensures |RoundsDropped(ms, pins)| == 1 <==> |ms| == 1 || (|ms| == 3 && RoundStart(ms, pins, 0))
    ensures |RoundsDropped(ms, pins)| == 0 <==> |ms| == 0
  {
    hide RoundStart, Dropped;
    var drop := DropMask(ms, pins);
    if |ms| == 3 && RoundStart(ms, pins, 0) {
      LoneRoundLeavesOne(ms, pins);
    } else if ms != [] {
      LastIsKept(ms, pins);
      KeptStep(ms, drop, |ms| - 1);
      if |ms| > 1 {
        if forall k: nat | k < |ms| - 1 :: Dropped(ms, pins, k) {
          FirstDropped(ms, pins);
        } else {
          var k: nat :| k < |ms| - 1 && !Dropped(ms, pins, k);
          TwoLeft(ms, drop, k);
        }
      }
    }
  }

  /**
   For every history and every setting, in terms a caller can check: processing raises
   `IndexError` exactly when a lone message meets a summary threshold below one, or the window is
   negative, or zero for a history that is not empty, or one for more than a lone message.
   */
  lemma ProcessedRaises(ms: seq<Message>, pins: set<string>, l: Limits, summarize: seq<Message> -> string)
    ensures var lone := |ms| == 1 || (l.compactToolRounds && LoneRound(ms, pins));
            Processed(ms, pins, l, summarize).IndexError? <==>
              || (lone && l.summarizeAfter <= 0)
              || l.maxMessages < 0
              || (l.maxMessages == 0 && ms != [])
              || (l.maxMessages == 1 && ms != [] && !lone)
  {
    hide RoundStart, RoundsDropped;
    var cleaned := ThinkingDropped(ms);
    OneLeft(cleaned, pins);
    TrimmedRaises(ms, pins, l, summarize);
  }

  /** The settings a configuration may hold: a single greeting makes processing raise. */
  lemma GreetingRaises(l: Limits, summarize: seq<Message> -> string)
    requires l.summarizeAfter == 0
    ensures Processed([Message(User, Plain("hi"))], {}, l, summarize).IndexError?
  {
    ProcessedRaises([Message(User, Plain("hi"))], {}, l, summarize);
  }

  // ---------- How far back the processed history reaches ----------

  /** The first message, after the head, that summarising leaves in place. */
  function SummaryCut(t: seq<Message>, after: int): (c: nat)
    requires t != []
    ensures 1 <= c <= |t|
  {
    var recent := if |t| - KEEP_RECENT > 1 then |t| - KEEP_RECENT else 1;
    if |t| <= after || recent >= |t| || BackToBoundary(t, recent) <= 1 then 1
    else BackToBoundary(t, recent)
  }

  /** The length of the summarised history. */
  function ShortLength(t: seq<Message>, after: int): nat
    requires t != []
  {
    var c := SummaryCut(t, after);
    if c == 1 then |t| else |t| - c + 2
  }

  /** The first message, after the head, that reaches the model unsummarised. */
  function TailStart(t: seq<Message>, l: Limits): nat
    requires t != [] && l.maxMessages >= 2
  {
    if ShortLength(t, l.summarizeAfter) <= l.maxMessages then SummaryCut(t, l.summarizeAfter)
    else BackToBoundary(t, |t| - (l.maxMessages - 1))
  }

  /** What stands before the tail: the head, and a summary unless the window cut it. */
  function Front(t: seq<Message>, l: Limits, summarize: seq<Message> -> string): seq<Message>
    requires t != []
  {
    var c := SummaryCut(t, l.summarizeAfter);
    if c > 1 && ShortLength(t, l.summarizeAfter) <= l.maxMessages then [t[0], SummaryMessage(summarize, t[1..c])]
    else [t[0]]
  }

  lemma SummarizedShape(t: seq<Message>, after: int, summarize: seq<Message> -> string)
    requires UserOpens(t) && after >= 1
    ensures var c := SummaryCut(t, after);
            Summarized(t, after, summarize) ==
            Done(if c == 1 then t else [t[0], SummaryMessage(summarize, t[1..c])] + t[c..])
  {
  }

  lemma WindowCutIsPositive(t: seq<Message>, start: nat)
    requires UserOpens(t) && 1 < start < |t|
    ensures 1 <= BackToBoundary(t, start) <= start
  {
    BackByAtMostOne(t, start);
  }

  /** A window that cuts a summarised history cuts at the message at which it would cut the whole. */
  lemma SameCut(t: seq<Message>, c: nat, short: seq<Message>, start: nat)
    requires UserOpens(t) && UserOpens(short) && 1 < c < |t| && !ResultsOnly(t[c])
    requires |short| == |t| - c + 2 && (forall p | 2 <= p < |short| :: short[p] == t[p - 2 + c])
    requires 2 <= start < |short|
    ensures BackToBoundary(short, start) == BackToBoundary(t, start - 2 + c) - c + 2
    ensures 2 <= BackToBoundary(short, start)
  {
    hide ResultsOnly;
    BackByAtMostOne(t, start - 2 + c);
    BackByAtMostOne(short, start);
    assert short[start] == t[start - 2 + c] && short[2] == t[c];
  }

  lemma WindowShape(short: seq<Message>, max: int)
    requires UserOpens(short) && max >= 2
    ensures var w := if |short| <= max then 1 else BackToBoundary(short, |short| - (max - 1));
            1 <= w <= |short| && Windowed(short, max) == Done([short[0]] + short[w..])
  {
    hide UserOpens, ResultsOnly;
    if |short| <= max {
      OpensWithOne(short);
      assert short == [short[0]] + short[1..];
    } else {
      WindowCutIsPositive(short, |short| - (max - 1));
    }
  }

  lemma OpensWithOne(ms: seq<Message>)
    requires UserOpens(ms)
    ensures ms != []
  {
  }

  /** After summarising and windowing there is nothing left for the last pass. */
  lemma FinishedIsWindowed(t: seq<Message>, l: Limits, summarize: seq<Message> -> string)
    requires UserOpens(t) && l.maxMessages >= 2 && l.summarizeAfter >= 1
    ensures Summarized(t, l.summarizeAfter, summarize).Done?
    ensures var short := Summarized(t, l.summarizeAfter, summarize).value;
            UserOpens(short) && Finished(t, l, summarize) == Windowed(short, l.maxMessages)
  {
    hide UserOpens, Summarized, Windowed, OrphansDropped;
    SummarizedPaired(t, l.summarizeAfter, summarize);
    var short := Summarized(t, l.summarizeAfter, summarize).value;
    WindowedPaired(short, l.maxMessages);
    PairedAfterOpening(Windowed(short, l.maxMessages).value);
    PairedHasNoOrphans(Windowed(short, l.maxMessages).value);
  }

  lemma TailOfShort(t: seq<Message>, c: nat, short: seq<Message>, front: seq<Message>, w: nat)
    requires c <= |t| && |front| == 2 && short == front + t[c..] && 2 <= w <= |short|
    ensures short[w..] == t[w - 2 + c..]
  {
  }

  lemma FinishedShape(t: seq<Message>, l: Limits, summarize: seq<Message> -> string)
    requires UserOpens(t) && l.maxMessages >= 2 && l.summarizeAfter >= 1
    ensures 1 <= TailStart(t, l) <= |t|
    ensures Finished(t, l, summarize) == Done(Front(t, l, summarize) + t[TailStart(t, l)..])
  {
    hide UserOpens, ResultsOnly, Finished, Windowed, Summarized, SummaryCut, BackToBoundary;
    OpensWithOne(t);
    var c := SummaryCut(t, l.summarizeAfter);
    SummarizedShape(t, l.summarizeAfter, summarize);
    FinishedIsWindowed(t, l, summarize);
    var short := Summarized(t, l.summarizeAfter, summarize).value;
    WindowShape(short, l.maxMessages);
    if c > 1 {
      var front := [t[0], SummaryMessage(summarize, t[1..c])];
      SummaryCutIsBoundary(t, l.summarizeAfter);
      if |short| <= l.maxMessages {
        assert [short[0]] + short[1..] == front + t[c..];
      } else {
        var start := |short| - (l.maxMessages - 1);
        SameCut(t, c, short, start);
        TailOfShort(t, c, short, front, BackToBoundary(short, start));
      }
    }
  }

  lemma PairedAfterOpening(ms: seq<Message>)
    requires UserOpens(ms)
    ensures WellPaired(ms)
  {
  }

  lemma SummaryCutIsBoundary(t: seq<Message>, after: int)
    requires t != [] && SummaryCut(t, after) > 1
    ensures SummaryCut(t, after) < |t| && !ResultsOnly(t[SummaryCut(t, after)])
  {
    hide ResultsOnly;
  }

  /** The processed history is the head, perhaps a summary, and the trimmed history from `TailStart` on. */
  lemma ProcessedShape(ms: seq<Message>, pins: set<string>, l: Limits, summarize: seq<Message> -> string)
    requires UserOpens(ms) && l.maxMessages >= 2 && l.summarizeAfter >= 1
    ensures var t := Trimmed(ms, pins, l);
            && t != [] && 1 <= TailStart(t, l) <= |t|
            && Processed(ms, pins, l, summarize) == Done(Front(t, l, summarize) + t[TailStart(t, l)..])
  {
    TrimmedPaired(ms, pins, l);
    FinishedShape(Trimmed(ms, pins, l), l, summarize);
  }

  // ---------- How long results are ----------

  /** What truncation makes of one result text under a cap. */
  function Capped(text: string, cap: int): string {
    if |text| > cap then SliceTo(text, cap) + TruncationNote(cap) else text
  }

  lemma CappedIsShort(text: string, cap: nat)
    ensures |Capped(text, cap)| <= cap + |TruncationNote(cap)|
    ensures cap <= |text| ==> Capped(text, cap)[..cap] == text[..cap]
    ensures Capped(Capped(text, cap), cap) == Capped(text, cap)
  {
    if |text| > cap {
      var once := Capped(text, cap);
      assert once == text[..cap] + TruncationNote(cap);
      assert once[..cap] == text[..cap];
      NoteIsNotEmpty(cap);
    }
  }

  lemma NoteIsNotEmpty(cap: int)
    ensures |TruncationNote(cap)| > 0
  {
    assert TruncationNote(cap)[0] == '\n';
  }

  ghost predicate BoundedBy(cap: int, bound: nat) {
    forall text: string :: |Capped(text, cap)| <= bound
  }

  /** A cap bounds the length of results if and only if it is not negative. */
  lemma CapsHoldUnlessNegative(cap: int)
    ensures (exists bound: nat :: BoundedBy(cap, bound)) <==> cap >= 0
  {
    if cap >= 0 {
      forall text: string
        ensures |Capped(text, cap)| <= cap + |TruncationNote(cap)|
      {
        CappedIsShort(text, cap);
      }
      assert BoundedBy(cap, cap + |TruncationNote(cap)|);
    } else {
      forall bound: nat
        ensures !BoundedBy(cap, bound)
      {
        var text := seq(bound - cap + 1, _ => 'a');
        assert |Capped(text, cap)| > bound;
      }
    }
  }

  lemma TruncateBlockCaps(b: Block, pins: set<string>, plainCap: int, pinCap: int)
    requires b.ToolResult? && b.body.Str?
    ensures TruncateBlock(b, pins, plainCap, pinCap) ==
            b.(body := Str(Capped(b.body.s, CapFor(b.toolUseId, pins, plainCap, pinCap))))
  {
  }

  /** Every text result among some blocks keeps within the cap of its id, and its note. */
  predicate ResultsFit(bs: seq<Block>, pins: set<string>, l: Limits) {
    forall b | b in bs && b.ToolResult? && b.body.Str? ::
      var cap := CapFor(b.toolUseId, pins, l.maxToolResultChars, l.PinCap());
      |b.body.s| <= cap + |TruncationNote(cap)|
  }

  lemma TruncatedFits(m: Message, pins: set<string>, l: Limits)
    requires l.maxToolResultChars >= 0
    ensures ResultsFit(BlocksOf(TruncateMessage(m, pins, l.maxToolResultChars, l.PinCap())), pins, l)
  {
    hide TruncationNote, CapFor, SliceTo, Capped;
    var bs := BlocksOf(m);
    var ts := BlocksOf(TruncateMessage(m, pins, l.maxToolResultChars, l.PinCap()));
    forall t | t in ts && t.ToolResult? && t.body.Str?
      ensures var cap := CapFor(t.toolUseId, pins, l.maxToolResultChars, l.PinCap());
              |t.body.s| <= cap + |TruncationNote(cap)|
    {
      var i :| 0 <= i < |ts| && ts[i] == t;
      TruncateBlockCaps(bs[i], pins, l.maxToolResultChars, l.PinCap());
      CapIsNatural(bs[i].toolUseId, pins, l);
      CappedIsShort(bs[i].body.s, CapFor(bs[i].toolUseId, pins, l.maxToolResultChars, l.PinCap()));
    }
  }

  lemma CapIsNatural(id: string, pins: set<string>, l: Limits)
    requires l.maxToolResultChars >= 0
    ensures CapFor(id, pins, l.maxToolResultChars, l.PinCap()) >= 0
  {
  }

  /** Processing adds plain messages only. */
  lemma FinishedIsFromTrimmed(t: seq<Message>, l: Limits, summarize: seq<Message> -> string)
    requires Finished(t, l, summarize).Done?
    ensures forall m | m in Finished(t, l, summarize).value :: m in t || m.content.Plain?
  {
    hide ResultsOnly, BackToBoundary;
    var short := Summarized(t, l.summarizeAfter, summarize).value;
    forall m | m in short
      ensures m in t || m.content.Plain?
    {
      assert m in t || m.content.Plain?;
    }
    var window := Windowed(short, l.maxMessages).value;
    assert forall m | m in window :: m in short;
    OrphansAreFrom(window);
  }

  lemma {:induction false} OrphansAreFrom(ms: seq<Message>)
    ensures forall m | m in OrphansDropped(ms) :: m in ms
  {
    hide ResultsOnly;
    if ms != [] {
      OrphansAreFrom(ms[..|ms| - 1]);
    }
  }

  /**
   Whatever the history, no text result in what the model is sent is longer than the cap of its
   id and the note behind it, as long as the cap is not negative.
   */
  lemma ProcessedResultsFit(ms: seq<Message>, pins: set<string>, l: Limits, summarize: seq<Message> -> string)
    requires l.maxToolResultChars >= 0 && Processed(ms, pins, l, summarize).Done?
    ensures forall m | m in Processed(ms, pins, l, summarize).value :: ResultsFit(BlocksOf(m), pins, l)
  {
    hide Finished, TruncateMessage, RoundsDropped, ThinkingDropped, ResultsFit;
    var t := Trimmed(ms, pins, l);
    FinishedIsFromTrimmed(t, l, summarize);
    forall m | m in Processed(ms, pins, l, summarize).value
      ensures ResultsFit(BlocksOf(m), pins, l)
    {
      if m.content.Plain? {
        PlainFits(m, pins, l);
      } else {
        var i :| 0 <= i < |t| && t[i] == m;
        var compacted := if l.compactToolRounds then RoundsDropped(ThinkingDropped(ms), pins) else ThinkingDropped(ms);
        TruncatedFits(compacted[i], pins, l);
      }
    }
  }

  lemma PlainFits(m: Message, pins: set<string>, l: Limits)
    requires m.content.Plain?
    ensures ResultsFit(BlocksOf(m), pins, l)
  {
  }
}

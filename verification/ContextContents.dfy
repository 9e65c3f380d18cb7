/**
 What is left inside the messages that the model is sent: every block but the thinking, in order,
 and of the results only texts that are too long cut to their cap.
 */
module ContextContents {
  import opened PyText
  import opened Messages
  import opened ContextPasses
  import opened CompactionPasses
  import opened ContextBounds
  import opened ContextReach

  // ---------- Parts of a sequence ----------

  /** `at` lists, in order, the positions of `all` that hold the elements of `part`. */
  predicate PartAt<T(==)>(part: seq<T>, all: seq<T>, at: seq<nat>) {
    && |at| == |part|
    && (forall j | 0 <= j < |at| :: at[j] < |all| && part[j] == all[at[j]])
    && forall i, j | 0 <= i < j < |at| :: at[i] < at[j]
  }

  lemma PartGrows<T>(part: seq<T>, all: seq<T>, at: seq<nat>, x: T)
    requires PartAt(part, all, at)
    ensures PartAt(part, all + [x], at) && PartAt(part + [x], all + [x], at + [|all|])
  {
  }

  // ---------- Cleaned messages ----------

  /** `at` lists exactly the positions that hold no thinking. */
  predicate OthersAt(bs: seq<Block>, at: seq<nat>) {
    && (forall j | 0 <= j < |at| :: at[j] < |bs| && !bs[at[j]].Thinking?)
    && forall k: nat | k < |bs| && !bs[k].Thinking? :: k in at
  }

  lemma OthersGrow(bs: seq<Block>, at: seq<nat>, b: Block)
    requires OthersAt(bs, at)
    ensures OthersAt(bs + [b], if b.Thinking? then at else at + [|bs|])
  {
    var more := at + [|bs|];
    assert |bs| == more[|at|] && forall k | k in at :: k in more;
    forall k: nat | k < |bs| + 1 && !(bs + [b])[k].Thinking?
      ensures k in if b.Thinking? then at else more
    {
      if k < |bs| {
        assert (bs + [b])[k] == bs[k];
      }
    }
  }

  /** A cleaned message holds all blocks but the thinking, each once and in order. */
  lemma {:induction false} ThinkingGoes(bs: seq<Block>) returns (at: seq<nat>)
    ensures PartAt(WithoutThinking(bs), bs, at) && OthersAt(bs, at)
  {
    if bs == [] {
      at := [];
    } else {
      var init, b := bs[..|bs| - 1], bs[|bs| - 1];
      at := ThinkingGoes(init);
      assert bs == init + [b];
      PartGrows(WithoutThinking(init), init, at, b);
      OthersGrow(init, at, b);
      at := if b.Thinking? then at else at + [|init|];
    }
  }

  // ---------- Capped results ----------

  /**
   A block as it was, except that the text of a result longer than its cap is cut there, and says
   so. Results of pinned calls have the larger of two caps.
   */
  predicate CappedFrom(out: Block, was: Block, pins: set<string>, l: Limits) {
    if was.ToolResult? && was.body.Str? then
      var cap := if Strip(was.toolUseId) in pins && l.pinnedResultChars > l.maxToolResultChars
                 then l.pinnedResultChars else l.maxToolResultChars;
      && out.ToolResult? && out.toolUseId == was.toolUseId && out.isError == was.isError && out.body.Str?
      && (|was.body.s| <= cap ==> out.body.s == was.body.s)
      && (0 <= cap < |was.body.s| ==>
            out.body.s == was.body.s[..cap] + "\n...[truncated: tool result exceeded " + SignedDec(cap) +
                          " chars for LLM context]")
    else out == was
  }

  /** A message as it was, but for its thinking and what its results exceed their caps by. */
  ghost predicate KeptFrom(out: Message, was: Message, pins: set<string>, l: Limits) {
    && out.role == was.role
    && match was.content
       case Plain(_) => out == was
       case Blocks(bs) =>
         && out.content.Blocks?
         && exists at :: BlocksKept(out.content.blocks, bs, at, pins, l)
  }

  predicate BlocksKept(out: seq<Block>, bs: seq<Block>, at: seq<nat>, pins: set<string>, l: Limits) {
    && OthersAt(bs, at) && |at| == |out|
    && (forall i, j | 0 <= i < j < |at| :: at[i] < at[j])
    && forall j | 0 <= j < |at| :: at[j] < |bs| && CappedFrom(out[j], bs[at[j]], pins, l)
  }

  lemma TruncatedIsCapped(b: Block, pins: set<string>, l: Limits)
    ensures CappedFrom(TruncateBlock(b, pins, l.maxToolResultChars, l.PinCap()), b, pins, l)
  {
    hide SignedDec, Strip;
    if b.ToolResult? && b.body.Str? {
      var cap := CapFor(b.toolUseId, pins, l.maxToolResultChars, l.PinCap());
      if 0 <= cap < |b.body.s| {
        JoinThree(b.body.s[..cap], "\n...[truncated: tool result exceeded ", SignedDec(cap), " chars for LLM context]");
      }
    }
  }

  lemma JoinThree(a: string, b: string, c: string, d: string)
    ensures a + (b + c + d) == a + b + c + d
  {
  }

  /** Cleaning and truncating keep a message. */
  lemma MessageIsKept(m: Message, pins: set<string>, l: Limits)
    ensures KeptFrom(TruncateMessage(CleanMessage(m), pins, l.maxToolResultChars, l.PinCap()), m, pins, l)
  {
    hide TruncateBlock, WithoutThinking, CappedFrom;
    if m.content.Blocks? {
      var bs := m.content.blocks;
      var at := ThinkingGoes(bs);
      var out := TruncateBlocks(WithoutThinking(bs), pins, l.maxToolResultChars, l.PinCap());
      forall j | 0 <= j < |at|
        ensures CappedFrom(out[j], bs[at[j]], pins, l)
      {
        TruncatedIsCapped(bs[at[j]], pins, l);
      }
      assert BlocksKept(out, bs, at, pins, l);
    }
  }

  lemma KeptHasNoThinking(out: Message, was: Message, pins: set<string>, l: Limits)
    requires KeptFrom(out, was, pins, l)
    ensures forall b | b in BlocksOf(out) :: !b.Thinking?
  {
    hide BlocksKept, CappedFrom;
    if was.content.Blocks? {
      var at :| BlocksKept(out.content.blocks, was.content.blocks, at, pins, l);
      forall b | b in BlocksOf(out)
        ensures !b.Thinking?
      {
        var j :| 0 <= j < |out.content.blocks| && out.content.blocks[j] == b;
        KeptBlock(out.content.blocks, was.content.blocks, at, pins, l, j);
      }
    }
  }

  lemma KeptBlock(out: seq<Block>, bs: seq<Block>, at: seq<nat>, pins: set<string>, l: Limits, j: nat)
    requires BlocksKept(out, bs, at, pins, l) && j < |out|
    ensures !out[j].Thinking?
  {
    hide SignedDec, Strip;
    assert CappedFrom(out[j], bs[at[j]], pins, l);
  }

  // ---------- The whole pipeline ----------

  /** Position `k` of the session stands at `j` in the trimmed history, and was not compacted away. */
  predicate StandsAt(ms: seq<Message>, pins: set<string>, l: Limits, k: nat, j: nat) {
    && k < |ms| && PlaceOf(ms, pins, l, k) == j
    && !(l.compactToolRounds && Dropped(ThinkingDropped(ms), pins, k))
  }

  lemma TrimmedKeeps(ms: seq<Message>, pins: set<string>, l: Limits, j: nat) returns (k: nat)
    requires j < |Trimmed(ms, pins, l)|
    ensures StandsAt(ms, pins, l, k, j) && KeptFrom(Trimmed(ms, pins, l)[j], ms[k], pins, l)
  {
    hide TruncateMessage, CleanMessage, Dropped, KeptFrom;
    var cleaned := ThinkingDropped(ms);
    if l.compactToolRounds {
      k := Origin(cleaned, DropMask(cleaned, pins), j, |cleaned|);
    } else {
      k := j;
    }
    MessageIsKept(ms[k], pins, l);
  }

  /** Whatever the history, nothing that comes out holds a thinking block. */
  lemma ProcessedHoldsNoThinking(ms: seq<Message>, pins: set<string>, l: Limits, summarize: seq<Message> -> string)
    requires Processed(ms, pins, l, summarize).Done?
    ensures forall m, b | m in Processed(ms, pins, l, summarize).value && b in BlocksOf(m) :: !b.Thinking?
  {
    hide Trimmed, Finished, KeptFrom;
    var t := Trimmed(ms, pins, l);
    FinishedIsFromTrimmed(t, l, summarize);
    forall m, b | m in Processed(ms, pins, l, summarize).value && b in BlocksOf(m)
      ensures !b.Thinking?
    {
      if m in t {
        var j :| 0 <= j < |t| && t[j] == m;
        var k := TrimmedKeeps(ms, pins, l, j);
        KeptHasNoThinking(m, ms[k], pins, l);
      }
    }
  }

  /**
   Every message of the tail that the model is sent is one of the session, in its place, with all
   its blocks but the thinking in order, and only the texts of results cut to their caps.
   */
  lemma TailIsKept(
      ms: seq<Message>, pins: set<string>, l: Limits, summarize: seq<Message> -> string,
      t: seq<Message>, out: seq<Message>, p: nat) returns (k: nat)
    requires UserOpens(ms) && l.maxMessages >= 2 && l.summarizeAfter >= 1
    requires t == Trimmed(ms, pins, l) && t != [] && Processed(ms, pins, l, summarize) == Done(out)
    requires |Front(t, l, summarize)| <= p < |out|
    ensures StandsAt(ms, pins, l, k, TailStart(t, l) + p - |Front(t, l, summarize)|)
    ensures KeptFrom(out[p], ms[k], pins, l)
  {
    hide Trimmed, Processed, TailStart, Front, KeptFrom, StandsAt, UserOpens;
    ProcessedShape(ms, pins, l, summarize);
    k := TrimmedKeeps(ms, pins, l, TailStart(t, l) + p - |Front(t, l, summarize)|);
  }

  lemma CleanedOpens(ms: seq<Message>)
    requires UserOpens(ms)
    ensures UserOpens(ThinkingDropped(ms))
  {
    hide WellPaired;
    ThinkingDroppedPaired(ms);
  }

  /** The first message always comes first, whole but for its thinking. */
  lemma HeadIsSent(ms: seq<Message>, pins: set<string>, l: Limits, summarize: seq<Message> -> string)
    requires UserOpens(ms) && l.maxMessages >= 2 && l.summarizeAfter >= 1
    ensures var out := Processed(ms, pins, l, summarize);
            out.Done? && out.value != [] && KeptFrom(out.value[0], ms[0], pins, l)
  {
    hide Processed, TailStart, KeptFrom, Dropped, SummaryCut, ShortLength, TruncateMessage, CleanMessage;
    ProcessedShape(ms, pins, l, summarize);
    CleanedOpens(ms);
    var cleaned := ThinkingDropped(ms);
    HeadIsKept(cleaned, pins);
    if l.compactToolRounds {
      KeptHead(cleaned, DropMask(cleaned, pins), |cleaned|);
    }
    MessageIsKept(ms[0], pins, l);
  }

  /** The newest message always comes last, whole but for its thinking and over-long results. */
  lemma NewestIsSent(ms: seq<Message>, pins: set<string>, l: Limits, summarize: seq<Message> -> string)
    requires UserOpens(ms) && l.maxMessages >= 2 && l.summarizeAfter >= 1
    ensures var out := Processed(ms, pins, l, summarize);
            out.Done? && out.value != [] && KeptFrom(out.value[|out.value| - 1], ms[|ms| - 1], pins, l)
  {
    hide Processed, TruncateMessage, CleanMessage, KeptFrom;
    NewestSurvives(ms, pins, l, summarize);
    MessageIsKept(ms[|ms| - 1], pins, l);
  }

  // ---------- Orphans ----------

  /** Of any history the last pass drops results without a call before them, and nothing else. */
  lemma {:induction false} OnlyOrphansGo(ms: seq<Message>) returns (at: seq<nat>)
    ensures PartAt(OrphansDropped(ms), ms, at)
    ensures forall k: nat | k < |ms| :: k in at <==> !ResultsOnly(ms[k]) || MayFollow(OrphansDropped(ms[..k]))
  {
    hide ResultsOnly, MayFollow;
    if ms == [] {
      at := [];
    } else {
      var init, m := ms[..|ms| - 1], ms[|ms| - 1];
      var before := OnlyOrphansGo(init);
      assert ms == init + [m];
      PartGrows(OrphansDropped(init), init, before, m);
      at := if ResultsOnly(m) && !MayFollow(OrphansDropped(init)) then before else before + [|init|];
      forall k: nat | k < |ms|
        ensures k in at <==> !ResultsOnly(ms[k]) || MayFollow(OrphansDropped(ms[..k]))
      {
        if k < |init| {
          assert ms[..k] == init[..k] && ms[k] == init[k];
          assert k in at <==> k in before;
        } else {
          NotYetIn(init, before);
        }
      }
    }
  }

  lemma NotYetIn(init: seq<Message>, at: seq<nat>)
    requires forall j | 0 <= j < |at| :: at[j] < |init|
    ensures |init| !in at
  {
  }
}

/**
 The context manager itself: each pass as the loop the service runs, proved to compute
 the function that `ContextPasses` reasons about.
 */
module ContextManagement {
  import opened PyText
  import opened Messages
  import opened ContextPasses

  class ContextManager {
    var maxMessages: int
    var summarizeAfter: int
    var maxToolResultChars: int
    var compactToolRounds: bool
    const pinnedResultChars: int
    const summarize: seq<Message> -> string

    constructor (
      maxMessages: int, summarizeAfter: int, maxToolResultChars: int, compactToolRounds: bool,
      pinnedResultChars: int, summarize: seq<Message> -> string)
      ensures CurrentLimits() ==
              Limits(maxMessages, summarizeAfter, maxToolResultChars, pinnedResultChars, compactToolRounds)
      ensures this.summarize == summarize
    {
      this.maxMessages := maxMessages;
      this.summarizeAfter := summarizeAfter;
      this.maxToolResultChars := maxToolResultChars;
      this.compactToolRounds := compactToolRounds;
      this.pinnedResultChars := pinnedResultChars;
      this.summarize := summarize;
    }

    function CurrentLimits(): Limits
      reads this
    {
      Limits(maxMessages, summarizeAfter, maxToolResultChars, pinnedResultChars, compactToolRounds)
    }

    method AssistantIsToolUseOnly(m: Message) returns (r: bool)
      ensures r == ToolUseOnly(m)
    {
      if m.role != Assistant || m.content.Plain? || m.content.blocks == [] {
        return false;
      }
      var bs := m.content.blocks;
      var hasToolUse := false;
      for i := 0 to |bs|
        invariant forall j | 0 <= j < i ::
            bs[j].ToolUse? || bs[j].Thinking? || (bs[j].Text? && IsBlank(bs[j].text))
        invariant hasToolUse == (UseIds(bs[..i]) != [])
      {
        var b := bs[i];
        assert bs[..i + 1][..i] == bs[..i];
        if b.ToolUse? {
          hasToolUse := true;
        } else if b.Text? {
          if !IsBlank(b.text) {
            assert b in bs;
            return false;
          }
        } else if !b.Thinking? {
          assert b in bs;
          return false;
        }
      }
      assert bs[..|bs|] == bs;
      return hasToolUse;
    }

    method ToolUseIdsInAssistant(m: Message) returns (ids: set<string>)
      ensures ids == UseIdSet(m)
    {
      ids := {};
      if m.role != Assistant || m.content.Plain? {
        return;
      }
      var bs := m.content.blocks;
      for i := 0 to |bs|
        invariant ids == StrippedIds(UseIds(bs[..i]))
      {
        assert bs[..i + 1][..i] == bs[..i];
        if bs[i].ToolUse? {
          StrippedIdsSnoc(UseIds(bs[..i]), bs[i].id);
          var tid := Strip(bs[i].id);
          if tid != "" {
            ids := ids + {tid};
          }
        }
      }
      assert bs[..|bs|] == bs;
    }

    method DropThinking(ms: seq<Message>) returns (result: seq<Message>)
      ensures result == ThinkingDropped(ms)
    {
      result := [];
      for i := 0 to |ms|
        invariant result == ThinkingDropped(ms)[..i]
      {
        var m := ms[i];
        if m.content.Plain? {
          result := result + [m];
        } else {
          var bs := m.content.blocks;
          var filtered := [];
          for j := 0 to |bs|
            invariant filtered == WithoutThinking(bs[..j])
          {
            assert bs[..j + 1][..j] == bs[..j];
            if !bs[j].Thinking? {
              filtered := filtered + [bs[j]];
            }
          }
          assert bs[..|bs|] == bs;
          result := result + [Message(m.role, Blocks(filtered))];
        }
      }
    }

    /** Whether a finished tool round starts at `i`, and whether a pin protects it. */
    method FinishedRoundAt(ms: seq<Message>, pins: set<string>, i: nat) returns (finished: bool, pinned: bool)
      requires i < |ms|
      ensures RoundStart(ms, pins, i) <==> finished && !pinned
    {
      finished, pinned := false, false;
      var toolOnly := AssistantIsToolUseOnly(ms[i]);
      if i + 2 < |ms| && toolOnly && ResultsOnly(ms[i + 1]) && VisibleText(ms[i + 2]) {
        finished := true;
        var ids := ToolUseIdsInAssistant(ms[i]);
        pinned := ids * pins != {};
      }
    }

    method DropCompletedToolRoundPairs(ms: seq<Message>, pins: set<string>) returns (out: seq<Message>)
      ensures out == RoundsDropped(ms, pins)
    {
      ghost var drop := DropMask(ms, pins);
      out := [];
      var i := 0;
      while i < |ms|
        invariant 0 <= i <= |ms|
        invariant out == Kept(ms, drop, i)
        invariant !RoundStart(ms, pins, i - 1)
      {
        var finished, pinned := FinishedRoundAt(ms, pins, i);
        DropTurn(ms, pins, i);
        if finished {
          if pinned {
            out := out + [ms[i]];
            i := i + 1;
            continue;
          }
          i := i + 2;
          continue;
        }
        out := out + [ms[i]];
        i := i + 1;
      }
    }

    method TruncateToolResults(ms: seq<Message>, pins: set<string>) returns (result: seq<Message>)
      ensures result == ResultsTruncated(ms, pins, maxToolResultChars, CurrentLimits().PinCap())
    {
      var pinCap := if maxToolResultChars > pinnedResultChars then maxToolResultChars else pinnedResultChars;
      result := [];
      for i := 0 to |ms|
        invariant result == ResultsTruncated(ms, pins, maxToolResultChars, pinCap)[..i]
      {
        var m := ms[i];
        if m.content.Plain? {
          result := result + [m];
        } else {
          var filtered := TruncateContent(m.content.blocks, pins, pinCap);
          result := result + [Message(m.role, Blocks(filtered))];
        }
      }
    }

    /** The inner loop of `TruncateToolResults`. */
    method TruncateContent(bs: seq<Block>, pins: set<string>, pinCap: int) returns (filtered: seq<Block>)
      ensures filtered == TruncateBlocks(bs, pins, maxToolResultChars, pinCap)
    {
      ghost var whole := TruncateBlocks(bs, pins, maxToolResultChars, pinCap);
      filtered := [];
      for j := 0 to |bs|
        invariant filtered == whole[..j]
      {
        var b := TruncateOne(bs[j], pins, pinCap);
        filtered := filtered + [b];
      }
    }

    method TruncateOne(b: Block, pins: set<string>, pinCap: int) returns (r: Block)
      ensures r == TruncateBlock(b, pins, maxToolResultChars, pinCap)
    {
      if b.ToolResult? {
        var cap := if Strip(b.toolUseId) in pins then pinCap else maxToolResultChars;
        if b.body.Str? && |b.body.s| > cap {
          return b.(body := Str(SliceTo(b.body.s, cap) + TruncationNote(cap)));
        }
      }
      return b;
    }

    static method AdjustStartForToolPairs(ms: seq<Message>, start: int) returns (r: Outcome<nat>)
      ensures r == AdjustedStart(ms, start)
    {
      var low := if start < |ms| then start else |ms|;
      var s := if low < 0 then 0 else low;
      if s == |ms| && s > 0 {
        return IndexError;
      }
      ghost var s0 := s;
      while s > 0 && ResultsOnly(ms[s])
        invariant 0 <= s <= s0 && (s == 0 || s < |ms|)
        invariant BackToBoundary(ms, s) == BackToBoundary(ms, s0)
      {
        s := s - 1;
      }
      return Done(s);
    }

    method SummarizeIfNeeded(ms: seq<Message>) returns (r: Outcome<seq<Message>>)
      ensures r == Summarized(ms, summarizeAfter, summarize)
    {
      if |ms| <= summarizeAfter {
        return Done(ms);
      }
      var start :- AdjustStartForToolPairs(ms, if |ms| - KEEP_RECENT > 1 then |ms| - KEEP_RECENT else 1);
      if start <= 1 {
        return Done(ms);
      }
      var rebuilt := [ms[0]];
      rebuilt := rebuilt + [Message(User, Plain(summarize(ms[1..start])))];
      rebuilt := rebuilt + ms[start..];
      assert rebuilt == [ms[0], SummaryMessage(summarize, ms[1..start])] + ms[start..];
      return Done(rebuilt);
    }

    method ApplySlidingWindow(ms: seq<Message>) returns (r: Outcome<seq<Message>>)
      ensures r == Windowed(ms, maxMessages)
    {
      if |ms| <= maxMessages {
        return Done(ms);
      }
      var start :- AdjustStartForToolPairs(ms, |ms| - (maxMessages - 1));
      if ms == [] {
        return IndexError;
      }
      return Done([ms[0]] + ms[start..]);
    }

    method EnsureValidToolChains(ms: seq<Message>) returns (out: seq<Message>)
      ensures out == OrphansDropped(ms)
    {
      if ms == [] {
        return ms;
      }
      out := [];
      for i := 0 to |ms|
        invariant out == OrphansDropped(ms[..i])
      {
        assert ms[..i + 1][..i] == ms[..i];
        var msg := ms[i];
        if ResultsOnly(msg) {
          if out != [] {
            var prev := out[|out| - 1];
            if HasToolUse(prev) {
              out := out + [msg];
            }
          }
        } else {
          out := out + [msg];
        }
      }
      assert ms[..|ms|] == ms;
    }

    /** The history handed to the model. */
    method ProcessMessages(ms: seq<Message>, pins: set<string>) returns (r: Outcome<seq<Message>>)
      ensures r == Processed(ms, pins, CurrentLimits(), summarize)
      ensures UserOpens(ms) && maxMessages >= 2 && summarizeAfter >= 1 ==>
                r.Done? && UserOpens(r.value) && |r.value| <= maxMessages + 1
    {
      if UserOpens(ms) && maxMessages >= 2 && summarizeAfter >= 1 {
        ProcessedPaired(ms, pins, CurrentLimits(), summarize);
      }
      var cleaned := DropThinking(ms);
      if compactToolRounds {
        cleaned := DropCompletedToolRoundPairs(cleaned, pins);
      }
      cleaned := TruncateToolResults(cleaned, pins);
      cleaned :- SummarizeIfNeeded(cleaned);
      cleaned :- ApplySlidingWindow(cleaned);
      cleaned := EnsureValidToolChains(cleaned);
      return Done(cleaned);
    }
  }
}

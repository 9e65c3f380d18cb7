/**
 Flattening the agent's history to OpenAI chat messages, and the promise that a
 well-paired history becomes a chat every provider accepts.
 */
module OpenAiWire {
  import opened PyText
  import opened Messages
  import opened ContextPasses

  datatype Call = Call(id: string, name: string, arguments: string)

  datatype Part = ImageUrl(url: string) | TextPart(text: string)

  datatype Wire =
    | Chat(role: Role, text: string)
    | Multimodal(parts: seq<Part>)
    | AssistantTurn(spoken: Option<string>, calls: seq<Call>)
    | ToolReply(callId: string, content: string)

  /** `json.dumps` of a block, and `str` of a result body that is not a string. */
  datatype Renderer = Renderer(dumps: Block -> string, show: Block -> string)

  // ---------- Assistant messages ----------

  function AssistantTexts(bs: seq<Block>, r: Renderer): seq<string> {
    if bs == [] then []
    else
      var b := bs[|bs| - 1];
      AssistantTexts(bs[..|bs| - 1], r) +
      match b
      case Text(text) => [text]
      case ToolUse(_, _, _) => []
      case _ => [r.dumps(b)]
  }

  /** The `k`-th call of a message; a call without an id is numbered. */
  function CallFor(b: Block, k: nat): Call
    requires b.ToolUse?
  {
    Call(if b.id == "" then "tool_" + Dec(k) else b.id, b.name, b.input)
  }

  function CallsOf(bs: seq<Block>): seq<Call> {
    if bs == [] then []
    else
      var b := bs[|bs| - 1];
      var before := CallsOf(bs[..|bs| - 1]);
      before + if b.ToolUse? then [CallFor(b, |before|)] else []
  }

  function AssistantWire(bs: seq<Block>, r: Renderer): Wire {
    var text := Strip(JoinNonEmpty(AssistantTexts(bs, r)));
    var calls := CallsOf(bs);
    if calls != [] then AssistantTurn(if text == "" then None else Some(text), calls)
    else Chat(Assistant, text)
  }

  method AssistantOpenAiMessage(bs: seq<Block>, r: Renderer) returns (w: Wire)
    ensures w == AssistantWire(bs, r)
  {
    var texts := [];
    var calls := [];
    for i := 0 to |bs|
      invariant texts == AssistantTexts(bs[..i], r)
      invariant calls == CallsOf(bs[..i])
    {
      assert bs[..i + 1][..i] == bs[..i];
      var b := bs[i];
      match b {
        case Text(text) => texts := texts + [text];
        case ToolUse(_, _, _) => calls := calls + [CallFor(b, |calls|)];
        case _ => texts := texts + [r.dumps(b)];
      }
    }
    assert bs[..|bs|] == bs;
    var text := Strip(JoinNonEmpty(texts));
    if calls != [] {
      return AssistantTurn(if text == "" then None else Some(text), calls);
    }
    return Chat(Assistant, text);
  }

  // ---------- User messages ----------

  function UserTexts(bs: seq<Block>, r: Renderer): seq<string> {
    if bs == [] then []
    else
      var b := bs[|bs| - 1];
      UserTexts(bs[..|bs| - 1], r) +
      match b
      case Text(text) => [text]
      case ToolResult(_, _, _) => []
      case _ => [r.dumps(b)]
  }

  function ReplyFor(b: Block, r: Renderer): Wire
    requires b.ToolResult?
  {
    ToolReply(b.toolUseId, if b.body.Str? then b.body.s else r.show(b))
  }

  function RepliesOf(bs: seq<Block>, r: Renderer): seq<Wire> {
    if bs == [] then []
    else
      var b := bs[|bs| - 1];
      RepliesOf(bs[..|bs| - 1], r) + if b.ToolResult? then [ReplyFor(b, r)] else []
  }

  function UserWire(bs: seq<Block>, r: Renderer): seq<Wire> {
    var text := Strip(JoinNonEmpty(UserTexts(bs, r)));
    (if text != "" then [Chat(User, text)] else []) + RepliesOf(bs, r)
  }

  method UserOpenAiMessages(bs: seq<Block>, r: Renderer) returns (out: seq<Wire>)
    ensures out == UserWire(bs, r)
  {
    var texts, results := SplitUserBlocks(bs, r);
    var text := Strip(JoinNonEmpty(texts));
    var replies := [];
    for i := 0 to |results|
      invariant replies == RepliesOf(results[..i], r)
    {
      assert results[..i + 1][..i] == results[..i];
      replies := replies + [ReplyFor(results[i], r)];
    }
    assert results[..|results|] == results;
    return (if text != "" then [Chat(User, text)] else []) + replies;
  }

  /** The first loop of `UserOpenAiMessages`. */
  method SplitUserBlocks(bs: seq<Block>, r: Renderer) returns (texts: seq<string>, results: seq<Block>)
    ensures texts == UserTexts(bs, r)
    ensures forall b | b in results :: b.ToolResult?
    ensures RepliesOf(results, r) == RepliesOf(bs, r)
  {
    texts, results := [], [];
    for i := 0 to |bs|
      invariant texts == UserTexts(bs[..i], r)
      invariant forall b | b in results :: b.ToolResult?
      invariant RepliesOf(results, r) == RepliesOf(bs[..i], r)
    {
      assert bs[..i + 1][..i] == bs[..i];
      var b := bs[i];
      match b {
        case ToolResult(_, _, _) =>
          assert (results + [b])[..|results|] == results;
          results := results + [b];
        case Text(text) => texts := texts + [text];
        case _ => texts := texts + [r.dumps(b)];
      }
    }
    assert bs[..|bs|] == bs;
  }

  // ---------- Whole histories ----------

  predicate HasImage(bs: seq<Block>) { exists b :: b in bs && b.Image? }

  function PartFor(b: Block, r: Renderer): seq<Part> {
    match b
    case Image(base64, mediaType, data) =>
      if base64 && data != "" then
        [ImageUrl("data:" + (if mediaType == "" then "image/png" else mediaType) + ";base64," + data)]
      else []
    case Text(text) => [TextPart(text)]
    case _ => [TextPart(r.dumps(b))]
  }

  function PartsOf(bs: seq<Block>, r: Renderer): seq<Part> {
    if bs == [] then [] else PartsOf(bs[..|bs| - 1], r) + PartFor(bs[|bs| - 1], r)
  }

  function WireOf(m: Message, r: Renderer): seq<Wire> {
    match m.content
    case Plain(text) => [Chat(m.role, text)]
    case Blocks(bs) =>
      if m.role.User? && HasImage(bs) then [Multimodal(PartsOf(bs, r))]
      else if m.role.Assistant? then [AssistantWire(bs, r)]
      else UserWire(bs, r)
  }

  function Flatten(chunks: seq<seq<Wire>>): seq<Wire> {
    if chunks == [] then [] else Flatten(chunks[..|chunks| - 1]) + chunks[|chunks| - 1]
  }

  /** What each message becomes. */
  function Chunks(ms: seq<Message>, r: Renderer): seq<seq<Wire>> {
    seq(|ms|, k requires 0 <= k < |ms| => WireOf(ms[k], r))
  }

  function WireAll(ms: seq<Message>, r: Renderer): seq<Wire> {
    Flatten(Chunks(ms, r))
  }

  method MultimodalParts(bs: seq<Block>, r: Renderer) returns (parts: seq<Part>)
    ensures parts == PartsOf(bs, r)
  {
    parts := [];
    for i := 0 to |bs|
      invariant parts == PartsOf(bs[..i], r)
    {
      assert bs[..i + 1][..i] == bs[..i];
      parts := parts + PartFor(bs[i], r);
    }
    assert bs[..|bs|] == bs;
  }

  method OpenAiMessagesFor(m: Message, r: Renderer) returns (out: seq<Wire>)
    ensures out == WireOf(m, r)
  {
    if m.content.Plain? {
      return [Chat(m.role, m.content.text)];
    } else if m.role == User && HasImage(m.content.blocks) {
      var parts := MultimodalParts(m.content.blocks, r);
      return [Multimodal(parts)];
    } else if m.role == Assistant {
      var turn := AssistantOpenAiMessage(m.content.blocks, r);
      return [turn];
    } else {
      out := UserOpenAiMessages(m.content.blocks, r);
    }
  }

  method OpenAiChatMessages(ms: seq<Message>, r: Renderer) returns (out: seq<Wire>)
    ensures out == WireAll(ms, r)
  {
    ghost var chunks := Chunks(ms, r);
    out := [];
    for i := 0 to |ms|
      invariant out == Flatten(chunks[..i])
    {
      var more := OpenAiMessagesFor(ms[i], r);
      assert chunks[..i + 1][..i] == chunks[..i];
      out := out + more;
    }
    assert chunks[..|ms|] == chunks;
  }

  // ---------- The chat a provider accepts ----------

  function CallsMade(w: Wire): seq<Call> {
    if w.AssistantTurn? then w.calls else []
  }

  /** Tool messages answering exactly these calls, in order. */
  predicate Answers(replies: seq<Wire>, calls: seq<Call>) {
    |replies| == |calls| &&
    forall j | 0 <= j < |calls| :: replies[j].ToolReply? && replies[j].callId == calls[j].id
  }

  /**
   Each message with tool calls is followed at once by one tool message per call, with the
   matching ids in call order, and tool messages occur nowhere else.
   */
  ghost predicate Bracketed(w: seq<Wire>) {
    w == [] ||
    (var n := |CallsMade(w[0])|;
     && !w[0].ToolReply?
     && n < |w|
     && Answers(w[1..1 + n], CallsMade(w[0]))
     && Bracketed(w[1 + n..]))
  }

  /** A chat message that neither calls nor answers can be put before any chat. */
  lemma BracketedCons(x: Wire, rest: seq<Wire>)
    requires !x.ToolReply? && CallsMade(x) == []
    ensures Bracketed([x] + rest) <==> Bracketed(rest)
  {
    var w := [x] + rest;
    assert w[1..1] == [] && w[1..] == rest;
  }

  /** A turn and as many replies as it has calls are accepted exactly when the ids agree. */
  lemma BracketedRound(turn: Wire, replies: seq<Wire>, rest: seq<Wire>)
    requires !turn.ToolReply? && |replies| == |CallsMade(turn)|
    ensures Bracketed([turn] + replies + rest) <==> Answers(replies, CallsMade(turn)) && Bracketed(rest)
  {
    var w := [turn] + replies + rest;
    var n := |replies|;
    assert w[1..1 + n] == replies && w[1 + n..] == rest;
  }

  lemma {:induction false} CallIdsAreUseIds(bs: seq<Block>)
    ensures |CallsOf(bs)| == |UseIds(bs)|
    ensures forall j | 0 <= j < |UseIds(bs)| ::
              CallsOf(bs)[j].id == if UseIds(bs)[j] == "" then "tool_" + Dec(j) else UseIds(bs)[j]
  {
    hide Dec;
    if bs != [] {
      var b, init := bs[|bs| - 1], bs[..|bs| - 1];
      CallIdsAreUseIds(init);
      if b.ToolUse? {
        assert CallsOf(bs) == CallsOf(init) + [CallFor(b, |CallsOf(init)|)];
        assert UseIds(bs) == UseIds(init) + [b.id];
      } else {
        assert CallsOf(bs) == CallsOf(init) && UseIds(bs) == UseIds(init);
      }
    }
  }

  lemma {:induction false} ReplyIdsAreResultIds(bs: seq<Block>, r: Renderer)
    ensures |RepliesOf(bs, r)| == |ResultIds(bs)|
    ensures forall j | 0 <= j < |ResultIds(bs)| ::
              RepliesOf(bs, r)[j].ToolReply? && RepliesOf(bs, r)[j].callId == ResultIds(bs)[j]
  {
    if bs != [] {
      ReplyIdsAreResultIds(bs[..|bs| - 1], r);
    }
  }

  lemma {:induction false} ResultsHaveNoText(bs: seq<Block>, r: Renderer)
    requires forall b | b in bs :: b.ToolResult?
    ensures UserTexts(bs, r) == []
  {
    if bs != [] {
      assert bs[|bs| - 1] in bs;
      ResultsHaveNoText(bs[..|bs| - 1], r);
    }
  }

  lemma ResultsOnlyWire(m: Message, r: Renderer)
    requires ResultsOnly(m)
    ensures WireOf(m, r) == RepliesOf(m.content.blocks, r)
  {
    ResultsHaveNoText(m.content.blocks, r);
    assert UserWire(m.content.blocks, r) == RepliesOf(m.content.blocks, r);
  }

  /** A message that neither calls nor answers becomes at most one such chat message. */
  lemma InertWire(m: Message, r: Renderer)
    requires Inert(m)
    ensures var w := WireOf(m, r);
            w == [] || (|w| == 1 && !w[0].ToolReply? && CallsMade(w[0]) == [])
  {
    if m.content.Blocks? {
      CallIdsAreUseIds(m.content.blocks);
      ReplyIdsAreResultIds(m.content.blocks, r);
    }
  }

  /** Replies to these calls agree with them exactly when no id was empty. */
  lemma AnswersIffIds(calls: seq<Call>, replies: seq<Wire>, ids: seq<string>)
    requires |calls| == |replies| == |ids|
    requires forall j | 0 <= j < |ids| ::
               calls[j].id == if ids[j] == "" then "tool_" + Dec(j) else ids[j]
    requires forall j | 0 <= j < |ids| :: replies[j].ToolReply? && replies[j].callId == ids[j]
    ensures Answers(replies, calls) <==> "" !in ids
  {
    if "" in ids {
      var j :| 0 <= j < |ids| && ids[j] == "";
      assert calls[j].id == "tool_" + Dec(j);
      assert replies[j].callId != calls[j].id;
    }
  }

  /** A round becomes a turn and one reply per call; the ids agree exactly when none is empty. */
  lemma RoundWire(call: Message, reply: Message, r: Renderer)
    requires Uses(call) != [] && ResultsOnly(reply) && Results(reply) == Uses(call)
    ensures var turn, replies := WireOf(call, r), WireOf(reply, r);
            && |turn| == 1 && !turn[0].ToolReply?
            && |replies| == |CallsMade(turn[0])|
            && (Answers(replies, CallsMade(turn[0])) <==> "" !in Uses(call))
  {
    var bs, rs := call.content.blocks, reply.content.blocks;
    CallIdsAreUseIds(bs);
    ReplyIdsAreResultIds(rs, r);
    ResultsOnlyWire(reply, r);
    AnswersIffIds(CallsOf(bs), RepliesOf(rs, r), UseIds(bs));
    assert WireOf(call, r) == [AssistantWire(bs, r)];
    assert CallsMade(AssistantWire(bs, r)) == CallsOf(bs);
  }

  lemma FlattenSnoc(chunks: seq<seq<Wire>>, chunk: seq<Wire>)
    ensures Flatten(chunks + [chunk]) == Flatten(chunks) + chunk
  {
    assert (chunks + [chunk])[..|chunks|] == chunks;
  }

  lemma FlattenNone()
    ensures Flatten([]) == []
  {
  }

  lemma {:induction false} FlattenConcat(a: seq<seq<Wire>>, b: seq<seq<Wire>>)
    ensures Flatten(a + b) == Flatten(a) + Flatten(b)
  {
    hide Flatten;
    if b == [] {
      FlattenNone();
      assert a + b == a && Flatten(a) + [] == Flatten(a);
    } else {
      var init, last := b[..|b| - 1], b[|b| - 1];
      FlattenConcat(a, init);
      FlattenSnoc(a + init, last);
      FlattenSnoc(init, last);
      assert a + b == a + init + [last] && b == init + [last];
      assert Flatten(a) + (Flatten(init) + last) == Flatten(a) + Flatten(init) + last;
    }
  }

  lemma FlattenCons(chunk: seq<Wire>, rest: seq<seq<Wire>>)
    ensures Flatten([chunk] + rest) == chunk + Flatten(rest)
  {
    FlattenConcat([chunk], rest);
    assert [chunk][..0] == [];
  }

  /** What a message contributes to a chat: nothing to pair, calls (with or without ids), or answers. */
  datatype Kind = Quiet | Calling(idsPresent: bool) | Replying

  ghost predicate ChunkFits(chunks: seq<seq<Wire>>, kinds: seq<Kind>, k: nat)
    requires |chunks| == |kinds| && k < |kinds|
  {
    match kinds[k]
    case Quiet =>
      |chunks[k]| == 0 || (|chunks[k]| == 1 && !chunks[k][0].ToolReply? && CallsMade(chunks[k][0]) == [])
    case Calling(idsPresent) =>
      && k + 1 < |kinds| && kinds[k + 1].Replying?
      && |chunks[k]| == 1 && !chunks[k][0].ToolReply?
      && |chunks[k + 1]| == |CallsMade(chunks[k][0])|
      && (Answers(chunks[k + 1], CallsMade(chunks[k][0])) <==> idsPresent)
    case Replying => k > 0 && kinds[k - 1].Calling?
  }

  ghost predicate Fits(chunks: seq<seq<Wire>>, kinds: seq<Kind>) {
    |chunks| == |kinds| && forall k: nat | k < |kinds| :: ChunkFits(chunks, kinds, k)
  }

  lemma FitsSuffix(chunks: seq<seq<Wire>>, kinds: seq<Kind>, n: nat)
    requires Fits(chunks, kinds) && n <= |kinds|
    requires n < |kinds| ==> !kinds[n].Replying?
    ensures Fits(chunks[n..], kinds[n..])
  {
    var cs, ks := chunks[n..], kinds[n..];
    forall k: nat | k < |ks|
      ensures ChunkFits(cs, ks, k)
    {
      assert ChunkFits(chunks, kinds, n + k);
      assert cs[k] == chunks[n + k] && ks[k] == kinds[n + k];
      assert k + 1 < |ks| ==> cs[k + 1] == chunks[n + k + 1] && ks[k + 1] == kinds[n + k + 1];
      assert k > 0 ==> ks[k - 1] == kinds[n + k - 1];
    }
  }

  lemma FlattenQuiet(chunk: seq<Wire>, rest: seq<seq<Wire>>)
    requires chunk == [] || (|chunk| == 1 && !chunk[0].ToolReply? && CallsMade(chunk[0]) == [])
    ensures Bracketed(Flatten([chunk] + rest)) <==> Bracketed(Flatten(rest))
  {
    FlattenCons(chunk, rest);
    if chunk == [] {
      assert chunk + Flatten(rest) == Flatten(rest);
    } else {
      assert chunk == [chunk[0]];
      BracketedCons(chunk[0], Flatten(rest));
    }
  }

  lemma FlattenRound(turn: seq<Wire>, replies: seq<Wire>, rest: seq<seq<Wire>>)
    requires |turn| == 1 && !turn[0].ToolReply? && |replies| == |CallsMade(turn[0])|
    ensures Bracketed(Flatten([turn, replies] + rest)) <==>
            Answers(replies, CallsMade(turn[0])) && Bracketed(Flatten(rest))
  {
    FlattenCons(turn, [replies] + rest);
    FlattenCons(replies, rest);
    assert [turn] + ([replies] + rest) == [turn, replies] + rest;
    assert turn == [turn[0]];
    assert turn + (replies + Flatten(rest)) == [turn[0]] + replies + Flatten(rest);
    BracketedRound(turn[0], replies, Flatten(rest));
  }

  lemma {:induction false} FlattenBracketed(chunks: seq<seq<Wire>>, kinds: seq<Kind>)
    requires Fits(chunks, kinds)
    ensures Bracketed(Flatten(chunks)) <==> Calling(false) !in kinds
    decreases |kinds|
  {
    if kinds != [] {
      assert ChunkFits(chunks, kinds, 0);
      var n := if kinds[0].Calling? then 2 else 1;
      assert n < |kinds| ==> ChunkFits(chunks, kinds, n);
      FitsSuffix(chunks, kinds, n);
      FlattenBracketed(chunks[n..], kinds[n..]);
      if n == 2 {
        assert kinds == [kinds[0], kinds[1]] + kinds[2..];
        assert chunks == [chunks[0], chunks[1]] + chunks[2..];
        FlattenRound(chunks[0], chunks[1], chunks[2..]);
      } else {
        assert kinds == [kinds[0]] + kinds[1..];
        assert chunks == [chunks[0]] + chunks[1..];
        FlattenQuiet(chunks[0], chunks[1..]);
      }
    }
  }

  function KindOf(m: Message): Kind {
    if Uses(m) != [] then Calling("" !in Uses(m))
    else if Results(m) != [] then Replying
    else Quiet
  }

  function Kinds(ms: seq<Message>): seq<Kind> {
    seq(|ms|, k requires 0 <= k < |ms| => KindOf(ms[k]))
  }

  lemma ChunkOfRoundFits(ms: seq<Message>, r: Renderer, chunks: seq<seq<Wire>>, kinds: seq<Kind>, k: nat)
    requires |chunks| == |kinds| == |ms| && k + 1 < |ms|
    requires chunks[k] == WireOf(ms[k], r) && chunks[k + 1] == WireOf(ms[k + 1], r)
    requires kinds[k] == Calling("" !in Uses(ms[k])) && kinds[k + 1].Replying?
    requires Uses(ms[k]) != [] && ResultsOnly(ms[k + 1]) && Results(ms[k + 1]) == Uses(ms[k])
    ensures ChunkFits(chunks, kinds, k)
  {
    RoundWire(ms[k], ms[k + 1], r);
  }

  lemma ChunkOfQuietFits(ms: seq<Message>, r: Renderer, chunks: seq<seq<Wire>>, kinds: seq<Kind>, k: nat)
    requires |chunks| == |kinds| == |ms| && k < |ms|
    requires chunks[k] == WireOf(ms[k], r) && kinds[k].Quiet? && Inert(ms[k])
    ensures ChunkFits(chunks, kinds, k)
  {
    InertWire(ms[k], r);
  }

  lemma ChunkOfReplyFits(chunks: seq<seq<Wire>>, kinds: seq<Kind>, k: nat)
    requires |chunks| == |kinds| && 0 < k < |kinds| && kinds[k].Replying? && kinds[k - 1].Calling?
    ensures ChunkFits(chunks, kinds, k)
  {
  }

  lemma ChunkFitsAt(ms: seq<Message>, r: Renderer, k: nat)
    requires WellPaired(ms) && k < |ms|
    ensures ChunkFits(Chunks(ms, r), Kinds(ms), k)
  {
    hide Dec, WireOf, ResultsOnly, ChunkFits, Uses, Results, PairedAt, WellPaired;
    var chunks, kinds := Chunks(ms, r), Kinds(ms);
    if Uses(ms[k]) != [] {
      ResultsAfterCalls(ms, k);
      ChunkOfRoundFits(ms, r, chunks, kinds, k);
    } else if Results(ms[k]) == [] {
      ChunkOfQuietFits(ms, r, chunks, kinds, k);
    } else {
      ResultsAnswerCalls(ms, k);
      ChunkOfReplyFits(chunks, kinds, k);
    }
  }

  lemma ChunksFit(ms: seq<Message>, r: Renderer)
    requires WellPaired(ms)
    ensures Fits(Chunks(ms, r), Kinds(ms))
  {
    hide ChunkFits;
    forall k: nat | k < |ms|
      ensures ChunkFits(Chunks(ms, r), Kinds(ms), k)
    {
      ChunkFitsAt(ms, r, k);
    }
  }

  /** No call in the history lacks an id. */
  ghost predicate CallsHaveIds(ms: seq<Message>) {
    forall m | m in ms :: "" !in Uses(m)
  }

  /**
   The wire promise, for all well-paired histories: the chat is accepted if and only if
   every tool call has an id.
   */
  lemma WireBracketed(ms: seq<Message>, r: Renderer)
    requires WellPaired(ms)
    ensures Bracketed(WireAll(ms, r)) <==> CallsHaveIds(ms)
  {
    var kinds := Kinds(ms);
    ChunksFit(ms, r);
    FlattenBracketed(Chunks(ms, r), kinds);
    if Calling(false) in kinds {
      var k :| 0 <= k < |kinds| && kinds[k] == Calling(false);
      assert ms[k] in ms;
    } else {
      forall m | m in ms
        ensures "" !in Uses(m)
      {
        var k :| 0 <= k < |ms| && ms[k] == m;
        assert kinds[k] in kinds;
      }
    }
  }

  // ---------- Composition with the context manager ----------

  /** Whatever the context manager makes of a history, it invents no calls. */
  lemma ProcessedCallsHaveIds(
      ms: seq<Message>, pins: set<string>, l: Limits, summarize: seq<Message> -> string)
    requires CallsHaveIds(ms)
    requires Processed(ms, pins, l, summarize).Done?
    ensures CallsHaveIds(Processed(ms, pins, l, summarize).value)
  {
    var cleaned := ThinkingDropped(ms);
    forall m | m in cleaned
      ensures "" !in Uses(m)
    {
      var k :| 0 <= k < |ms| && m == CleanMessage(ms[k]);
      WithoutThinkingKeepsIds(BlocksOf(ms[k]));
      assert ms[k] in ms;
    }
    var compacted := if l.compactToolRounds then RoundsDropped(cleaned, pins) else cleaned;
    KeptIsSubset(cleaned, DropMask(cleaned, pins), |cleaned|);
    var trimmed := Trimmed(ms, pins, l);
    forall m | m in trimmed
      ensures "" !in Uses(m)
    {
      var k :| 0 <= k < |trimmed| && m == trimmed[k];
      TruncateMessageKeeps(compacted[k], pins, l.maxToolResultChars, l.PinCap());
      assert compacted[k] in compacted;
    }
    FinishedCallsHaveIds(trimmed, l, summarize);
  }

  lemma {:induction false} KeptIsSubset(ms: seq<Message>, drop: seq<bool>, n: nat)
    requires n <= |ms| == |drop|
    ensures forall m | m in Kept(ms, drop, n) :: m in ms
  {
    if n > 0 {
      KeptIsSubset(ms, drop, n - 1);
    }
  }

  lemma {:induction false} OrphansDroppedIsSubset(ms: seq<Message>)
    ensures forall m | m in OrphansDropped(ms) :: m in ms
  {
    if ms != [] {
      OrphansDroppedIsSubset(ms[..|ms| - 1]);
    }
  }

  lemma SummaryCallsNothing(summarize: seq<Message> -> string)
    ensures forall earlier :: Uses(SummaryMessage(summarize, earlier)) == []
  {
  }

  lemma FinishedCallsHaveIds(ms: seq<Message>, l: Limits, summarize: seq<Message> -> string)
    requires CallsHaveIds(ms) && Finished(ms, l, summarize).Done?
    ensures CallsHaveIds(Finished(ms, l, summarize).value)
  {
    hide ResultsOnly, BackToBoundary, UseIds;
    SummaryCallsNothing(summarize);
    var short := Summarized(ms, l.summarizeAfter, summarize).value;
    forall m | m in short
      ensures "" !in Uses(m)
    {
      assert m in ms || Uses(m) == [];
    }
    var window := Windowed(short, l.maxMessages).value;
    assert forall m | m in window :: m in short;
    OrphansDroppedIsSubset(window);
  }

  /** The chat built from a processed well-paired history is always accepted. */
  lemma ProcessedChatIsAccepted(
      ms: seq<Message>, pins: set<string>, l: Limits, summarize: seq<Message> -> string, r: Renderer)
    requires UserOpens(ms) && CallsHaveIds(ms) && l.maxMessages >= 2 && l.summarizeAfter >= 1
    ensures var p := Processed(ms, pins, l, summarize);
            p.Done? && Bracketed(WireAll(p.value, r))
  {
    ProcessedPaired(ms, pins, l, summarize);
    ProcessedCallsHaveIds(ms, pins, l, summarize);
    WireBracketed(Processed(ms, pins, l, summarize).value, r);
  }
}

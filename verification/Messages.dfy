/**
 The conversation data model, and the tool-call pairing invariant that the agent
 loop establishes and every later pass must keep.
 */
module Messages {
  import opened PyText

  datatype Role = User | Assistant

  /** The `content` of a tool result: a string, or some other JSON value. */
  datatype ResultBody = Str(s: string) | Structured

  datatype Block =
    | Text(text: string)
    | Thinking
    | ToolUse(id: string, name: string, input: string)
    | ToolResult(toolUseId: string, body: ResultBody, isError: bool)
    | Image(base64: bool, mediaType: string, data: string)
    | Other(kind: string)

  datatype Content = Plain(text: string) | Blocks(blocks: seq<Block>)

  datatype Message = Message(role: Role, content: Content)

  function BlocksOf(m: Message): seq<Block> {
    if m.content.Plain? then [] else m.content.blocks
  }

  /** The ids of the tool calls among some blocks, in order. */
  function UseIds(bs: seq<Block>): seq<string> {
    if bs == [] then []
    else
      var b := bs[|bs| - 1];
      UseIds(bs[..|bs| - 1]) + if b.ToolUse? then [b.id] else []
  }

  /** The ids answered by the tool results among some blocks, in order. */
  function ResultIds(bs: seq<Block>): seq<string> {
    if bs == [] then []
    else
      var b := bs[|bs| - 1];
      ResultIds(bs[..|bs| - 1]) + if b.ToolResult? then [b.toolUseId] else []
  }

  /** The tool calls an assistant message makes. */
  function Uses(m: Message): seq<string> {
    if m.role.Assistant? then UseIds(BlocksOf(m)) else []
  }

  /** The tool calls a user message answers. */
  function Results(m: Message): seq<string> {
    if m.role.User? then ResultIds(BlocksOf(m)) else []
  }

  /** A user message made of tool results and nothing else. */
  predicate ResultsOnly(m: Message) {
    m.role.User? && m.content.Blocks? && m.content.blocks != [] &&
    forall b | b in m.content.blocks :: b.ToolResult?
  }

  // ---------- The pairing invariant ----------

  predicate PairedAt(ms: seq<Message>, k: nat)
    requires k < |ms|
  {
    && (Uses(ms[k]) != [] ==>
          k + 1 < |ms| && ResultsOnly(ms[k + 1]) && Results(ms[k + 1]) == Uses(ms[k]))
    && (Results(ms[k]) != [] ==>
          ResultsOnly(ms[k]) && k > 0 && Uses(ms[k - 1]) != [])
  }

  /**
   Every assistant message that calls tools is followed at once by a user message
   holding exactly the results of those calls, in order; results occur nowhere else.
   */
  ghost predicate WellPaired(ms: seq<Message>) {
    forall k: nat | k < |ms| :: PairedAt(ms, k)
  }

  /** Histories the agent loop hands to the context manager: well paired, opened by the user. */
  ghost predicate UserOpens(ms: seq<Message>) {
    WellPaired(ms) && ms != [] && ms[0].role.User?
  }

  lemma ResultIdsNonEmpty(m: Message)
    requires ResultsOnly(m)
    ensures Results(m) != []
  {
    var bs := m.content.blocks;
    assert bs[|bs| - 1] in bs;
  }

  /** A message that neither calls tools nor answers calls. */
  predicate Inert(m: Message) { Uses(m) == [] && Results(m) == [] }

  lemma PairedSingleton(m: Message)
    requires Inert(m)
    ensures WellPaired([m])
  {
  }

  lemma PairedConcat(a: seq<Message>, b: seq<Message>)
    requires WellPaired(a) && WellPaired(b)
    ensures WellPaired(a + b)
  {
    var s := a + b;
    forall k: nat | k < |s|
      ensures PairedAt(s, k)
    {
      if k < |a| {
        assert PairedAt(a, k);
      } else {
        assert PairedAt(b, k - |a|);
      }
    }
  }

  lemma PairedSnoc(a: seq<Message>, m: Message)
    requires WellPaired(a) && Inert(m)
    ensures WellPaired(a + [m])
  {
    PairedSingleton(m);
    PairedConcat(a, [m]);
  }

  /** A round: an assistant message calling tools, then exactly its results. */
  lemma PairedRound(a: seq<Message>, call: Message, reply: Message)
    requires WellPaired(a)
    requires ResultsOnly(reply) && Results(reply) == Uses(call)
    ensures WellPaired(a + [call, reply])
  {
    ResultIdsNonEmpty(reply);
    assert call.role.Assistant? && reply.role.User?;
    assert WellPaired([call, reply]) by {
      assert PairedAt([call, reply], 0) && PairedAt([call, reply], 1);
    }
    PairedConcat(a, [call, reply]);
  }

  /** Cutting a well-paired history anywhere but before results leaves a well-paired rest. */
  lemma PairedSuffix(ms: seq<Message>, k: nat)
    requires WellPaired(ms) && k <= |ms|
    requires k < |ms| ==> !ResultsOnly(ms[k])
    ensures WellPaired(ms[k..])
  {
    var b := ms[k..];
    forall j: nat | j < |b|
      ensures PairedAt(b, j)
    {
      assert PairedAt(ms, j + k);
      assert b[j] == ms[j + k];
      assert j + 1 < |b| ==> b[j + 1] == ms[j + k + 1];
      assert j > 0 ==> b[j - 1] == ms[j + k - 1];
    }
  }

  /** Pairing is a matter of roles and ids only. */
  lemma PairedTransfer(a: seq<Message>, b: seq<Message>)
    requires WellPaired(a) && |a| == |b|
    requires forall k: nat | k < |a| ::
               && Uses(a[k]) == Uses(b[k])
               && Results(a[k]) == Results(b[k])
               && (ResultsOnly(a[k]) ==> ResultsOnly(b[k]))
    ensures WellPaired(b)
  {
    forall k: nat | k < |b|
      ensures PairedAt(b, k)
    {
      assert PairedAt(a, k);
    }
  }

  /** No two neighbouring messages are both tool results. */
  lemma ResultsStandAlone(ms: seq<Message>, k: nat)
    requires WellPaired(ms) && k < |ms| && ResultsOnly(ms[k])
    ensures k > 0 && ms[k - 1].role.Assistant? && Uses(ms[k - 1]) == Results(ms[k])
  {
    assert PairedAt(ms, k);
    ResultIdsNonEmpty(ms[k]);
    assert PairedAt(ms, k - 1);
  }

  /** What stands before results calls, and is no results itself. */
  lemma CallsBeforeResults(ms: seq<Message>, k: nat)
    requires WellPaired(ms) && k < |ms| && ResultsOnly(ms[k])
    ensures k > 0 && !ResultsOnly(ms[k - 1]) && Uses(ms[k - 1]) == Results(ms[k]) && Uses(ms[k]) == []
  {
    ResultsStandAlone(ms, k);
  }

  /** What stands behind calls answers them. */
  lemma ResultsAfterCalls(ms: seq<Message>, k: nat)
    requires WellPaired(ms) && k < |ms| && Uses(ms[k]) != []
    ensures k + 1 < |ms| && ResultsOnly(ms[k + 1]) && Results(ms[k + 1]) == Uses(ms[k]) && Uses(ms[k + 1]) == []
  {
    assert PairedAt(ms, k);
  }

  /** Results, wherever they occur, make up a whole message behind calls. */
  lemma ResultsAnswerCalls(ms: seq<Message>, k: nat)
    requires WellPaired(ms) && k < |ms| && Results(ms[k]) != []
    ensures ResultsOnly(ms[k]) && k > 0 && Uses(ms[k - 1]) != []
  {
    assert PairedAt(ms, k);
  }
}

/** Running the tools of one assistant turn: exactly one result per call, in call order. */
module ToolExecutor {
  import opened PyText
  import opened Messages

  /** What one attempt at running a tool does. */
  datatype Attempt = Returned(text: string, indicatesError: bool) | Raised(error: string)

  /** The outside of one call: is its input cut off, does the tool exist, what does each attempt do. */
  datatype CallEnv = CallEnv(truncatedInput: bool, toolFound: bool, attempt: nat -> Attempt)

  const MAX_RETRIES := 2

  predicate Succeeds(a: Attempt) { a.Returned? && !a.indicatesError }

  function ErrorText(a: Attempt): string {
    if a.Returned? then a.text else a.error
  }

  /** Attempt `k` is the first that neither raises nor reports an error. */
  ghost predicate FirstSuccess(env: CallEnv, k: nat) {
    && env.attempt(k).Returned? && !env.attempt(k).indicatesError
    && forall j: nat | j < k :: env.attempt(j).Raised? || env.attempt(j).indicatesError
  }

  function TruncatedNote(name: string): string {
    "Execution failure: Driver argument structure for '" + name + "' arrived truncated. " +
    "Reduce operational parameter sizing layouts or split multi-tier targets into sequential steps." +
    (if name == "Write" then " Write smaller chunks (~32KB) with mode=append across multiple calls." else "")
  }

  function MissingNote(name: string): string {
    "Execution failure: Specified routing target '" + name + "' not found inside environment mapping maps."
  }

  function DroppedNote(error: string): string {
    error + " (Process dropped after " + Dec(MAX_RETRIES + 1) + " processing verification loops)"
  }

  /** The answer to one call, of at most three attempts. */
  function AnswerTo(use: Block, env: CallEnv): (r: Block)
    requires use.ToolUse?
    ensures r.ToolResult? && r.toolUseId == use.id
  {
    if env.truncatedInput then ToolResult(use.id, Str(TruncatedNote(use.name)), true)
    else if !env.toolFound then ToolResult(use.id, Str(MissingNote(use.name)), true)
    else if Succeeds(env.attempt(0)) then ToolResult(use.id, Str(env.attempt(0).text), false)
    else if Succeeds(env.attempt(1)) then ToolResult(use.id, Str(env.attempt(1).text), false)
    else if Succeeds(env.attempt(2)) then ToolResult(use.id, Str(env.attempt(2).text), false)
    else ToolResult(use.id, Str(DroppedNote(ErrorText(env.attempt(2)))), true)
  }

  /**
   It is no error exactly if the input is whole, the tool exists and one of three attempts neither
   raises nor reports an error; then it is the text of the first such attempt, under the call's id.
   */
  lemma AnswerIsFirstSuccess(use: Block, env: CallEnv)
    requires use.ToolUse?
    ensures var r := AnswerTo(use, env);
            && r.ToolResult? && r.toolUseId == use.id
            && (!r.isError <==> !env.truncatedInput && env.toolFound && exists k: nat | k < 3 :: FirstSuccess(env, k))
            && (!r.isError ==> forall k: nat | FirstSuccess(env, k) :: r.body == Str(env.attempt(k).text))
  {
    hide TruncatedNote, MissingNote, DroppedNote;
    assert Succeeds(env.attempt(0)) ==> FirstSuccess(env, 0);
    assert !Succeeds(env.attempt(0)) && Succeeds(env.attempt(1)) ==> FirstSuccess(env, 1);
    assert !Succeeds(env.attempt(0)) && !Succeeds(env.attempt(1)) && Succeeds(env.attempt(2)) ==> FirstSuccess(env, 2);
  }

  /** A call given up tells the error of its last attempt, as returned or as raised. */
  lemma GivingUpTellsTheError(use: Block, env: CallEnv)
    requires use.ToolUse? && !env.truncatedInput && env.toolFound && AnswerTo(use, env).isError
    ensures AnswerTo(use, env).body == Str(DroppedNote(
              match env.attempt(2)
              case Returned(text, _) => text
              case Raised(error) => error))
  {
    hide DroppedNote;
  }

  method ExecuteSingleTool(use: Block, env: CallEnv) returns (r: Block)
    requires use.ToolUse?
    ensures r == AnswerTo(use, env)
  {
    if env.truncatedInput {
      return ToolResult(use.id, Str(TruncatedNote(use.name)), true);
    }
    if !env.toolFound {
      return ToolResult(use.id, Str(MissingNote(use.name)), true);
    }
    var lastError, attempts := "", 0;
    while attempts < MAX_RETRIES + 1
      invariant attempts <= MAX_RETRIES + 1
      invariant forall k: nat | k < attempts :: !Succeeds(env.attempt(k))
      invariant attempts > 0 ==> lastError == ErrorText(env.attempt(attempts - 1))
    {
      var a := env.attempt(attempts);
      if Succeeds(a) {
        return ToolResult(use.id, Str(a.text), false);
      }
      lastError, attempts := ErrorText(a), attempts + 1;
    }
    return ToolResult(use.id, Str(DroppedNote(lastError)), true);
  }

  /** What happens to a call that runs beside others: it ends normally, or an exception escapes it. */
  datatype Fate = Runs(env: CallEnv) | Escapes(error: string)

  /** Results answering these calls: one each, in order, with the same ids. */
  predicate AnswersCalls(results: seq<Block>, uses: seq<Block>) {
    |results| == |uses| &&
    forall i | 0 <= i < |uses| ::
      uses[i].ToolUse? && results[i].ToolResult? && results[i].toolUseId == uses[i].id
  }

  /** The result of one call among several, each in its own surroundings. */
  function SettledTo(use: Block, fate: Fate): Block
    requires use.ToolUse?
  {
    match fate
    case Runs(env) => AnswerTo(use, env)
    case Escapes(error) => ToolResult(use.id, Str("Execution exception: " + error), true)
  }

  /** Each call has its own result, in order. */
  predicate SettlesCalls(results: seq<Block>, uses: seq<Block>, fate: nat -> Fate) {
    && AnswersCalls(results, uses)
    && forall i: nat | i < |uses| :: results[i] == SettledTo(uses[i], fate(i))
  }

  /** A lone call runs unguarded: what escapes it escapes the phase, shown as `None`. */
  method ExecuteToolsParallel(uses: seq<Block>, fate: nat -> Fate) returns (answer: Option<seq<Block>>)
    requires forall b | b in uses :: b.ToolUse?
    ensures answer.None? <==> |uses| == 1 && fate(0).Escapes?
    ensures answer.Some? ==> SettlesCalls(answer.value, uses, fate)
  {
    hide AnswerTo;
    if |uses| == 1 {
      if fate(0).Escapes? {
        return None;
      }
      var r := ExecuteSingleTool(uses[0], fate(0).env);
      return Some([r]);
    }
    var results := [];
    for i := 0 to |uses|
      invariant AnswersCalls(results, uses[..i])
      invariant forall k: nat | k < i :: results[k] == SettledTo(uses[k], fate(k))
    {
      match fate(i) {
        case Escapes(error) =>
          results := results + [ToolResult(uses[i].id, Str("Execution exception: " + error), true)];
        case Runs(env) =>
          var r := ExecuteSingleTool(uses[i], env);
          results := results + [r];
      }
    }
    assert uses[..|uses|] == uses;
    return Some(results);
  }

  /** The results put in place of a tool phase that ran out of time. */
  method TimedOutResults(uses: seq<Block>, note: string) returns (results: seq<Block>)
    requires forall b | b in uses :: b.ToolUse?
    ensures AnswersCalls(results, uses)
    ensures forall i | 0 <= i < |uses| :: results[i] == ToolResult(uses[i].id, Str(note), true)
  {
    results := seq(|uses|, i requires 0 <= i < |uses| => ToolResult(uses[i].id, Str(note), true));
  }

  lemma {:induction false} AnswersCallsIds(results: seq<Block>, uses: seq<Block>)
    requires AnswersCalls(results, uses)
    ensures ResultIds(results) == UseIds(uses)
  {
    if uses != [] {
      AnswersCallsIds(results[..|uses| - 1], uses[..|uses| - 1]);
    }
  }

  /** A message of such results completes the round of the message that made the calls. */
  lemma AnswersCompleteRound(results: seq<Block>, uses: seq<Block>, call: Message)
    requires AnswersCalls(results, uses) && uses != [] && Uses(call) == UseIds(uses)
    ensures var reply := Message(User, Blocks(results));
            ResultsOnly(reply) && Results(reply) == Uses(call)
  {
    AnswersCallsIds(results, uses);
  }
}

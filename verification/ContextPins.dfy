/** The session, and the tool results it pins against compaction. */
module ContextPins {
  import opened PyText
  import opened Messages

  datatype Pin = Pin(toolUseId: string, tool: string, summary: string)

  class SessionState {
    var messages: seq<Message>
    var stepCount: nat
    var pinnedContext: seq<Pin>

    constructor (messages: seq<Message>, stepCount: nat, pinnedContext: seq<Pin>)
      ensures this.messages == messages && this.stepCount == stepCount && this.pinnedContext == pinnedContext
    {
      this.messages := messages;
      this.stepCount := stepCount;
      this.pinnedContext := pinnedContext;
    }

    method AddMessage(m: Message)
      modifies this`messages
      ensures messages == old(messages) + [m]
    {
      messages := messages + [m];
    }
  }

  /** The parts of pinning decided by settings and text patterns. */
  datatype PinPolicy = PinPolicy(
    enabled: bool,
    maxItemsSetting: int,
    shouldPin: (string, string, bool) -> bool,
    summarize: (string, string) -> string,
    show: Block -> string)
  {
    function MaxItems(): nat {
      if maxItemsSetting > 4 then maxItemsSetting else 4
    }
  }

  function Ids(pins: seq<Pin>): set<string> {
    set p | p in pins :: p.toolUseId
  }

  /** `pinned_tool_use_ids`: what the context manager may not drop. */
  function PinnedToolUseIds(pins: seq<Pin>): set<string> {
    set p | p in pins && p.toolUseId != "" :: Strip(p.toolUseId)
  }

  /** The tool a result belongs to: the last call of the round carrying that id. */
  function ToolNameFor(uses: seq<Block>, id: string): string {
    if uses == [] then "tool"
    else
      var b := uses[|uses| - 1];
      if b.ToolUse? && b.id == id then (if Strip(b.name) == "" then "tool" else Strip(b.name))
      else ToolNameFor(uses[..|uses| - 1], id)
  }

  function ResultText(b: Block, policy: PinPolicy): string
    requires b.ToolResult?
  {
    if b.body.Str? then b.body.s else policy.show(b)
  }

  /** A result that would be pinned if its id is not pinned yet. */
  predicate Pinnable(b: Block, uses: seq<Block>, policy: PinPolicy) {
    && b.ToolResult?
    && Strip(b.toolUseId) != ""
    && policy.shouldPin(ToolNameFor(uses, Strip(b.toolUseId)), ResultText(b, policy), b.isError)
  }

  function PinFor(b: Block, uses: seq<Block>, policy: PinPolicy): Pin
    requires b.ToolResult?
  {
    var id := Strip(b.toolUseId);
    var tool := ToolNameFor(uses, id);
    Pin(id, tool, policy.summarize(tool, ResultText(b, policy)))
  }

  /** The pins after each result was considered, before trimming. */
  function Appended(pins: seq<Pin>, uses: seq<Block>, results: seq<Block>, policy: PinPolicy): seq<Pin> {
    if results == [] then pins
    else
      var before := Appended(pins, uses, results[..|results| - 1], policy);
      var b := results[|results| - 1];
      if Pinnable(b, uses, policy) && Strip(b.toolUseId) !in Ids(before)
      then before + [PinFor(b, uses, policy)] else before
  }

  function Newest(pins: seq<Pin>, n: nat): seq<Pin> {
    if |pins| > n then pins[|pins| - n..] else pins
  }

  function Recorded(pins: seq<Pin>, uses: seq<Block>, results: seq<Block>, policy: PinPolicy): seq<Pin> {
    if !policy.enabled then pins
    else Newest(Appended(pins, uses, results, policy), policy.MaxItems())
  }

  method RecordPins(session: SessionState, uses: seq<Block>, results: seq<Block>, policy: PinPolicy)
    modifies session`pinnedContext
    ensures session.pinnedContext == Recorded(old(session.pinnedContext), uses, results, policy)
  {
    if !policy.enabled {
      return;
    }
    ghost var before := session.pinnedContext;
    var existing := Ids(session.pinnedContext);
    for i := 0 to |results|
      invariant session.pinnedContext == Appended(before, uses, results[..i], policy)
      invariant existing == Ids(session.pinnedContext)
    {
      assert results[..i + 1][..i] == results[..i];
      var b := results[i];
      if !b.ToolResult? {
        continue;
      }
      var id := Strip(b.toolUseId);
      if id == "" || id in existing {
        continue;
      }
      if !policy.shouldPin(ToolNameFor(uses, id), ResultText(b, policy), b.isError) {
        continue;
      }
      IdsSnoc(session.pinnedContext, PinFor(b, uses, policy));
      session.pinnedContext := session.pinnedContext + [PinFor(b, uses, policy)];
      existing := existing + {id};
    }
    assert results[..|results|] == results;
    if |session.pinnedContext| > policy.MaxItems() {
      session.pinnedContext := session.pinnedContext[|session.pinnedContext| - policy.MaxItems()..];
    }
  }

  lemma IdsSnoc(pins: seq<Pin>, p: Pin)
    ensures Ids(pins + [p]) == Ids(pins) + {p.toolUseId}
  {
    var more := pins + [p];
    forall q | q in pins
      ensures q in more
    {
    }
    assert p in more;
  }

  // ---------- The promise over any number of rounds ----------

  /** Pins carry distinct, stripped, non-empty ids. */
  predicate CleanPins(pins: seq<Pin>) {
    && (forall i | 0 <= i < |pins| :: pins[i].toolUseId != "" && Stripped(pins[i].toolUseId))
    && (forall i, j | 0 <= i < j < |pins| :: pins[i].toolUseId != pins[j].toolUseId)
  }

  lemma {:induction false} AppendedClean(pins: seq<Pin>, uses: seq<Block>, results: seq<Block>, policy: PinPolicy)
    requires CleanPins(pins)
    ensures CleanPins(Appended(pins, uses, results, policy))
    ensures pins <= Appended(pins, uses, results, policy)
  {
    if results != [] {
      AppendedClean(pins, uses, results[..|results| - 1], policy);
      var before := Appended(pins, uses, results[..|results| - 1], policy);
      assert forall p | p in before :: p.toolUseId in Ids(before);
    }
  }

  function PinnableIds(uses: seq<Block>, results: seq<Block>, policy: PinPolicy): set<string> {
    set b | b in results && Pinnable(b, uses, policy) :: Strip(b.toolUseId)
  }

  lemma PinnableIdsLast(uses: seq<Block>, results: seq<Block>, policy: PinPolicy)
    requires results != []
    ensures var b := results[|results| - 1];
            PinnableIds(uses, results, policy) ==
            PinnableIds(uses, results[..|results| - 1], policy)
            + if Pinnable(b, uses, policy) then {Strip(b.toolUseId)} else {}
  {
    var init, b := results[..|results| - 1], results[|results| - 1];
    forall x
      ensures x in results <==> x in init || x == b
    {
      assert results == init + [b];
    }
  }

  lemma AppendedUnfolds(pins: seq<Pin>, uses: seq<Block>, results: seq<Block>, policy: PinPolicy)
    requires results != []
    ensures var b, before := results[|results| - 1], Appended(pins, uses, results[..|results| - 1], policy);
            Ids(Appended(pins, uses, results, policy)) ==
            Ids(before) + if Pinnable(b, uses, policy) then {Strip(b.toolUseId)} else {}
  {
    var b, before := results[|results| - 1], Appended(pins, uses, results[..|results| - 1], policy);
    if Pinnable(b, uses, policy) {
      IdsSnoc(before, PinFor(b, uses, policy));
    }
  }

  /** Considering results pins exactly the pinnable ones among them. */
  lemma {:induction false} AppendedIds(pins: seq<Pin>, uses: seq<Block>, results: seq<Block>, policy: PinPolicy)
    ensures Ids(Appended(pins, uses, results, policy)) == Ids(pins) + PinnableIds(uses, results, policy)
  {
    if results == [] {
      assert PinnableIds(uses, results, policy) == {};
    } else {
      AppendedIds(pins, uses, results[..|results| - 1], policy);
      AppendedUnfolds(pins, uses, results, policy);
      PinnableIdsLast(uses, results, policy);
    }
  }

  /** One tool round as the pin recorder sees it. */
  datatype Round = Round(uses: seq<Block>, results: seq<Block>)

  function RecordedOver(rounds: seq<Round>, policy: PinPolicy): seq<Pin> {
    if rounds == [] then []
    else
      var last := rounds[|rounds| - 1];
      Recorded(RecordedOver(rounds[..|rounds| - 1], policy), last.uses, last.results, policy)
  }

  lemma NothingIsClean()
    ensures CleanPins([])
  {
  }

  lemma SuffixClean(pins: seq<Pin>, from: nat)
    requires CleanPins(pins) && from <= |pins|
    ensures CleanPins(pins[from..])
  {
    hide Stripped;
    var rest := pins[from..];
    forall i | 0 <= i < |rest|
      ensures rest[i].toolUseId != "" && Stripped(rest[i].toolUseId)
    {
      assert rest[i] == pins[from + i];
    }
    forall i, j | 0 <= i < j < |rest|
      ensures rest[i].toolUseId != rest[j].toolUseId
    {
      assert rest[i] == pins[from + i] && rest[j] == pins[from + j];
    }
  }

  lemma NewestClean(pins: seq<Pin>, n: nat)
    requires CleanPins(pins)
    ensures var newest := Newest(pins, n);
            && CleanPins(newest) && |newest| <= n && |newest| <= |pins| && newest == pins[|pins| - |newest|..]
            && (|newest| < |pins| ==> |newest| == n)
  {
    hide CleanPins;
    SuffixClean(pins, if |pins| > n then |pins| - n else 0);
    assert pins[0..] == pins;
  }

  /**
   Over any sequence of rounds the pins keep distinct ids, stay within the cap, and end with
   the newest ones: everything pinned by the last round is there unless the cap cut it.
   */
  lemma {:induction false} PinsStayClean(rounds: seq<Round>, policy: PinPolicy)
    ensures var pins := RecordedOver(rounds, policy);
            CleanPins(pins) && |pins| <= policy.MaxItems()
    ensures rounds != [] && policy.enabled ==>
              var last := rounds[|rounds| - 1];
              var all := Appended(RecordedOver(rounds[..|rounds| - 1], policy), last.uses, last.results, policy);
              var pins := RecordedOver(rounds, policy);
              |pins| <= |all| && pins == all[|all| - |pins|..] &&
              (|pins| < |all| ==> |pins| == policy.MaxItems())
  {
    hide Appended, CleanPins, Newest;
    NothingIsClean();
    if rounds != [] {
      PinsStayClean(rounds[..|rounds| - 1], policy);
      var last := rounds[|rounds| - 1];
      var before := RecordedOver(rounds[..|rounds| - 1], policy);
      AppendedClean(before, last.uses, last.results, policy);
      NewestClean(Appended(before, last.uses, last.results, policy), policy.MaxItems());
    }
  }

  // ---------- What a pin says ----------

  /** A pin names the tool its result belongs to, and sums the result up. */
  predicate Tells(p: Pin, b: Block, uses: seq<Block>, policy: PinPolicy) {
    && b.ToolResult? && p.toolUseId == Strip(b.toolUseId)
    && p.summary == policy.summarize(p.tool, if b.body.Str? then b.body.s else policy.show(b))
    && BelongsTo(p.tool, uses, Strip(b.toolUseId))
  }

  /** The name of the last call under an id, or "tool" when no call, or one without a name, has it. */
  predicate BelongsTo(tool: string, uses: seq<Block>, id: string) {
    || (tool == "tool" && forall b | b in uses && b.ToolUse? :: b.id != id)
    || exists k: nat | k < |uses| :: CallsLast(tool, uses, id, k)
  }

  predicate CallsLast(tool: string, uses: seq<Block>, id: string, k: nat) {
    && k < |uses| && uses[k].ToolUse? && uses[k].id == id
    && (forall j | k < j < |uses| && uses[j].ToolUse? :: uses[j].id != id)
    && tool == if Strip(uses[k].name) == "" then "tool" else Strip(uses[k].name)
  }

  lemma {:induction false} NameBelongs(uses: seq<Block>, id: string)
    ensures BelongsTo(ToolNameFor(uses, id), uses, id)
  {
    hide Strip;
    if uses != [] {
      var n := |uses| - 1;
      var tool := ToolNameFor(uses, id);
      if uses[n].ToolUse? && uses[n].id == id {
        assert CallsLast(tool, uses, id, n);
      } else {
        NameBelongs(uses[..n], id);
        BelongsFurther(tool, uses, id);
      }
    }
  }

  lemma BelongsFurther(tool: string, uses: seq<Block>, id: string)
    requires uses != [] && BelongsTo(tool, uses[..|uses| - 1], id)
    requires var b := uses[|uses| - 1]; b.ToolUse? ==> b.id != id
    ensures BelongsTo(tool, uses, id)
  {
    hide Strip;
    var init := uses[..|uses| - 1];
    if k: nat :| k < |init| && CallsLast(tool, init, id, k) {
      assert CallsLast(tool, uses, id, k);
    } else {
      forall b | b in uses && b.ToolUse?
        ensures b.id != id
      {
        var j :| 0 <= j < |uses| && uses[j] == b;
        assert j < |init| ==> init[j] in init;
      }
    }
  }

  /** Every pin that recording adds tells of one of the round's pinnable results. */
  lemma {:induction false} NewPinsTell(pins: seq<Pin>, uses: seq<Block>, results: seq<Block>, policy: PinPolicy, k: nat)
    requires |pins| <= k < |Appended(pins, uses, results, policy)|
    ensures exists b :: b in results && Pinnable(b, uses, policy) && Tells(Appended(pins, uses, results, policy)[k], b, uses, policy)
  {
    hide Pinnable, Tells;
    if results != [] {
      var init, b := results[..|results| - 1], results[|results| - 1];
      var before := Appended(pins, uses, init, policy);
      if k < |before| {
        NewPinsTell(pins, uses, init, policy, k);
        var c :| c in init && Pinnable(c, uses, policy) && Tells(before[k], c, uses, policy);
        assert c in results;
      } else {
        PinTells(b, uses, policy);
        assert b in results;
      }
    }
  }

  lemma PinTells(b: Block, uses: seq<Block>, policy: PinPolicy)
    requires Pinnable(b, uses, policy)
    ensures b.ToolResult? && Tells(PinFor(b, uses, policy), b, uses, policy)
  {
    hide ToolNameFor, Strip, BelongsTo;
    NameBelongs(uses, Strip(b.toolUseId));
  }
}

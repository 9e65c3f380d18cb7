/**
 What a chat says: every result, every call and every text of the history is in it, each once and
 in order. The history is read block by block here, without the functions that build the chat.
 */
module OpenAiContents {
  import opened PyText
  import opened Lines
  import opened Collections
  import opened Messages
  import opened OpenAiWire

  // ---------- Reading a chat ----------

  /** Reading a chat is reading what each message became. */
  lemma {:induction false} CollectChat<B>(ms: seq<Message>, r: Renderer, said: Wire -> seq<B>, meant: Message -> seq<B>)
    requires forall m | m in ms :: Collect(WireOf(m, r), said) == meant(m)
    ensures Collect(WireAll(ms, r), said) == Collect(ms, meant)
  {
    if ms != [] {
      var init, m := ms[..|ms| - 1], ms[|ms| - 1];
      CollectChat(init, r, said, meant);
      assert Chunks(ms, r)[..|ms| - 1] == Chunks(init, r);
      CollectConcat(WireAll(init, r), WireOf(m, r), said);
    }
  }

  // ---------- Results ----------

  /** The results in one message, with the calls they answer. A message with an image answers none. */
  function ResultsIn(r: Renderer): Message -> seq<(string, string)> {
    (m: Message) =>
      if m.role.User? && m.content.Blocks? && !HasImage(m.content.blocks) then
        Collect(m.content.blocks, ResultIn(r))
      else []
  }

  function ResultIn(r: Renderer): Block -> seq<(string, string)> {
    (b: Block) =>
      match b
      case ToolResult(id, Str(text), _) => [(id, text)]
      case ToolResult(id, Structured, _) => [(id, r.show(b))]
      case _ => []
  }

  const AnswerSaid: Wire -> seq<(string, string)> :=
    (w: Wire) => if w.ToolReply? then [(w.callId, w.content)] else []

  lemma {:induction false} RepliesSay(bs: seq<Block>, r: Renderer)
    ensures Collect(RepliesOf(bs, r), AnswerSaid) == Collect(bs, ResultIn(r))
  {
    if bs != [] {
      var init, b := bs[..|bs| - 1], bs[|bs| - 1];
      RepliesSay(init, r);
      if b.ToolResult? {
        CollectSnoc(RepliesOf(init, r), ReplyFor(b, r), AnswerSaid);
        assert AnswerSaid(ReplyFor(b, r)) == ResultIn(r)(b);
      } else {
        assert RepliesOf(bs, r) == RepliesOf(init, r);
        assert ResultIn(r)(b) == [] && Collect(init, ResultIn(r)) + [] == Collect(init, ResultIn(r));
      }
    }
  }

  lemma WireSaysResults(m: Message, r: Renderer)
    ensures Collect(WireOf(m, r), AnswerSaid) == ResultsIn(r)(m)
  {
    match m.content
    case Plain(text) => CollectOne(Chat(m.role, text), AnswerSaid);
    case Blocks(bs) =>
      if m.role.User? && HasImage(bs) {
        CollectOne(Multimodal(PartsOf(bs, r)), AnswerSaid);
      } else if m.role.Assistant? {
        assert WireOf(m, r) == [AssistantWire(bs, r)];
        CollectOne(AssistantWire(bs, r), AnswerSaid);
      } else {
        var text := Strip(JoinNonEmpty(UserTexts(bs, r)));
        var front := if text != "" then [Chat(User, text)] else [];
        RepliesSay(bs, r);
        assert WireOf(m, r) == front + RepliesOf(bs, r);
        CollectConcat(front, RepliesOf(bs, r), AnswerSaid);
        CollectOne(Chat(User, text), AnswerSaid);
        assert Collect(front, AnswerSaid) == [];
      }
  }

  /** The tool messages of a chat are the results of the history: the same ids, texts and order. */
  lemma EveryResultIsSent(ms: seq<Message>, r: Renderer)
    ensures Collect(WireAll(ms, r), AnswerSaid) == Collect(ms, ResultsIn(r))
  {
    forall m | m in ms
      ensures Collect(WireOf(m, r), AnswerSaid) == ResultsIn(r)(m)
    {
      WireSaysResults(m, r);
    }
    CollectChat(ms, r, AnswerSaid, ResultsIn(r));
  }

  // ---------- Calls ----------

  /** A call as the history makes it; without `named`, no matter under which id. */
  datatype Called = Called(id: string, name: string, arguments: string)

  function CallIn(named: bool): Block -> seq<Called> {
    (b: Block) => if b.ToolUse? then [Called(if named then b.id else "", b.name, b.input)] else []
  }

  function CallsIn(named: bool): Message -> seq<Called> {
    (m: Message) => if m.role.Assistant? && m.content.Blocks? then Collect(m.content.blocks, CallIn(named)) else []
  }

  function CallSaid(named: bool): Call -> seq<Called> {
    (c: Call) => [Called(if named then c.id else "", c.name, c.arguments)]
  }

  function CallsSaid(named: bool): Wire -> seq<Called> {
    (w: Wire) => if w.AssistantTurn? then Collect(w.calls, CallSaid(named)) else []
  }

  lemma {:induction false} CallsSay(bs: seq<Block>, named: bool)
    requires named ==> "" !in UseIds(bs)
    ensures Collect(CallsOf(bs), CallSaid(named)) == Collect(bs, CallIn(named))
  {
    hide Dec;
    if bs != [] {
      var init, b := bs[..|bs| - 1], bs[|bs| - 1];
      if named {
        IdsOfFront(bs);
      }
      CallsSay(init, named);
      if b.ToolUse? {
        var call := CallFor(b, |CallsOf(init)|);
        CollectSnoc(CallsOf(init), call, CallSaid(named));
        assert CallSaid(named)(call) == CallIn(named)(b);
      } else {
        assert CallsOf(bs) == CallsOf(init);
        assert Collect(init, CallIn(named)) + [] == Collect(init, CallIn(named));
      }
    }
  }

  lemma IdsOfFront(bs: seq<Block>)
    requires bs != [] && "" !in UseIds(bs)
    ensures "" !in UseIds(bs[..|bs| - 1]) && (bs[|bs| - 1].ToolUse? ==> bs[|bs| - 1].id != "")
  {
    var b := bs[|bs| - 1];
    var before := UseIds(bs[..|bs| - 1]);
    assert forall x | x in before :: x in before + if b.ToolUse? then [b.id] else [];
    assert b.ToolUse? ==> (before + [b.id])[|before|] == b.id;
  }

  lemma WireSaysCalls(m: Message, r: Renderer, named: bool)
    requires named ==> "" !in Uses(m)
    ensures Collect(WireOf(m, r), CallsSaid(named)) == CallsIn(named)(m)
  {
    hide Strip, JoinNonEmpty;
    match m.content
    case Plain(text) => CollectOne(Chat(m.role, text), CallsSaid(named));
    case Blocks(bs) =>
      if m.role.User? && HasImage(bs) {
        CollectOne(Multimodal(PartsOf(bs, r)), CallsSaid(named));
      } else if m.role.Assistant? {
        CallsSay(bs, named);
        assert WireOf(m, r) == [AssistantWire(bs, r)];
        CollectOne(AssistantWire(bs, r), CallsSaid(named));
      } else {
        UserCallsNothing(bs, r, named);
      }
  }

  lemma UserCallsNothing(bs: seq<Block>, r: Renderer, named: bool)
    ensures Collect(UserWire(bs, r), CallsSaid(named)) == []
  {
    hide Strip, JoinNonEmpty;
    NoTurns(bs, r);
    SilentCollect(UserWire(bs, r), CallsSaid(named));
  }

  lemma {:induction false} NoTurns(bs: seq<Block>, r: Renderer)
    ensures forall w | w in RepliesOf(bs, r) :: w.ToolReply?
  {
    if bs != [] {
      NoTurns(bs[..|bs| - 1], r);
    }
  }

  /** The calls of a chat are those of the history: the same names, arguments and order, and ids where there are any. */
  lemma EveryCallIsSent(ms: seq<Message>, r: Renderer, named: bool)
    requires named ==> CallsHaveIds(ms)
    ensures Collect(WireAll(ms, r), CallsSaid(named)) == Collect(ms, CallsIn(named))
  {
    forall m | m in ms
      ensures Collect(WireOf(m, r), CallsSaid(named)) == CallsIn(named)(m)
    {
      WireSaysCalls(m, r, named);
    }
    CollectChat(ms, r, CallsSaid(named), CallsIn(named));
  }

  // ---------- Texts ----------

  /** The texts of a block that is not spoken of otherwise; `silent` blocks become calls or answers. */
  function TextIn(r: Renderer, role: Role): Block -> seq<string> {
    (b: Block) =>
      match b
      case Text(text) => [text]
      case ToolUse(_, _, _) => if role.Assistant? then [] else [r.dumps(b)]
      case ToolResult(_, _, _) => if role.User? then [] else [r.dumps(b)]
      case _ => [r.dumps(b)]
  }

  /** What is seen of a message by whoever reads the chat: text, or text and pictures. */
  datatype Said = SaidText(role: Role, text: string) | SaidParts(parts: seq<Part>)

  function Says(w: Wire): seq<Said> {
    match w
    case Chat(role, text) => [SaidText(role, text)]
    case Multimodal(parts) => [SaidParts(parts)]
    case AssistantTurn(spoken, _) => [SaidText(Assistant, if spoken.Some? then spoken.value else "")]
    case ToolReply(_, _) => []
  }

  /** A picture goes as a data URL, if there is one; everything else as text. */
  function PartIn(r: Renderer): Block -> seq<Part> {
    (b: Block) =>
      match b
      case Image(true, mediaType, data) =>
        if data == "" then []
        else if mediaType == "" then [ImageUrl("data:image/png;base64," + data)]
        else [ImageUrl("data:" + mediaType + ";base64," + data)]
      case Image(false, _, _) => []
      case Text(text) => [TextPart(text)]
      case _ => [TextPart(r.dumps(b))]
  }

  function Spoken(bs: seq<Block>, r: Renderer, role: Role): string {
    Strip(JoinNonEmpty(Collect(bs, TextIn(r, role))))
  }

  function Meant(r: Renderer): Message -> seq<Said> {
    (m: Message) =>
      match m.content
      case Plain(text) => [SaidText(m.role, text)]
      case Blocks(bs) =>
        if m.role.User? && (exists b :: b in bs && b.Image?) then [SaidParts(Collect(bs, PartIn(r)))]
        else if m.role.User? && Spoken(bs, r, User) == "" then []
        else [SaidText(m.role, Spoken(bs, r, m.role))]
  }

  lemma {:induction false} TextsAgree(bs: seq<Block>, r: Renderer)
    ensures AssistantTexts(bs, r) == Collect(bs, TextIn(r, Assistant))
    ensures UserTexts(bs, r) == Collect(bs, TextIn(r, User))
  {
    if bs != [] {
      TextsAgree(bs[..|bs| - 1], r);
    }
  }

  lemma {:induction false} PartsAgree(bs: seq<Block>, r: Renderer)
    ensures PartsOf(bs, r) == Collect(bs, PartIn(r))
  {
    if bs != [] {
      PartsAgree(bs[..|bs| - 1], r);
      PartAgrees(bs[|bs| - 1], r);
    }
  }

  lemma PartAgrees(b: Block, r: Renderer)
    ensures PartFor(b, r) == PartIn(r)(b)
  {
    if b.Image? {
      assert "data:" + "image/png" + ";base64," == "data:image/png;base64,";
    }
  }

  lemma {:induction false} RepliesAreSilent(bs: seq<Block>, r: Renderer)
    ensures Collect(RepliesOf(bs, r), Says) == []
  {
    NoTurns(bs, r);
    SilentCollect(RepliesOf(bs, r), Says);
  }

  lemma WireSaysTexts(m: Message, r: Renderer)
    ensures Collect(WireOf(m, r), Says) == Meant(r)(m)
  {
    hide Strip, JoinNonEmpty;
    match m.content
    case Plain(text) => CollectOne(Chat(m.role, text), Says);
    case Blocks(bs) =>
      TextsAgree(bs, r);
      if m.role.User? && HasImage(bs) {
        PartsAgree(bs, r);
        CollectOne(Multimodal(PartsOf(bs, r)), Says);
      } else if m.role.Assistant? {
        CollectOne(AssistantWire(bs, r), Says);
      } else {
        var text := Strip(JoinNonEmpty(UserTexts(bs, r)));
        var front := if text != "" then [Chat(User, text)] else [];
        RepliesAreSilent(bs, r);
        CollectConcat(front, RepliesOf(bs, r), Says);
        CollectOne(Chat(User, text), Says);
        assert Collect(front, Says) + [] == Collect(front, Says);
      }
  }

  /** What a chat says is what the history says: every text, in order, under the role it had. */
  lemma EveryTextIsSent(ms: seq<Message>, r: Renderer)
    ensures Collect(WireAll(ms, r), Says) == Collect(ms, Meant(r))
  {
    forall m | m in ms
      ensures Collect(WireOf(m, r), Says) == Meant(r)(m)
    {
      WireSaysTexts(m, r);
    }
    CollectChat(ms, r, Says, Meant(r));
  }

  /** The text of a user message goes before the results in it. */
  lemma TextBeforeResults(bs: seq<Block>, r: Renderer, i: nat, j: nat)
    requires i < j < |UserWire(bs, r)| && UserWire(bs, r)[i].ToolReply?
    ensures UserWire(bs, r)[j].ToolReply?
  {
    hide Strip, JoinNonEmpty;
    NoTurns(bs, r);
  }

  // ---------- No text is lost in joining ----------

  function NonEmpty(part: string): seq<string> { if part == "" then [] else [part] }

  /** The parts that are not empty, on lines of their own. */
  lemma {:induction false} JoinedByLines(parts: seq<string>)
    ensures JoinNonEmpty(parts) == JoinLines(Collect(parts, NonEmpty))
    ensures Collect(parts, NonEmpty) == [] <==> JoinNonEmpty(parts) == ""
  {
    if parts != [] {
      var init, last := parts[..|parts| - 1], parts[|parts| - 1];
      JoinedByLines(init);
      var before := Collect(init, NonEmpty);
      if last == "" {
        assert before + [] == before;
      } else {
        JoinSnoc(before, last);
      }
    }
  }

  /** `part` stands in `text`, from `at` on. */
  predicate HoldsAt(text: string, part: string, at: nat) {
    at + |part| <= |text| && forall i | 0 <= i < |part| :: text[at + i] == part[i]
  }

  lemma {:induction false} JoinHolds(parts: seq<string>, k: nat) returns (at: nat)
    requires k < |parts|
    ensures HoldsAt(JoinNonEmpty(parts), parts[k], at)
  {
    hide HoldsAt;
    var init, last := parts[..|parts| - 1], parts[|parts| - 1];
    var before := JoinNonEmpty(init);
    var rest := if before == "" then last else if last == "" then "" else "\n" + last;
    assert JoinNonEmpty(parts) == before + rest by {
      assert before + "" == before && "" + last == last && before + "\n" + last == before + ("\n" + last);
    }
    if k < |init| {
      at := JoinHolds(init, k);
      HoldsInFront(before, rest, parts[k], at);
    } else {
      at := |before| + |rest| - |last|;
      HoldsAtEnd(before + rest, last);
    }
  }

  lemma HoldsInFront(front: string, rest: string, part: string, at: nat)
    requires HoldsAt(front, part, at)
    ensures HoldsAt(front + rest, part, at)
  {
  }

  lemma HoldsAtEnd(text: string, part: string)
    requires |part| <= |text| && text[|text| - |part|..] == part
    ensures HoldsAt(text, part, |text| - |part|)
  {
  }

  /** Stripping cuts white space off both ends and nothing else. */
  lemma {:induction false} LStripCuts(s: string) returns (n: nat)
    ensures n <= |s| && LStrip(s) == s[n..] && forall i | 0 <= i < n :: IsSpace(s[i])
  {
    if s != "" && IsSpace(s[0]) {
      n := LStripCuts(s[1..]);
      assert forall i | 0 < i < n + 1 :: s[i] == s[1..][i - 1];
      n := n + 1;
    } else {
      n := 0;
    }
  }

  lemma {:induction false} RStripCuts(s: string) returns (n: nat)
    ensures n <= |s| && RStrip(s) == s[..n] && forall i | n <= i < |s| :: IsSpace(s[i])
  {
    if s != "" && IsSpace(s[|s| - 1]) {
      n := RStripCuts(s[..|s| - 1]);
    } else {
      n := |s|;
    }
  }

  lemma StripCuts(s: string) returns (a: nat)
    ensures HoldsAt(s, Strip(s), a)
    ensures forall i | 0 <= i < |s| && !(a <= i < a + |Strip(s)|) :: IsSpace(s[i])
  {
    hide LStrip, RStrip, IsSpace;
    a := LStripCuts(s);
    var n := RStripCuts(s[a..]);
    forall i | 0 <= i < |s| && !(a <= i < a + n)
      ensures IsSpace(s[i])
    {
      if i >= a + n {
        assert s[i] == s[a..][i - a];
      }
    }
  }

  lemma StripHolds(text: string, part: string, at: nat) returns (there: nat)
    requires HoldsAt(text, part, at) && Strip(part) != ""
    ensures HoldsAt(Strip(text), Strip(part), there)
  {
    hide IsSpace, Strip;
    var core, whole := Strip(part), Strip(text);
    var a := StripCuts(text);
    var c := StripCuts(part);
    StrippedEnds(part);
    assert text[at + c] == part[c + 0] == core[0];
    var last := |core| - 1;
    assert text[at + (c + last)] == part[c + last] == core[last];
    assert a <= at + c && at + c + last < a + |whole|;
    there := at + c - a;
    forall i | 0 <= i < |core|
      ensures whole[there + i] == core[i]
    {
      assert part[c + i] == core[i] && text[at + (c + i)] == part[c + i] && text[a + (there + i)] == whole[there + i];
    }
  }

  lemma StrippedEnds(s: string)
    requires Strip(s) != ""
    ensures !IsSpace(Strip(s)[0]) && !IsSpace(Strip(s)[|Strip(s)| - 1])
  {
    hide IsSpace, LStrip, RStrip;
    assert Stripped(Strip(s));
  }

  lemma {:induction false} TextIsCollected(bs: seq<Block>, r: Renderer, role: Role, k: nat) returns (j: nat)
    requires k < |bs| && bs[k].Text?
    ensures j < |Collect(bs, TextIn(r, role))| && Collect(bs, TextIn(r, role))[j] == bs[k].text
  {
    if k == |bs| - 1 {
      j := |Collect(bs[..k], TextIn(r, role))|;
    } else {
      j := TextIsCollected(bs[..|bs| - 1], r, role, k);
    }
  }

  /** Every text block that is not blank is spoken, but for white space around it. */
  lemma EveryTextIsSpoken(bs: seq<Block>, r: Renderer, role: Role, k: nat) returns (at: nat)
    requires k < |bs| && bs[k].Text? && Strip(bs[k].text) != ""
    ensures HoldsAt(Spoken(bs, r, role), Strip(bs[k].text), at)
  {
    hide Strip, JoinNonEmpty, HoldsAt;
    var j := TextIsCollected(bs, r, role, k);
    var inJoin := JoinHolds(Collect(bs, TextIn(r, role)), j);
    at := StripHolds(JoinNonEmpty(Collect(bs, TextIn(r, role))), bs[k].text, inJoin);
  }
}

/**
 The streaming filter that keeps inline tool-call markup out of the visible text. Regular
 expressions and the JSON decoder are oracles; only how much they consume matters.
 */
module Sanitize {
  import opened PyText
  import opened Lines

  datatype DecodedJson = DecodedJson(end: nat, isToolCall: bool)

  /**
   What the patterns find in a text. A head or closing pattern gives the end of its match at the
   start of the text, a search the place of its first match, a partial marker the place to cut.
   */
  datatype Patterns = Patterns(
    callHead: string -> Option<nat>,
    angleHead: string -> Option<nat>,
    angleClose: string -> Option<nat>,
    bracketHead: string -> Option<nat>,
    bracketCloseAt: string -> Option<nat>,
    bracketCloseHead: string -> Option<nat>,
    jsonHead: string -> bool,
    findJson: string -> Option<nat>,
    findAngle: string -> Option<nat>,
    findCall: string -> Option<nat>,
    findBracket: string -> Option<nat>,
    decode: string -> Option<DecodedJson>,
    partialJson: string -> Option<nat>,
    partialCall: string -> Option<nat>,
    partialAngle: string -> Option<nat>,
    partialBracket: string -> Option<nat>)

  ghost predicate Within(find: string -> Option<nat>, least: nat) {
    forall s {:trigger find(s)} :: find(s).Some? ==> least <= find(s).value <= |s|
  }

  /** A search finds its match inside the text. */
  ghost predicate Inside(find: string -> Option<nat>) {
    forall s {:trigger find(s)} :: find(s).Some? ==> find(s).value < |s|
  }

  /**
   What is assumed of the patterns and the decoder: heads and decoded objects are not empty, and
   nothing reaches past the end of the text. A text that begins with a brace has none of the other
   heads, and only such a text decodes to a tool object.
   */
  ghost predicate Lawful(p: Patterns) {
    && Within(p.callHead, 1) && Within(p.angleHead, 1) && Within(p.bracketHead, 1)
    && Within(p.angleClose, 0) && Within(p.bracketCloseHead, 0)
    && Inside(p.findJson) && Inside(p.findAngle) && Inside(p.findCall) && Inside(p.findBracket)
    && Inside(p.bracketCloseAt) && Inside(p.partialJson) && Inside(p.partialCall) && Inside(p.partialAngle) && Inside(p.partialBracket)
    && (forall s {:trigger p.decode(s)} :: p.decode(s).Some? ==>
         1 <= p.decode(s).value.end <= |s| && (p.decode(s).value.isToolCall ==> s[0] == '{'))
    && (forall s {:trigger HeadMarked(p, s)} :: HeadMarked(p, s) ==> s != "" && s[0] != '{')
    && (forall s {:trigger FrontOf(p, s)} :: p.findJson(s).Some? ==> LawfulFront(p, s, FrontOf(p, s)))
  }

  /** The text before its first tool-object marker. */
  function FrontOf(p: Patterns, s: string): string {
    if p.findJson(s).Some? then Take(s, p.findJson(s).value) else s
  }

  /**
   What stands before the first marker holds none, and an object that cannot be decoded, or has a
   head there (in any case of letters), stays one when cut short in front of it.
   */
  predicate LawfulFront(p: Patterns, s: string, front: string) {
    && p.findJson(front).None?
    && (front != "" && OpenObject(p, s) ==> OpenObject(p, front))
  }

  const HEAD_WINDOW := 8192

  // ---------- Small helpers ----------

  predicate IsBreak(c: char) { c == '\n' || c == '\r' }

  /** Python's `s[i:]`, which clips. */
  function Drop(s: string, i: nat): string { if i <= |s| then s[i..] else "" }

  /** Python's `s[:i]`, which clips. */
  function Take(s: string, i: nat): string { if i <= |s| then s[..i] else s }

  /** Only line breaks are eaten, never spaces. */
  method EatLeadingNewlinesOnly(s: string) returns (rest: string, ghost eaten: string)
    ensures s == eaten + rest && (forall c | c in eaten :: IsBreak(c))
    ensures rest != "" ==> !IsBreak(rest[0])
  {
    var i := 0;
    while i < |s| && IsBreak(s[i])
      invariant i <= |s| && forall k | 0 <= k < i :: IsBreak(s[k])
    {
      i := i + 1;
    }
    rest, eaten := s[i..], s[..i];
  }

  function Earlier(a: Option<nat>, b: Option<nat>): Option<nat> {
    if a.None? then b else if b.None? || a.value <= b.value then a else b
  }

  /** Where the first marker of any kind starts. */
  function FirstToolMarker(p: Patterns, s: string): Option<nat> {
    Earlier(Earlier(Earlier(p.findJson(s), p.findAngle(s)), p.findCall(s)), p.findBracket(s))
  }

  /** The first kind of partial marker the text ends with gives the place to hold from. */
  function PartialMarker(p: Patterns, s: string): Option<nat> {
    if p.partialJson(s).Some? then p.partialJson(s)
    else if p.partialCall(s).Some? then p.partialCall(s)
    else if p.partialAngle(s).Some? then p.partialAngle(s)
    else p.partialBracket(s)
  }

  predicate StartsJsonTool(p: Patterns, s: string) {
    p.decode(s).Some? && p.decode(s).value.isToolCall
  }

  /** The text begins like a tool object and cannot be decoded. */
  predicate OpenObject(p: Patterns, s: string) {
    s != "" && s[0] == '{' && p.decode(s).None? && p.jsonHead(Take(s, HEAD_WINDOW))
  }

  predicate HeadMarked(p: Patterns, s: string) {
    p.bracketHead(s).Some? || p.callHead(s).Some? || p.angleHead(s).Some?
  }

  /** The text begins with tool-call markup that one of the four strips takes on. */
  predicate Taken(p: Patterns, s: string) {
    HeadMarked(p, s) || StartsJsonTool(p, s) || OpenObject(p, s)
  }

  /** The text begins with a tool-object marker that no strip takes on. */
  predicate ObjectMarked(p: Patterns, s: string) {
    FirstToolMarker(p, s) == Some(0) && p.jsonHead(s)
  }

  // ---------- How far markup reaches ----------

  /** A `[TOOL_CALL]` span reaches behind its closing marker, once that has come. */
  function BracketExtent(p: Patterns, s: string): Option<nat>
    requires Lawful(p)
  {
    if p.bracketHead(s).None? then None
    else
      var rest := s[p.bracketHead(s).value..];
      if p.bracketCloseAt(rest).None? then None
      else
        var fromClose := Drop(rest, p.bracketCloseAt(rest).value);
        if p.bracketCloseHead(fromClose).None? then None
        else Some(|s| - |fromClose| + p.bracketCloseHead(fromClose).value)
  }

  /** A `[Call X]:` reaches behind its JSON, or is the head alone when no JSON can follow. */
  function CallExtent(p: Patterns, s: string, eof: bool): Option<nat>
    requires Lawful(p)
  {
    if p.callHead(s).None? then None
    else
      var m := p.callHead(s).value;
      var rest := s[m..];
      if Strip(rest) == "" then None
      else if p.decode(rest).Some? then Some(m + p.decode(rest).value.end)
      else if eof || StartsWith(LStrip(rest), "{") then None
      else Some(m)
  }

  /** A `<tool_call> [X]` reaches behind its JSON and closing tag; at the end the tag may be missing. */
  function AngleExtent(p: Patterns, s: string, eof: bool): Option<nat>
    requires Lawful(p)
  {
    if p.angleHead(s).None? then None
    else
      var m := p.angleHead(s).value;
      var rest := s[m..];
      if Strip(rest) == "" then None
      else if p.decode(LStrip(rest)).Some? then
        var end := |s| - |LStrip(rest)| + p.decode(LStrip(rest)).value.end;
        if p.angleClose(s[end..]).Some? then Some(end + p.angleClose(s[end..]).value)
        else if eof then Some(end) else None
      else if eof || StartsWith(LStrip(rest), "{") then None
      else Some(m)
  }

  /** Where the markup at the head of a text ends; `eof` when no more text will come. */
  function MarkupExtent(p: Patterns, s: string, eof: bool): Option<nat>
    requires Lawful(p)
  {
    if p.bracketHead(s).Some? then BracketExtent(p, s)
    else if p.callHead(s).Some? then CallExtent(p, s, eof)
    else if p.angleHead(s).Some? then AngleExtent(p, s, eof)
    else if StartsJsonTool(p, s) then Some(p.decode(s).value.end)
    else None
  }

  /** How much of a text without markup at its head is shown at once. */
  function VisibleExtent(p: Patterns, s: string, eof: bool): nat
    requires Lawful(p)
  {
    var m := FirstToolMarker(p, s);
    if m.Some? && m.value > 0 then m.value
    else if eof then |s|
    else if m.Some? then 1
    else if PartialMarker(p, s).Some? then PartialMarker(p, s).value
    else |s|
  }

  /** The first marker is found by one of the four searches, and none finds an earlier one. */
  lemma NoEarlierMarker(p: Patterns, s: string)
    ensures var m := FirstToolMarker(p, s);
            && (m.None? <==> p.findJson(s).None? && p.findAngle(s).None? && p.findCall(s).None? && p.findBracket(s).None?)
            && (m.Some? ==> m in {p.findJson(s), p.findAngle(s), p.findCall(s), p.findBracket(s)})
            && forall found | found in {p.findJson(s), p.findAngle(s), p.findCall(s), p.findBracket(s)} && found.Some? ::
                 m.value <= found.value
  {
  }

  /**
   Text that is shown holds no marker but at its very first character: it stops where the first
   search finds one. Where a marker stands first that is no head, one character is shown, or at the
   end of the stream the rest.
   */
  lemma VisibleStopsAtMarker(p: Patterns, s: string, eof: bool)
    requires Lawful(p)
    ensures forall found | found in {p.findJson(s), p.findAngle(s), p.findCall(s), p.findBracket(s)} && found.Some? ::
              found.value == 0 || found.value >= VisibleExtent(p, s, eof) ||
              (eof && Some(0) in {p.findJson(s), p.findAngle(s), p.findCall(s), p.findBracket(s)})
    ensures FirstToolMarker(p, s) == Some(0) ==> VisibleExtent(p, s, eof) == if eof then |s| else 1
    ensures FirstToolMarker(p, s).None? ==>
              VisibleExtent(p, s, eof) == if !eof && PartialMarker(p, s).Some? then PartialMarker(p, s).value else |s|
  {
    hide PartialMarker, FirstToolMarker;
    NoEarlierMarker(p, s);
  }

  /** How many characters of white space a text begins with. */
  function Blanks(s: string): nat { |s| - |LStrip(s)| }

  /**
   Where markup ends, added up from what the patterns and the decoder take: head, text up to the
   closing marker and the marker; or head and object; or head, white space, object and closing tag.
   */
  lemma ExtentAddsUp(p: Patterns, s: string, eof: bool, end: nat)
    requires Lawful(p) && MarkupExtent(p, s, eof) == Some(end)
    ensures 0 < end <= |s|
    ensures p.bracketHead(s).Some? ==>
              var h := p.bracketHead(s).value;
              && p.bracketCloseAt(s[h..]).Some?
              && (var c := h + p.bracketCloseAt(s[h..]).value;
                  c <= |s| && p.bracketCloseHead(s[c..]).Some? && end == c + p.bracketCloseHead(s[c..]).value)
    ensures p.bracketHead(s).None? && p.callHead(s).Some? ==>
              var h := p.callHead(s).value;
              && Strip(s[h..]) != ""
              && end == h + (if p.decode(s[h..]).Some? then p.decode(s[h..]).value.end else 0)
              && (p.decode(s[h..]).None? ==> !eof && !StartsWith(LStrip(s[h..]), "{"))
    ensures p.bracketHead(s).None? && p.callHead(s).None? && p.angleHead(s).Some? ==>
              var h := p.angleHead(s).value;
              var o := h + Blanks(s[h..]);
              && o <= |s| && Strip(s[h..]) != ""
              && (p.decode(LStrip(s[h..])).None? ==> end == h && !eof && !StartsWith(LStrip(s[h..]), "{"))
              && (p.decode(LStrip(s[h..])).Some? ==>
                    var e := o + p.decode(LStrip(s[h..])).value.end;
                    && e <= |s|
                    && end == e + (if p.angleClose(s[e..]).Some? then p.angleClose(s[e..]).value else 0)
                    && (p.angleClose(s[e..]).None? ==> eof))
    ensures p.bracketHead(s).None? && p.callHead(s).None? && p.angleHead(s).None? ==>
              p.decode(s).Some? && p.decode(s).value.isToolCall && end == p.decode(s).value.end
  {
    hide Strip, LStrip, StartsWith;
    if p.bracketHead(s).Some? {
      BracketAddsUp(p, s, end);
    } else if p.callHead(s).None? && p.angleHead(s).Some? {
      AngleAddsUp(p, s, eof, end);
    }
  }

  lemma BracketAddsUp(p: Patterns, s: string, end: nat)
    requires Lawful(p) && BracketExtent(p, s) == Some(end)
    ensures 0 < end <= |s| && p.bracketHead(s).Some?
    ensures var h := p.bracketHead(s).value;
            && p.bracketCloseAt(s[h..]).Some?
            && (var c := h + p.bracketCloseAt(s[h..]).value;
                c <= |s| && p.bracketCloseHead(s[c..]).Some? && end == c + p.bracketCloseHead(s[c..]).value)
  {
    var h := p.bracketHead(s).value;
    var at := p.bracketCloseAt(s[h..]).value;
    assert s[h..][at..] == s[h + at..];
  }

  lemma AngleAddsUp(p: Patterns, s: string, eof: bool, end: nat)
    requires Lawful(p) && p.angleHead(s).Some? && AngleExtent(p, s, eof) == Some(end)
    ensures 0 < end <= |s|
    ensures var h := p.angleHead(s).value;
            var o := h + Blanks(s[h..]);
            && o <= |s| && Strip(s[h..]) != ""
            && (p.decode(LStrip(s[h..])).None? ==> end == h && !eof && !StartsWith(LStrip(s[h..]), "{"))
            && (p.decode(LStrip(s[h..])).Some? ==>
                  var e := o + p.decode(LStrip(s[h..])).value.end;
                  && e <= |s|
                  && end == e + (if p.angleClose(s[e..]).Some? then p.angleClose(s[e..]).value else 0)
                  && (p.angleClose(s[e..]).None? ==> eof))
  {
    hide Strip, LStrip, StartsWith;
  }

  // ---------- What becomes of the text ----------

  /**
   A piece of the text fed. `at` is what the buffer held when the piece left it, `eof` whether the
   stream had ended. Behind `end` there are only line breaks, and they are not shown.
   */
  datatype Piece =
    | Visible(text: string, at: string, eof: bool)
    | Object(text: string, at: string, eof: bool, end: nat)
    | Markup(text: string, at: string, eof: bool, end: nat)
    | Unfinished(text: string, at: string, eof: bool)

  function Whole(pieces: seq<Piece>): string {
    if pieces == [] then "" else pieces[0].text + Whole(pieces[1..])
  }

  function ShownOf(x: Piece): string {
    match x
    case Visible(text, _, _) => text
    case Object(text, _, _, end) => Take(text, end)
    case _ => ""
  }

  function ShownText(pieces: seq<Piece>): string {
    if pieces == [] then "" else ShownOf(pieces[0]) + ShownText(pieces[1..])
  }

  /** `text` is the first `end` characters of `at` with all the line breaks behind them. */
  predicate WithBreaks(text: string, at: string, end: nat) {
    && end <= |text| <= |at| && text == at[..|text|]
    && (forall i | end <= i < |text| :: IsBreak(text[i]))
    && (|text| < |at| ==> !IsBreak(at[|text|]))
  }

  /**
   Why a piece becomes what it does. Visible text ends in front of the first marker, and an object
   that calls no tool is shown without the line breaks behind it. What is dropped is one extent of
   markup and the line breaks behind it or, once the stream has ended, all that is left behind a
   head without an extent.
   */
  predicate Justified(p: Patterns, x: Piece)
    requires Lawful(p)
  {
    x.text != "" &&
    match x
    case Visible(text, at, eof) =>
      && !Taken(p, at) && !ObjectMarked(p, at)
      && |text| == VisibleExtent(p, at, eof) <= |at| && text == at[..|text|]
    case Object(text, at, eof, end) =>
      && !Taken(p, at) && ObjectMarked(p, at) && !eof
      && p.decode(at) == Some(DecodedJson(end, false)) && WithBreaks(text, at, end)
    case Markup(text, at, eof, end) =>
      MarkupExtent(p, at, eof) == Some(end) && WithBreaks(text, at, end)
    case Unfinished(text, at, eof) =>
      && eof && text == at
      && if Taken(p, at) then MarkupExtent(p, at, true).None? else ObjectMarked(p, at)
  }

  /** What the buffer held, and whether the stream had ended, decides what becomes of it. */
  lemma BufferDecides(p: Patterns, x: Piece, y: Piece)
    requires Lawful(p) && Justified(p, x) && Justified(p, y)
    requires x.at == y.at && x.eof == y.eof
    ensures x == y
  {
    hide BracketExtent, CallExtent, AngleExtent, FirstToolMarker, PartialMarker, OpenObject, VisibleExtent;
    match x {
      case Markup(_, _, _, end) => BreaksDecide(x.text, y.text, x.at, end);
      case Object(_, _, _, end) => BreaksDecide(x.text, y.text, x.at, end);
      case _ =>
    }
  }

  lemma BreaksDecide(a: string, b: string, at: string, end: nat)
    ensures WithBreaks(a, at, end) && WithBreaks(b, at, end) ==> a == b
  {
    if WithBreaks(a, at, end) && WithBreaks(b, at, end) {
      if |a| < |b| {
        BreakInside(b, at, end, |a|);
      } else if |b| < |a| {
        BreakInside(a, at, end, |b|);
      }
    }
  }

  lemma BreakInside(text: string, at: string, end: nat, i: nat)
    requires WithBreaks(text, at, end) && end <= i < |text|
    ensures IsBreak(at[i])
  {
    assert text[i] == at[i];
  }

  /** The text fed from piece `k` on. */
  function Ahead(pieces: seq<Piece>, k: nat, buf: string): string
    requires k <= |pieces|
  {
    Whole(pieces[k..]) + buf
  }

  /** Every piece is justified by text that was fed where it stands. */
  predicate AllJustified(p: Patterns, pieces: seq<Piece>, buf: string)
    requires Lawful(p)
  {
    forall k | 0 <= k < |pieces| :: Justified(p, pieces[k]) && pieces[k].at <= Ahead(pieces, k, buf)
  }

  /** The pieces added by one call: each is justified by all the text there was from it on. */
  predicate AddedBy(before: seq<Piece>, pieces: seq<Piece>, buf: string, eof: bool) {
    && before <= pieces
    && forall k | |before| <= k < |pieces| :: pieces[k].eof == eof && pieces[k].at == Ahead(pieces, k, buf)
  }

  /** Why `feed` leaves text in the buffer: more text may turn it into markup, or decode it. */
  predicate Held(p: Patterns, pieces: seq<Piece>, buf: string)
    requires Lawful(p)
  {
    || (Taken(p, buf) && MarkupExtent(p, buf, false).None?)
    || (!Taken(p, buf) && ObjectMarked(p, buf) && p.decode(buf).None?)
    || (!Taken(p, buf) && FirstToolMarker(p, buf).None? && PartialMarker(p, buf) == Some(0))
    || (pieces != [] &&
        (var last := pieces[|pieces| - 1];
         last.Visible? && last.at == last.text + buf &&
         FirstToolMarker(p, last.at).None? && PartialMarker(p, last.at) == Some(|last.text|)))
  }

  lemma {:induction false} WholeSnoc(pieces: seq<Piece>, x: Piece)
    ensures Whole(pieces + [x]) == Whole(pieces) + x.text
    ensures ShownText(pieces + [x]) == ShownText(pieces) + ShownOf(x)
  {
    hide ShownOf;
    if pieces == [] {
      assert [x][1..] == [] && pieces + [x] == [x];
      assert x.text + "" == "" + x.text && ShownOf(x) + "" == "" + ShownOf(x);
    } else {
      assert (pieces + [x])[1..] == pieces[1..] + [x];
      WholeSnoc(pieces[1..], x);
      ConcatAssoc(pieces[0].text, Whole(pieces[1..]), x.text);
      ConcatAssoc(ShownOf(pieces[0]), ShownText(pieces[1..]), ShownOf(x));
    }
  }

  lemma ConcatAssoc(a: string, b: string, c: string)
    ensures a + b + c == a + (b + c)
  {
  }

  /** A piece that leaves the buffer leaves the text ahead of every other where it was. */
  lemma AheadStays(pieces: seq<Piece>, x: Piece, k: nat, buf: string)
    requires k <= |pieces|
    ensures Ahead(pieces + [x], k, buf) == Ahead(pieces, k, x.text + buf)
  {
    assert (pieces + [x])[k..] == pieces[k..] + [x];
    WholeSnoc(pieces[k..], x);
    ConcatAssoc(Whole(pieces[k..]), x.text, buf);
  }

  /** The next piece is justified by what the buffer holds when it leaves. */
  lemma Leaves(p: Patterns, before: seq<Piece>, pieces: seq<Piece>, x: Piece, buf: string)
    requires Lawful(p) && AllJustified(p, pieces, x.at) && AddedBy(before, pieces, x.at, x.eof)
    requires Justified(p, x) && x.at == x.text + buf
    ensures AllJustified(p, pieces + [x], buf) && AddedBy(before, pieces + [x], buf, x.eof)
    ensures Whole(pieces + [x]) + buf == Whole(pieces) + x.at
    ensures ShownText(pieces + [x]) == ShownText(pieces) + ShownOf(x)
  {
    hide Justified, Whole, Ahead;
    var all := pieces + [x];
    WholeSnoc(pieces, x);
    AheadAtEnds(all, buf);
    AheadAtEnds(pieces, x.at);
    AheadOfLast(pieces, x, buf);
    forall k | 0 <= k < |pieces|
      ensures Ahead(all, k, buf) == Ahead(pieces, k, x.at) && all[k] == pieces[k]
    {
      AheadStays(pieces, x, k, buf);
    }
    AheadStays(pieces, x, 0, buf);
  }

  lemma AheadAtEnds(pieces: seq<Piece>, buf: string)
    ensures Ahead(pieces, 0, buf) == Whole(pieces) + buf && Ahead(pieces, |pieces|, buf) == buf
  {
    assert pieces[0..] == pieces;
  }

  lemma AheadOfLast(pieces: seq<Piece>, x: Piece, buf: string)
    ensures Ahead(pieces + [x], |pieces|, buf) == x.text + buf
  {
    AheadStays(pieces, x, |pieces|, buf);
    AheadAtEnds(pieces, x.text + buf);
  }

  /** Text fed later changes no justification. */
  lemma JustifiedStays(p: Patterns, pieces: seq<Piece>, buf: string, more: string)
    requires Lawful(p) && AllJustified(p, pieces, buf)
    ensures AllJustified(p, pieces, buf + more)
  {
    hide Justified;
    forall k | 0 <= k < |pieces|
      ensures Ahead(pieces, k, buf) <= Ahead(pieces, k, buf + more)
    {
      ConcatAssoc(Whole(pieces[k..]), buf, more);
    }
  }

  /** What is shown is the text with pieces deleted. */
  lemma {:induction false} ShownIsSubsequence(pieces: seq<Piece>)
    ensures Subsequence(ShownText(pieces), Whole(pieces))
  {
    if pieces != [] {
      var x := pieces[0];
      ShownIsSubsequence(pieces[1..]);
      PieceIsSubsequence(x);
      SubsequenceConcat(ShownOf(x), x.text, ShownText(pieces[1..]), Whole(pieces[1..]));
    }
  }

  lemma PieceIsSubsequence(x: Piece)
    ensures Subsequence(ShownOf(x), x.text)
  {
    var shown := ShownOf(x);
    SubsequenceOfSelf(shown);
    if shown != "" {
      assert shown + x.text[|shown|..] == x.text && shown + "" == shown;
      SubsequenceConcat(shown, shown, "", x.text[|shown|..]);
    }
  }

  /** What was shown, followed by what is held, is the text fed with pieces deleted. */
  lemma VisibleIsSubsequence(pieces: seq<Piece>, buf: string)
    ensures Subsequence(ShownText(pieces) + buf, Whole(pieces) + buf)
  {
    ShownIsSubsequence(pieces);
    SubsequenceOfSelf(buf);
    SubsequenceConcat(ShownText(pieces), Whole(pieces), buf, buf);
  }

  /** A text without markup, and that ends with no beginning of any. */
  predicate Plain(p: Patterns, s: string) {
    s != "" && !Taken(p, s) && FirstToolMarker(p, s).None? && PartialMarker(p, s).None?
  }

  // ---------- The filter ----------

  datatype Verdict = Stripped | NoMatch | Hold

  /** A strip takes the markup and the line breaks behind it off the head of the buffer. */
  predicate Takes(before: string, end: nat, cut: Piece, after: string, eof: bool) {
    && cut.Markup? && cut.at == before && cut.eof == eof && cut.end == end
    && before == cut.text + after && cut.text != "" && WithBreaks(cut.text, before, end)
  }

  /** Without an extent a strip waits for more text, and drops the rest once the stream has ended. */
  predicate StripsTo(before: string, extent: Option<nat>, r: Verdict, cut: Piece, after: string, eof: bool) {
    if extent.Some? then r == Stripped && Takes(before, extent.value, cut, after, eof)
    else if eof then r == Stripped && cut == Unfinished(before, before, true) && after == ""
    else r == Hold && after == before
  }

  /** A piece leaves the buffer for a reason, and what is shown of it is emitted. */
  predicate Leaving(p: Patterns, before: string, x: Piece, emit: string, after: string, eof: bool)
    requires Lawful(p)
  {
    && Justified(p, x) && x.at == before && x.eof == eof
    && before == x.text + after && emit == ShownOf(x)
  }

  /** A strip takes a piece for a reason, or waits for more text. */
  lemma StripIsJustified(p: Patterns, before: string, r: Verdict, cut: Piece, after: string, eof: bool)
    requires Lawful(p) && before != "" && Taken(p, before)
    requires StripsTo(before, MarkupExtent(p, before, eof), r, cut, after, eof)
    ensures if r == Hold then !eof && MarkupExtent(p, before, eof).None? && after == before
            else r == Stripped && Leaving(p, before, cut, "", after, eof)
  {
    hide MarkupExtent, Taken, VisibleExtent, FirstToolMarker;
  }

  /** The first kind of head that a text begins with decides how far the markup reaches. */
  lemma WhichExtent(p: Patterns, s: string, eof: bool)
    requires Lawful(p)
    ensures Taken(p, s) <==> HeadMarked(p, s) || StartsJsonTool(p, s) || OpenObject(p, s)
    ensures HeadMarked(p, s) ==> !StartsJsonTool(p, s) && !OpenObject(p, s)
    ensures var extent := MarkupExtent(p, s, eof);
            if p.bracketHead(s).Some? then extent == BracketExtent(p, s)
            else if p.callHead(s).Some? then extent == CallExtent(p, s, eof)
            else if p.angleHead(s).Some? then extent == AngleExtent(p, s, eof)
            else if StartsJsonTool(p, s) then extent == Some(p.decode(s).value.end)
            else extent == None
  {
  }

  /** An object that cannot be decoded has no extent. */
  lemma OpenObjectHasNoExtent(p: Patterns, s: string, eof: bool)
    requires Lawful(p) && OpenObject(p, s)
    ensures !HeadMarked(p, s) && Taken(p, s) && MarkupExtent(p, s, eof).None?
  {
  }

  /** At the end a strip takes a piece, and an object that cannot be decoded ends the text. */
  lemma StripAtEnd(p: Patterns, before: string, r: Verdict, cut: Piece, after: string, over: bool)
    requires Lawful(p) && before != "" && Taken(p, before) && (over ==> LastFront(p, before))
    requires !OpenObject(p, before) ==> StripsTo(before, MarkupExtent(p, before, true), r, cut, after, true)
    requires OpenObject(p, before) ==>
               r == Stripped && cut == Unfinished(before, before, true) &&
               after == if p.findJson(before).Some? then FrontOf(p, before) else ""
    ensures |after| < |before|
    ensures if OpenObject(p, before) then LastFront(p, after) && Leaving(p, before, cut, "", "", true)
            else Leaving(p, before, cut, "", after, true)
    ensures over ==> OpenObject(p, before) && after == ""
  {
    hide BracketExtent, CallExtent, AngleExtent, MarkupExtent, VisibleExtent, FirstToolMarker;
    if OpenObject(p, before) {
      OpenObjectHasNoExtent(p, before, true);
    } else {
      StripIsJustified(p, before, r, cut, after, true);
    }
  }

  lemma PlainPasses(p: Patterns, before: string, x: Piece, emit: string, after: string)
    requires Lawful(p) && Plain(p, before) && Leaving(p, before, x, emit, after, false)
    ensures emit == before && after == ""
  {
    hide BracketExtent, CallExtent, AngleExtent, FirstToolMarker, PartialMarker;
  }

  lemma PlainIsNotHeld(p: Patterns, s: string)
    requires Lawful(p) && Plain(p, s)
    ensures !Held(p, [], s)
  {
    hide BracketExtent, CallExtent, AngleExtent, FirstToolMarker, PartialMarker;
  }

  lemma FeedTurned(p: Patterns, pieces: seq<Piece>, was: string, cut: Option<Piece>, emit: string, stop: bool, buf: string)
    requires Lawful(p) && was != ""
    requires if cut.None? then stop && buf == was && Held(p, [], buf)
             else Leaving(p, was, cut.value, emit, buf, false) && (stop ==> buf == "" || Held(p, [cut.value], buf))
    ensures |buf| <= |was| && (stop || |buf| < |was|)
    ensures stop ==> buf == "" || Held(p, pieces + PiecesOf(cut), buf)
    ensures Plain(p, was) ==> emit == was && buf == ""
  {
    hide Held, Plain;
    if stop && buf != "" {
      HeldStays(p, pieces, PiecesOf(cut), buf);
    }
    if Plain(p, was) {
      PlainIsNotHeld(p, was);
      if cut.Some? {
        PlainPasses(p, was, cut.value, emit, buf);
      }
    }
  }

  lemma Begin(p: Patterns, pieces: seq<Piece>, buf: string, eof: bool)
    requires Lawful(p) && AllJustified(p, pieces, buf)
    ensures Progress(p, pieces, pieces, buf, eof, Whole(pieces) + buf, ShownText(pieces), [])
  {
    assert ShownText(pieces) + "" == ShownText(pieces);
  }

  lemma HeldStays(p: Patterns, pieces: seq<Piece>, added: seq<Piece>, buf: string)
    requires Lawful(p) && Held(p, added, buf)
    ensures Held(p, pieces + added, buf)
  {
    hide Taken, MarkupExtent, FirstToolMarker, PartialMarker, ObjectMarked;
    assert added != [] ==> (pieces + added)[|pieces + added| - 1] == added[|added| - 1];
  }

  lemma CutIsPrefix(buf: string, end: nat, eaten: string, next: string)
    requires end <= |buf| && buf[end..] == eaten + next
    requires (forall c | c in eaten :: IsBreak(c)) && (next != "" ==> !IsBreak(next[0]))
    ensures buf == buf[..end] + eaten + next && WithBreaks(buf[..end] + eaten, buf, end)
  {
    var text := buf[..end] + eaten;
    assert buf == buf[..end] + buf[end..] == text + next;
    assert forall i | end <= i < |text| :: text[i] == eaten[i - end];
  }

  function PiecesOf(cut: Option<Piece>): seq<Piece> { if cut.Some? then [cut.value] else [] }

  /** What both loops keep: the pieces so far, the text that is left, and what was emitted. */
  predicate Progress(p: Patterns, before: seq<Piece>, pieces: seq<Piece>, buf: string, eof: bool,
                     fed: string, shown: string, emitted: seq<string>)
    requires Lawful(p)
  {
    && AllJustified(p, pieces, buf) && AddedBy(before, pieces, buf, eof) && Whole(pieces) + buf == fed
    && ShownText(pieces) == shown + Concat(emitted) && "" !in emitted
  }

  function Emitted(emitted: seq<string>, emit: string): seq<string> {
    if emit == "" then emitted else emitted + [emit]
  }

  lemma Turned(p: Patterns, before: seq<Piece>, pieces: seq<Piece>, was: string, cut: Option<Piece>, buf: string,
               eof: bool, fed: string, shown: string, emitted: seq<string>, emit: string)
    requires Lawful(p) && Progress(p, before, pieces, was, eof, fed, shown, emitted)
    requires if cut.None? then emit == "" && buf == was else Leaving(p, was, cut.value, emit, buf, eof)
    ensures Progress(p, before, pieces + PiecesOf(cut), buf, eof, fed, shown, Emitted(emitted, emit))
  {
    hide Justified, Whole, AllJustified, AddedBy, ShownText, ShownOf;
    if cut.None? {
      assert pieces + PiecesOf(cut) == pieces;
    } else {
      Leaves(p, before, pieces, cut.value, buf);
      ConcatSnoc(emitted, emit);
      ConcatAssoc(shown, Concat(emitted), emit);
      assert emit == "" ==> ShownText(pieces) + emit == ShownText(pieces);
    }
  }

  class VisibleToolJsonFilter {
    const p: Patterns
    var buf: string
    /** What became of the text so far, in the order in which it was fed. */
    ghost var pieces: seq<Piece>

    ghost predicate Valid()
      reads this
    {
      Lawful(p) && AllJustified(p, pieces, buf)
    }

    /** Everything fed so far. */
    ghost function Fed(): string
      reads this
    {
      Whole(pieces) + buf
    }

    /** Everything let through so far. */
    ghost function Shown(): string
      reads this
    {
      ShownText(pieces)
    }

    constructor (patterns: Patterns)
      requires Lawful(patterns)
      ensures p == patterns && buf == "" && pieces == [] && Valid() && Fed() == "" && Shown() == ""
    {
      p := patterns;
      buf := "";
      pieces := [];
    }

    /** Continues behind some markup and the line breaks that follow it. */
    method ContinueAt(end: nat, eof: bool) returns (ghost cut: Piece)
      requires 0 < end <= |buf|
      modifies this`buf
      ensures Takes(old(buf), end, cut, buf, eof)
    {
      var next, eaten := EatLeadingNewlinesOnly(buf[end..]);
      cut := Markup(buf[..end] + eaten, buf, eof, end);
      CutIsPrefix(buf, end, eaten, next);
      buf := next;
    }

    /** Markup without an end: the rest of the text goes at the end of the stream, and waits before. */
    method DropOrHold(eof: bool) returns (r: Verdict, ghost cut: Piece)
      modifies this`buf
      ensures StripsTo(old(buf), None, r, cut, buf, eof) && r != NoMatch
    {
      r, cut := Hold, Unfinished(buf, buf, eof);
      if eof {
        r, buf := Stripped, "";
      }
    }

    method TryStripLeadingBracketToolCall(eof: bool) returns (r: Verdict, ghost cut: Piece)
      requires Lawful(p) && buf != ""
      modifies this`buf
      ensures r == NoMatch <==> p.bracketHead(old(buf)).None?
      ensures r == NoMatch ==> buf == old(buf)
      ensures r != NoMatch ==> StripsTo(old(buf), BracketExtent(p, old(buf)), r, cut, buf, eof)
    {
      cut := Unfinished(buf, buf, eof);
      var m := p.bracketHead(buf);
      if m.None? {
        return NoMatch, cut;
      }
      var rest := buf[m.value..];
      var closeAt := p.bracketCloseAt(rest);
      if closeAt.None? {
        r, cut := DropOrHold(eof);
        return;
      }
      var fromClose := Drop(rest, closeAt.value);
      var cm := p.bracketCloseHead(fromClose);
      if cm.None? {
        r, cut := DropOrHold(eof);
        return;
      }
      cut := ContinueAt(|buf| - |fromClose| + cm.value, eof);
      return Stripped, cut;
    }

    method TryStripLeadingCallTool(eof: bool) returns (r: Verdict, ghost cut: Piece)
      requires Lawful(p) && buf != ""
      modifies this`buf
      ensures r == NoMatch <==> p.callHead(old(buf)).None?
      ensures r == NoMatch ==> buf == old(buf)
      ensures r != NoMatch ==> StripsTo(old(buf), CallExtent(p, old(buf), eof), r, cut, buf, eof)
    {
      cut := Unfinished(buf, buf, eof);
      var m := p.callHead(buf);
      if m.None? {
        return NoMatch, cut;
      }
      var rest := buf[m.value..];
      if Strip(rest) == "" {
        r, cut := DropOrHold(eof);
        return;
      }
      var dec := p.decode(rest);
      if dec.None? {
        if eof || StartsWith(LStrip(rest), "{") {
          r, cut := DropOrHold(eof);
          return;
        }
        cut := ContinueAt(m.value, eof);
        return Stripped, cut;
      }
      cut := ContinueAt(m.value + dec.value.end, eof);
      return Stripped, cut;
    }

    method TryStripLeadingAngleTool(eof: bool) returns (r: Verdict, ghost cut: Piece)
      requires Lawful(p) && buf != ""
      modifies this`buf
      ensures r == NoMatch <==> p.angleHead(old(buf)).None?
      ensures r == NoMatch ==> buf == old(buf)
      ensures r != NoMatch ==> StripsTo(old(buf), AngleExtent(p, old(buf), eof), r, cut, buf, eof)
    {
      cut := Unfinished(buf, buf, eof);
      var m := p.angleHead(buf);
      if m.None? {
        return NoMatch, cut;
      }
      var rest := buf[m.value..];
      if Strip(rest) == "" {
        r, cut := DropOrHold(eof);
        return;
      }
      var dec := p.decode(LStrip(rest));
      if dec.None? {
        if eof || StartsWith(LStrip(rest), "{") {
          r, cut := DropOrHold(eof);
          return;
        }
        cut := ContinueAt(m.value, eof);
        return Stripped, cut;
      }
      var leading := |rest| - |LStrip(rest)|;
      var end := m.value + leading + dec.value.end;
      var close := p.angleClose(buf[end..]);
      if close.Some? {
        end := end + close.value;
      } else if !eof {
        r, cut := DropOrHold(eof);
        return;
      }
      cut := ContinueAt(end, eof);
      return Stripped, cut;
    }

    /** At the end, an object that cannot be decoded is cut off at the first tool marker in it. */
    method TryStripLeadingToolJsonObject(eof: bool) returns (r: Verdict, ghost cut: Piece)
      requires Lawful(p) && buf != ""
      modifies this`buf
      ensures r == NoMatch <==> !StartsJsonTool(p, old(buf)) && !OpenObject(p, old(buf))
      ensures r == NoMatch ==> buf == old(buf)
      ensures StartsJsonTool(p, old(buf)) ==> r == Stripped && Takes(old(buf), p.decode(old(buf)).value.end, cut, buf, eof)
      ensures OpenObject(p, old(buf)) ==>
                if eof then
                  r == Stripped && cut == Unfinished(old(buf), old(buf), true) &&
                  buf == if p.findJson(old(buf)).Some? then FrontOf(p, old(buf)) else ""
                else r == Hold && buf == old(buf)
    {
      cut := Unfinished(buf, buf, eof);
      if buf[0] != '{' {
        return NoMatch, cut;
      }
      var dec := p.decode(buf);
      if dec.None? {
        if p.jsonHead(Take(buf, HEAD_WINDOW)) {
          if eof {
            var start := p.findJson(buf);
            buf := if start.Some? then buf[..start.value] else "";
            return Stripped, cut;
          }
          return Hold, cut;
        }
        return NoMatch, cut;
      }
      if dec.value.isToolCall {
        cut := ContinueAt(dec.value.end, eof);
        return Stripped, cut;
      }
      return NoMatch, cut;
    }

    /** The four strips in the order in which both loops try them. */
    method TryStrips(eof: bool) returns (r: Verdict, ghost cut: Piece)
      requires Lawful(p) && buf != ""
      modifies this`buf
      ensures r == NoMatch <==> !Taken(p, old(buf))
      ensures r == NoMatch ==> buf == old(buf)
      ensures r != NoMatch && !(eof && OpenObject(p, old(buf))) ==>
                StripsTo(old(buf), MarkupExtent(p, old(buf), eof), r, cut, buf, eof)
      ensures eof && OpenObject(p, old(buf)) ==>
                r == Stripped && cut == Unfinished(old(buf), old(buf), true) &&
                buf == if p.findJson(old(buf)).Some? then FrontOf(p, old(buf)) else ""
    {
      WhichExtent(p, buf, eof);
      r, cut := TryStripLeadingBracketToolCall(eof);
      if r != NoMatch {
        return;
      }
      r, cut := TryStripLeadingCallTool(eof);
      if r != NoMatch {
        return;
      }
      r, cut := TryStripLeadingAngleTool(eof);
      if r != NoMatch {
        return;
      }
      r, cut := TryStripLeadingToolJsonObject(eof);
    }

    /** Shows the first `n` characters. */
    method Emit(n: nat, eof: bool) returns (emit: string, ghost cut: Piece)
      requires n <= |buf|
      modifies this`buf
      ensures emit == old(buf)[..n] && buf == old(buf)[n..] && old(buf) == emit + buf
      ensures cut == Visible(emit, old(buf), eof)
    {
      emit, cut := buf[..n], Visible(buf[..n], buf, eof);
      assert buf[..n] + buf[n..] == buf;
      buf := buf[n..];
    }

    /** One turn of the loop of `feed`: a piece leaves the buffer, or the loop stops. */
    method FeedTurn() returns (emit: string, stop: bool, ghost cut: Option<Piece>)
      requires Lawful(p) && buf != ""
      modifies this`buf
      ensures if cut.None? then stop && emit == "" && buf == old(buf) && Held(p, [], buf)
              else Leaving(p, old(buf), cut.value, emit, buf, false) && (stop ==> buf == "" || Held(p, [cut.value], buf))
    {
      emit, stop, cut := "", false, None;
      var r, x := TryStrips(false);
      if r != NoMatch {
        StripIsJustified(p, old(buf), r, x, buf, false);
        return emit, r == Hold, if r == Hold then None else Some(x);
      }
      var m := FirstToolMarker(p, buf);
      if m.None? {
        var partial := PartialMarker(p, buf);
        emit, x := Emit(if partial.Some? then partial.value else |buf|, false);
        return emit, true, if emit == "" then None else Some(x);
      }
      if m.value > 0 {
        emit, x := Emit(m.value, false);
        return emit, false, Some(x);
      }
      if p.jsonHead(buf) {
        emit, stop, cut := FeedJson();
        return;
      }
      // The heads are looked for once more here, but the strips above have ruled them out.
      if p.angleHead(buf).Some? || p.callHead(buf).Some? || p.bracketHead(buf).Some? {
        assert false;
      }
      emit, x := Emit(1, false);
      cut := Some(x);
    }

    /** A JSON object that no strip takes on is shown without the line breaks behind it. */
    method FeedJson() returns (emit: string, stop: bool, ghost cut: Option<Piece>)
      requires Lawful(p) && buf != "" && !Taken(p, buf) && ObjectMarked(p, buf)
      modifies this`buf
      ensures if cut.None? then stop && emit == "" && buf == old(buf) && Held(p, [], buf)
              else Leaving(p, old(buf), cut.value, emit, buf, false) && !stop
    {
      emit, stop, cut := "", false, None;
      var dec := p.decode(buf);
      if dec.None? {
        return emit, true, cut;
      }
      // A tool object is looked for once more here, but the strips above have ruled it out.
      if dec.value.isToolCall {
        assert false;
      }
      var next, eaten := EatLeadingNewlinesOnly(buf[dec.value.end..]);
      emit, cut := buf[..dec.value.end], Some(Object(buf[..dec.value.end] + eaten, buf, false, dec.value.end));
      CutIsPrefix(buf, dec.value.end, eaten, next);
      buf := next;
    }

    /** Adds a chunk and returns what may be shown. */
    method Feed(chunk: string) returns (emitted: seq<string>)
      requires Valid()
      modifies this`buf, this`pieces
      ensures Valid() && Fed() == old(Fed()) + chunk
      ensures if chunk == "" then pieces == old(pieces) && buf == old(buf)
              else AddedBy(old(pieces), pieces, buf, false) && (buf == "" || Held(p, pieces, buf))
      ensures Shown() == old(Shown()) + Concat(emitted) && "" !in emitted
      ensures Subsequence(Shown() + buf, Fed())
      ensures chunk != "" && Plain(p, old(buf) + chunk) ==> emitted == [old(buf) + chunk] && buf == ""
    {
      emitted := [];
      VisibleIsSubsequence(pieces, buf);
      if chunk == "" {
        return;
      }
      ConcatAssoc(Whole(pieces), buf, chunk);
      JustifiedStays(p, pieces, buf, chunk);
      buf := buf + chunk;
      ghost var before, all := pieces, buf;
      Begin(p, pieces, buf, false);
      var stop := false;
      while buf != "" && !stop
        invariant Lawful(p) && Progress(p, before, pieces, buf, false, Whole(before) + all, ShownText(before), emitted)
        invariant stop ==> buf == "" || Held(p, pieces, buf)
        invariant Plain(p, all) ==> if buf == "" then emitted == [all] else !stop && buf == all && emitted == []
        decreases |buf| + if stop then 0 else 1
      {
        emitted, stop := FeedStep(before, all, emitted);
      }
      VisibleIsSubsequence(pieces, buf);
    }

    /** A turn of the loop of `feed`, and what becomes of the piece that leaves the buffer. */
    method FeedStep(ghost before: seq<Piece>, ghost all: string, emitted: seq<string>)
      returns (more: seq<string>, stop: bool)
      requires Lawful(p) && buf != ""
      requires Progress(p, before, pieces, buf, false, Whole(before) + all, ShownText(before), emitted)
      modifies this`buf, this`pieces
      ensures Progress(p, before, pieces, buf, false, Whole(before) + all, ShownText(before), more)
      ensures |buf| <= old(|buf|) && (stop || |buf| < old(|buf|)) && (stop ==> buf == "" || Held(p, pieces, buf))
      ensures Plain(p, old(buf)) ==> buf == "" && more == emitted + [old(buf)]
    {
      var emit;
      ghost var cut;
      emit, stop, cut := FeedTurn();
      Turned(p, before, pieces, old(buf), cut, buf, false, Whole(before) + all, ShownText(before), emitted, emit);
      FeedTurned(p, pieces, old(buf), cut, emit, stop, buf);
      pieces := pieces + PiecesOf(cut);
      more := if emit != "" then emitted + [emit] else emitted;
    }

    /**
     One turn of the loop of `flush`. It is `over` when nothing more will be shown: what remains of
     an object that cannot be decoded is emptied by the next turn.
     */
    method FlushTurn(ghost over: bool) returns (emit: string, ghost cut: Option<Piece>, ghost over': bool)
      requires Lawful(p) && buf != "" && (over ==> LastFront(p, buf))
      modifies this`buf
      ensures |buf| < old(|buf|) && (over' ==> LastFront(p, buf))
      ensures if over then cut.None? && emit == "" && over'
              else cut.Some? && Leaving(p, old(buf), cut.value, emit, if over' then "" else buf, true)
    {
      emit, cut, over' := "", None, over;
      var r, x := TryStrips(true);
      if r != NoMatch {
        StripAtEnd(p, old(buf), r, x, buf, over);
        return emit, if over then None else Some(x), OpenObject(p, old(buf));
      }
      emit, x := FlushUnmarked();
      cut := Some(x);
    }

    /** The rest of a turn of `flush`, when no strip takes the text on. */
    method FlushUnmarked() returns (emit: string, ghost cut: Piece)
      requires Lawful(p) && buf != "" && !Taken(p, buf)
      modifies this`buf
      ensures Leaving(p, old(buf), cut, emit, buf, true)
    {
      var m := FirstToolMarker(p, buf);
      if m.Some? && m.value > 0 {
        emit, cut := Emit(m.value, true);
        return;
      }
      if m.Some? && p.jsonHead(buf) {
        emit, cut := "", Unfinished(buf, buf, true);
        buf := "";
        return;
      }
      if m.Some? && (p.angleHead(buf).Some? || p.callHead(buf).Some? || p.bracketHead(buf).Some?) {
        assert false;
      }
      emit, cut := Emit(|buf|, true);
    }

    /** At the end of the stream: nothing is held back any more. */
    method Flush() returns (emitted: seq<string>)
      requires Valid()
      modifies this`buf, this`pieces
      ensures Valid() && buf == "" && AddedBy(old(pieces), pieces, "", true)
      ensures Fed() == old(Fed()) && Shown() == old(Shown()) + Concat(emitted) && "" !in emitted
      ensures Subsequence(Shown(), Fed())
    {
      emitted := [];
      ghost var before, all, over := pieces, buf, false;
      Begin(p, pieces, buf, true);
      while buf != ""
        invariant Lawful(p) && (over ==> LastFront(p, buf))
        invariant Progress(p, before, pieces, if over then "" else buf, true, Whole(before) + all, ShownText(before), emitted)
        decreases |buf|
      {
        emitted, over := FlushStep(before, all, over, emitted);
      }
      ShownIsSubsequence(pieces);
      assert Whole(pieces) + "" == Whole(pieces);
    }

    /** A turn of the loop of `flush`, and what becomes of the piece that leaves the buffer. */
    method FlushStep(ghost before: seq<Piece>, ghost all: string, ghost over: bool, emitted: seq<string>)
      returns (more: seq<string>, ghost over': bool)
      requires Lawful(p) && buf != "" && (over ==> LastFront(p, buf))
      requires Progress(p, before, pieces, if over then "" else buf, true, Whole(before) + all, ShownText(before), emitted)
      modifies this`buf, this`pieces
      ensures |buf| < old(|buf|) && (over' ==> LastFront(p, buf))
      ensures Progress(p, before, pieces, if over' then "" else buf, true, Whole(before) + all, ShownText(before), more)
    {
      var emit;
      ghost var cut;
      emit, cut, over' := FlushTurn(over);
      Turned(p, before, pieces, if over then "" else old(buf), cut, if over' then "" else buf, true,
             Whole(before) + all, ShownText(before), emitted, emit);
      pieces := pieces + PiecesOf(cut);
      more := if emit != "" then emitted + [emit] else emitted;
    }
  }

  /** What is left in the buffer once the rest of the text was given up. */
  predicate LastFront(p: Patterns, buf: string) {
    buf != "" ==> OpenObject(p, buf) && p.findJson(buf).None?
  }
}

/** Cutting a reply into messages no longer than a size, at line breaks where possible. */
module ChunkText {
  import opened PyText
  import opened Lines

  /** Some chunks and a pending buffer carry a text: nothing but newlines is lost, nothing is added. */
  ghost predicate Carries(out: seq<string>, buf: string, text: string) {
    && WithoutNewlines(Concat(out) + buf) == WithoutNewlines(text)
    && Subsequence(Concat(out) + buf, text)
  }

  predicate Fits(out: seq<string>, size: nat) {
    forall c | c in out :: c != "" && |c| <= size
  }

  lemma CarriesMore(out: seq<string>, buf: string, text: string, more: string)
    requires Carries(out, buf, text)
    ensures Carries(out, buf + more, text + more)
  {
    WithoutNewlinesConcat(Concat(out) + buf, more);
    WithoutNewlinesConcat(text, more);
    SubsequenceOfSelf(more);
    SubsequenceConcat(Concat(out) + buf, text, more, more);
    assert Concat(out) + buf + more == Concat(out) + (buf + more);
  }

  /** A line break of the text need not reach the chunks. */
  lemma CarriesBreak(out: seq<string>, buf: string, text: string)
    requires Carries(out, buf, text)
    ensures Carries(out, buf, text + "\n")
  {
    WithoutNewlinesConcat(text, "\n");
    assert WithoutNewlines("\n") == "" by {
      assert "\n"[..0] == "";
    }
    SubsequenceConcat(Concat(out) + buf, text, "", "\n");
    assert Concat(out) + buf + "" == Concat(out) + buf;
    assert WithoutNewlines(text) + "" == WithoutNewlines(text);
  }

  /** Sending the buffer off changes nothing about what is carried. */
  lemma CarriesFlushed(out: seq<string>, buf: string, text: string)
    requires Carries(out, buf, text)
    ensures Carries(out + [buf], "", text)
  {
    ConcatSnoc(out, buf);
    assert Concat(out) + buf + "" == Concat(out) + buf;
  }

  lemma CarriesNothing()
    ensures Carries([], "", "")
  {
    assert Concat([]) + "" == "";
  }

  // ---------- Full chunks ----------

  /** A chunk with no room for the line that comes next; before nothing, one with no room for an empty line. */
  predicate NoRoom(chunk: string, next: string, size: nat) {
    if next == "" then |chunk| >= size else |chunk| + 1 + |FirstLine(next)| > size
  }

  /** No chunk was sent off while the line behind it still fitted. */
  predicate Full(out: seq<string>, buf: string, size: nat) {
    && (forall i | 0 <= i < |out| - 1 :: NoRoom(out[i], out[i + 1], size))
    && (out != [] ==> NoRoom(out[|out| - 1], buf, size))
  }

  lemma FullOn(out: seq<string>, buf: string, next: string, size: nat)
    requires Full(out, buf, size) && NoRoom(buf, next, size)
    ensures Full(out + [buf], next, size)
  {
    hide NoRoom;
  }

  lemma FullWith(out: seq<string>, buf: string, more: string, size: nat)
    requires Full(out, buf, size) && FirstLine(more) == FirstLine(buf) && (more == "" <==> buf == "")
    ensures Full(out, more, size)
  {
  }

  lemma {:induction false} OneLine(line: string)
    requires '\n' !in line
    ensures FirstLine(line) == line
  {
    if line != "" {
      OneLine(line[1..]);
    }
  }

  lemma {:induction false} FirstStays(buf: string, rest: string)
    ensures FirstLine(buf + "\n" + rest) == FirstLine(buf)
  {
    var s := buf + "\n" + rest;
    if buf == "" {
      assert s[0] == '\n';
    } else {
      assert s[0] == buf[0] && s[1..] == buf[1..] + "\n" + rest;
      FirstStays(buf[1..], rest);
    }
  }

  lemma {:induction false} LinesHaveNoBreaks(s: string)
    ensures forall line | line in SplitLines(s) :: '\n' !in line
  {
    if s != "" {
      LinesHaveNoBreaks(s[..|s| - 1]);
      var before := SplitLines(s[..|s| - 1]);
      assert before[|before| - 1] in before;
      assert forall line | line in before[..|before| - 1] :: line in before;
    }
  }

  // ---------- One line ----------

  /** Cuts a line that is too long into full pieces; what is left fits. */
  method CutLongLine(line0: string, out0: seq<string>, buf0: string, size: nat, ghost text: string)
    returns (line: string, out: seq<string>, buf: string, ghost cut: string)
    requires size >= 1 && Fits(out0, size) && |buf0| <= size && Carries(out0, buf0, text)
    requires '\n' !in line0 && Full(out0, buf0, size)
    ensures Fits(out, size) && |buf| <= size && |line| <= size
    ensures '\n' !in line && Full(out, buf, size)
    ensures cut + line == line0 && Carries(out, buf, text + cut)
    ensures if |line0| <= size then line == line0 && out == out0 && buf == buf0 else buf == ""
  {
    hide Full, NoRoom, Carries, FirstLine;
    line, out, buf, cut := line0, out0, buf0, "";
    assert text + "" == text && "" + line0 == line0;
    while |line| > size
      invariant Fits(out, size) && |buf| <= size
      invariant cut + line == line0 && Carries(out, buf, text + cut)
      invariant '\n' !in line && Full(out, buf, size)
      invariant if cut == "" then line == line0 && out == out0 && buf == buf0 else buf == "" && |line0| > size
      decreases |line|
    {
      PieceIsFull(out, buf, line, size);
      if buf != "" {
        CarriesFlushed(out, buf, text + cut);
        out := out + [buf];
        buf := "";
      }
      CarriesPiece(out, text, cut, line[..size]);
      CutFurther(cut, line, size);
      out := out + [line[..size]];
      cut := cut + line[..size];
      line := line[size..];
    }
  }

  /** A full piece of a line has no room behind it, and there was none for it before. */
  lemma PieceIsFull(out: seq<string>, buf: string, line: string, size: nat)
    requires Full(out, buf, size) && '\n' !in line && 1 <= size < |line|
    ensures '\n' !in line[size..]
    ensures Full((if buf != "" then out + [buf] else out) + [line[..size]], "", size)
  {
    hide Full;
    OneLine(line[..size]);
    if buf != "" {
      FullOn(out, buf, line[..size], size);
      FullOn(out + [buf], line[..size], "", size);
    } else {
      FullBefore(out, line[..size], size);
      FullOn(out, line[..size], "", size);
    }
  }

  lemma FullBefore(out: seq<string>, next: string, size: nat)
    requires Full(out, "", size)
    ensures Full(out, next, size)
  {
  }

  lemma CutFurther(cut: string, line: string, size: nat)
    requires size <= |line|
    ensures cut + line[..size] + line[size..] == cut + line
  {
  }

  lemma CarriesPiece(out: seq<string>, text: string, cut: string, piece: string)
    requires Carries(out, "", text + cut)
    ensures Carries(out + [piece], "", text + (cut + piece))
  {
    hide Carries;
    CarriesMore(out, "", text + cut, piece);
    assert "" + piece == piece && text + cut + piece == text + (cut + piece);
    CarriesFlushed(out, piece, text + (cut + piece));
  }

  /** Adds a line that fits to the buffer, sending the buffer off first if both do not fit together. */
  method AddLine(line: string, out0: seq<string>, buf0: string, size: nat)
    returns (out: seq<string>, buf: string)
    requires |line| <= size && Fits(out0, size) && |buf0| <= size
    requires '\n' !in line && Full(out0, buf0, size)
    ensures Fits(out, size) && |buf| <= size && Full(out, buf, size)
    ensures Added(line, out0, buf0, out, buf)
    ensures buf0 != "" ==> (out == out0 <==> |buf0| + 1 + |line| <= size)
  {
    hide Full, NoRoom;
    out, buf := out0, buf0;
    LineIsFull(out, buf, line, size);
    var candidate := if buf != "" then buf + "\n" + line else line;
    if |candidate| > size {
      if buf != "" {
        out := out + [buf];
      }
      buf := line;
    } else {
      buf := candidate;
    }
  }

  lemma LineIsFull(out: seq<string>, buf: string, line: string, size: nat)
    requires Full(out, buf, size) && '\n' !in line && |buf| <= size
    ensures buf == "" ==> Full(out, line, size)
    ensures buf != "" ==> Full(out, buf + "\n" + line, size)
    ensures buf != "" && |buf| + 1 + |line| > size ==> Full(out + [buf], line, size)
  {
    hide Full;
    OneLine(line);
    if buf == "" {
      FullBefore(out, line, size);
    } else {
      FirstStays(buf, line);
      FullWith(out, buf, buf + "\n" + line, size);
      if |buf| + 1 + |line| > size {
        FullOn(out, buf, line, size);
      }
    }
  }

  /** The line joins the buffer, or starts a new one behind it. */
  predicate Added(line: string, out0: seq<string>, buf0: string, out: seq<string>, buf: string) {
    if buf0 == "" then out == out0 && buf == line
    else (out == out0 && buf == buf0 + "\n" + line) || (out == out0 + [buf0] && buf == line)
  }

  lemma AddedToEmpty(line: string, out0: seq<string>, out: seq<string>, buf: string, text: string)
    requires Added(line, out0, "", out, buf) && Carries(out0, "", text)
    ensures Carries(out, buf, text + line)
  {
    hide Carries;
    CarriesMore(out0, "", text, line);
    assert "" + line == line;
  }

  lemma AddedToBuffer(line: string, out0: seq<string>, buf0: string, out: seq<string>, buf: string, text: string)
    requires Added(line, out0, buf0, out, buf) && buf0 != "" && Carries(out0, buf0, text)
    ensures Carries(out, buf, text + "\n" + line)
  {
    hide Carries;
    if out == out0 {
      CarriesMore(out0, buf0, text, "\n" + line);
      assert buf0 + ("\n" + line) == buf && text + ("\n" + line) == text + "\n" + line;
    } else {
      CarriesBreak(out0, buf0, text);
      CarriesFlushed(out0, buf0, text + "\n");
      CarriesMore(out, "", text + "\n", line);
      assert "" + line == line;
    }
  }

  lemma AddedJoins(line: string, out0: seq<string>, buf0: string, out: seq<string>, buf: string)
    requires Added(line, out0, buf0, out, buf) && buf0 != ""
    ensures JoinLines(out + [buf]) == JoinLines(out0 + [buf0]) + "\n" + line
  {
    JoinSnoc(out0, buf0);
    JoinSnoc(out, buf);
    if out == out0 {
      if out0 == [] {
        assert buf == buf0 + "\n" + line;
      } else {
        var head := JoinLines(out0) + "\n";
        assert head + (buf0 + "\n" + line) == head + buf0 + "\n" + line;
      }
    }
  }

  // ---------- The whole text ----------

  /** No chunk could have taken in the first line of the next. */
  predicate NoneHasRoom(chunks: seq<string>, size: nat) {
    forall i | 0 <= i < |chunks| - 1 :: |chunks[i]| + 1 + |FirstLine(chunks[i + 1])| > size
  }

  lemma FullAtEnd(out: seq<string>, buf: string, size: nat)
    requires Full(out, buf, size) && Fits(out, size)
    ensures var all := if buf != "" then out + [buf] else out;
            NoneHasRoom(all, size) && (|buf| <= size ==> Fits(all, size))
  {
    var all := if buf != "" then out + [buf] else out;
    forall i | 0 <= i < |all| - 1
      ensures |all[i]| + 1 + |FirstLine(all[i + 1])| > size
    {
      assert all[i] == out[i];
      if i + 1 < |out| {
        assert out[i + 1] in out && NoRoom(out[i], out[i + 1], size);
      }
    }
  }

  lemma NothingYet(lines: seq<string>, size: nat)
    ensures Full([], "", size) && Fits([], size) && Carries([], "", JoinLines(lines[..0]))
  {
    CarriesNothing();
  }

  lemma AllChunked(text: string, lines: seq<string>, out: seq<string>, buf: string, size: nat)
    requires lines == SplitLines(text) && |buf| <= size && Fits(out, size) && Full(out, buf, size)
    requires Carries(out, buf, JoinLines(lines)) && (PlainLines(text, size) ==> Rejoins(out, buf, lines))
    ensures var all := if buf != "" then out + [buf] else out;
            && Fits(all, size) && NoneHasRoom(all, size)
            && WithoutNewlines(Concat(all)) == WithoutNewlines(text) && Subsequence(Concat(all), text)
            && (PlainLines(text, size) ==> JoinLines(all) == text)
  {
    hide Carries, NoneHasRoom, Full, PlainLines, SplitLines, JoinLines, Concat, WithoutNewlines, Subsequence;
    JoinOfSplit(text);
    FlushCarries(out, buf, text);
    FullAtEnd(out, buf, size);
  }

  /** No empty line, and none too long. */
  predicate PlainLines(text: string, size: nat) {
    forall line | line in SplitLines(text) :: 0 < |line| <= size
  }

  lemma LineFits(text: string, size: nat, line: string)
    requires line in SplitLines(text)
    ensures PlainLines(text, size) ==> 0 < |line| <= size
  {
  }

  lemma NextLine(lines: seq<string>, i: nat)
    requires i < |lines|
    ensures JoinLines(lines[..i + 1]) == if i == 0 then lines[0] else JoinLines(lines[..i]) + "\n" + lines[i]
  {
    assert lines[..i + 1] == lines[..i] + [lines[i]];
    JoinSnoc(lines[..i], lines[i]);
  }

  lemma ShortText(text: string, size: nat)
    requires |text| <= size
    ensures var out := if text != "" then [text] else [];
            && Fits(out, size) && NoneHasRoom(out, size)
            && WithoutNewlines(Concat(out)) == WithoutNewlines(text) && Subsequence(Concat(out), text)
            && JoinLines(out) == text
  {
    SubsequenceOfSelf(text);
    ConcatSnoc([], text);
    assert [] + [text] == [text] && "" + text == text;
  }

  lemma FlushCarries(out: seq<string>, buf: string, text: string)
    requires Carries(out, buf, text)
    ensures var all := if buf != "" then out + [buf] else out;
            WithoutNewlines(Concat(all)) == WithoutNewlines(text) && Subsequence(Concat(all), text)
  {
    ConcatSnoc(out, buf);
    assert Concat(out) + "" == Concat(out);
  }

  /**
   Every chunk is non-empty and fits; the chunks carry the text in order, losing nothing but
   newlines. A text of non-empty lines that fit is the chunks joined by newlines. No chunk has room
   for the first line of the next.
   */
  method Chunked(text: string, size: nat) returns (out: seq<string>)
    requires size >= 1
    ensures Fits(out, size)
    ensures WithoutNewlines(Concat(out)) == WithoutNewlines(text)
    ensures Subsequence(Concat(out), text)
    ensures PlainLines(text, size) ==> JoinLines(out) == text
    ensures NoneHasRoom(out, size)
  {
    hide *;
    if |text| <= size {
      ShortText(text, size);
      return if text != "" then [text] else [];
    }
    var lines := SplitLines(text);
    LinesHaveNoBreaks(text);
    var buf := "";
    out := [];
    NothingYet(lines, size);
    for i := 0 to |lines|
      invariant Fits(out, size) && |buf| <= size && Full(out, buf, size)
      invariant Carries(out, buf, JoinLines(lines[..i]))
      invariant i == 0 ==> out == [] && buf == ""
      invariant PlainLines(text, size) && i > 0 ==> Rejoins(out, buf, lines[..i])
    {
      LineFits(text, size, lines[i]);
      out, buf := NextChunk(lines, i, out, buf, size);
    }
    assert lines[..|lines|] == lines;
    AllChunked(text, lines, out, buf, size);
    if buf != "" {
      out := out + [buf];
    }
  }

  /** Joined by newlines, the chunks and the buffer are the lines joined by newlines. */
  ghost predicate Rejoins(out: seq<string>, buf: string, lines: seq<string>) {
    buf != "" && JoinLines(out + [buf]) == JoinLines(lines)
  }

  /** One turn of the loop over the lines. */
  method NextChunk(lines: seq<string>, i: nat, out0: seq<string>, buf0: string, size: nat)
    returns (out: seq<string>, buf: string)
    requires size >= 1 && i < |lines| && Fits(out0, size) && |buf0| <= size
    requires '\n' !in lines[i] && Full(out0, buf0, size)
    requires Carries(out0, buf0, JoinLines(lines[..i]))
    requires i == 0 ==> out0 == [] && buf0 == ""
    ensures Fits(out, size) && |buf| <= size && Full(out, buf, size)
    ensures Carries(out, buf, JoinLines(lines[..i + 1]))
    ensures 0 < |lines[i]| <= size && (i > 0 ==> Rejoins(out0, buf0, lines[..i])) ==>
              Rejoins(out, buf, lines[..i + 1])
  {
    ghost var text := Before(lines, i);
    BeforeCarries(lines, i, out0, buf0);
    var line, cutOut, cutBuf, cut := CutLongLine(lines[i], out0, buf0, size, text);
    out, buf := AddLine(line, cutOut, cutBuf, size);
    NextCarries(lines, i, cut, line, cutOut, cutBuf, out, buf);
    if |lines[i]| > 0 && |lines[i]| <= size {
      NextRejoins(lines, i, out0, buf0, out, buf);
    }
  }

  /** The text of the first lines, with the break that follows them. */
  function Before(lines: seq<string>, i: nat): string
    requires i <= |lines|
  {
    if i == 0 then "" else JoinLines(lines[..i]) + "\n"
  }

  lemma BeforeCarries(lines: seq<string>, i: nat, out: seq<string>, buf: string)
    requires i < |lines| && Carries(out, buf, JoinLines(lines[..i])) && (i == 0 ==> out == [] && buf == "")
    ensures Carries(out, buf, Before(lines, i))
  {
    hide Carries, JoinLines;
    if i == 0 {
      CarriesNothing();
    } else {
      CarriesBreak(out, buf, JoinLines(lines[..i]));
    }
  }

  lemma NextCarries(
      lines: seq<string>, i: nat, cut: string, line: string, out0: seq<string>, buf0: string,
      out: seq<string>, buf: string)
    requires i < |lines| && cut + line == lines[i] && Added(line, out0, buf0, out, buf)
    requires Carries(out0, buf0, Before(lines, i) + cut)
    requires buf0 != "" ==> i > 0 && cut == "" && Carries(out0, buf0, JoinLines(lines[..i]))
    ensures Carries(out, buf, JoinLines(lines[..i + 1]))
  {
    hide Carries, JoinLines, Added;
    NextLine(lines, i);
    var text := Before(lines, i);
    assert text + cut + line == text + (cut + line);
    assert i == 0 ==> "" + lines[0] == lines[0];
    if buf0 == "" {
      AddedToEmpty(line, out0, out, buf, text + cut);
    } else {
      assert "" + line == line;
      AddedToBuffer(line, out0, buf0, out, buf, JoinLines(lines[..i]));
    }
  }

  lemma NextRejoins(lines: seq<string>, i: nat, out0: seq<string>, buf0: string, out: seq<string>, buf: string)
    requires i < |lines| && lines[i] != "" && Added(lines[i], out0, buf0, out, buf)
    requires i == 0 ==> out0 == [] && buf0 == ""
    ensures (i > 0 ==> Rejoins(out0, buf0, lines[..i])) ==> Rejoins(out, buf, lines[..i + 1])
  {
    hide JoinLines;
    NextLine(lines, i);
    if i == 0 {
      JoinSnoc([], buf);
      assert [] + [buf] == [buf];
    } else if buf0 != "" {
      AddedJoins(lines[i], out0, buf0, out, buf);
    }
  }
}

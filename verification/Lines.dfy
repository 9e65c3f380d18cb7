/** Lines of a text, and texts obtained from others by deleting characters. */
module Lines {
  import opened PyText

  /** `s.split("\n")`. */
  function SplitLines(s: string): (lines: seq<string>)
    ensures lines != []
  {
    if s == "" then [""]
    else
      var before, c := SplitLines(s[..|s| - 1]), s[|s| - 1];
      if c == '\n' then before + [""]
      else before[..|before| - 1] + [before[|before| - 1] + [c]]
  }

  /** `"\n".join(lines)`. */
  function JoinLines(lines: seq<string>): string {
    if lines == [] then ""
    else if |lines| == 1 then lines[0]
    else JoinLines(lines[..|lines| - 1]) + "\n" + lines[|lines| - 1]
  }

  lemma JoinSnoc(lines: seq<string>, last: string)
    ensures JoinLines(lines + [last]) == if lines == [] then last else JoinLines(lines) + "\n" + last
  {
    assert (lines + [last])[..|lines|] == lines;
  }

  /** Joining the lines of a text gives the text back. */
  lemma {:induction false} JoinOfSplit(s: string)
    ensures JoinLines(SplitLines(s)) == s
  {
    if s != "" {
      var init, c := s[..|s| - 1], s[|s| - 1];
      var before := SplitLines(init);
      var n := |before| - 1;
      JoinOfSplit(init);
      assert s == init + [c] && before == before[..n] + [before[n]];
      JoinSnoc(before[..n], before[n]);
      if c == '\n' {
        JoinSnoc(before, "");
        assert init + "\n" + "" == init + [c];
      } else {
        JoinSnoc(before[..n], before[n] + [c]);
        if n > 0 {
          var head := JoinLines(before[..n]) + "\n";
          assert head + (before[n] + [c]) == head + before[n] + [c];
        }
      }
    }
  }

  function WithoutNewlines(s: string): string {
    if s == "" then ""
    else WithoutNewlines(s[..|s| - 1]) + if s[|s| - 1] == '\n' then "" else [s[|s| - 1]]
  }

  lemma {:induction false} WithoutNewlinesConcat(a: string, b: string)
    ensures WithoutNewlines(a + b) == WithoutNewlines(a) + WithoutNewlines(b)
  {
    if b == "" {
      assert a + b == a;
    } else {
      var n := |b| - 1;
      WithoutNewlinesConcat(a, b[..n]);
      assert (a + b)[..|a| + n] == a + b[..n];
      var last := if b[n] == '\n' then "" else [b[n]];
      assert WithoutNewlines(a) + (WithoutNewlines(b[..n]) + last) == WithoutNewlines(a) + WithoutNewlines(b[..n]) + last;
    }
  }

  /** `a` results from `b` by deleting characters. */
  predicate Subsequence(a: string, b: string) {
    a == "" ||
    (b != "" &&
     ((a[|a| - 1] == b[|b| - 1] && Subsequence(a[..|a| - 1], b[..|b| - 1])) || Subsequence(a, b[..|b| - 1])))
  }

  lemma {:induction false} SubsequenceConcat(a: string, b: string, c: string, d: string)
    requires Subsequence(a, b) && Subsequence(c, d)
    ensures Subsequence(a + c, b + d)
    decreases |d|
  {
    if d == "" {
      assert a + c == a && b + d == b;
    } else {
      var m := |d| - 1;
      assert (b + d)[..|b| + m] == b + d[..m];
      if Subsequence(c, d[..m]) {
        SubsequenceConcat(a, b, c, d[..m]);
      } else {
        var n := |c| - 1;
        assert (a + c)[..|a| + n] == a + c[..n];
        SubsequenceConcat(a, b, c[..n], d[..m]);
      }
    }
  }

  lemma {:induction false} SubsequenceOfSelf(a: string)
    ensures Subsequence(a, a)
  {
    if a != "" {
      SubsequenceOfSelf(a[..|a| - 1]);
    }
  }
}

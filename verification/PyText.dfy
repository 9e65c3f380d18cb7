/** The few Python string operations the modelled code relies on. */
module PyText {

  datatype Option<+T> = None | Some(value: T)

  /** `str.isspace` for one character. */
  predicate IsSpace(c: char) {
    var n := c as int;
    || 9 <= n <= 13
    || 28 <= n <= 32
    || n in {0x85, 0xA0, 0x1680, 0x2028, 0x2029, 0x202F, 0x205F, 0x3000}
    || 0x2000 <= n <= 0x200A
  }

  function LStrip(s: string): (r: string)
    ensures |r| <= |s|
    ensures r != "" ==> !IsSpace(r[0])
  {
    if s != "" && IsSpace(s[0]) then LStrip(s[1..]) else s
  }

  function RStrip(s: string): (r: string)
    ensures |r| <= |s|
    ensures r != "" ==> r[0] == s[0] && !IsSpace(r[|r| - 1])
  {
    if s != "" && IsSpace(s[|s| - 1]) then RStrip(s[..|s| - 1]) else s
  }

  /** `str.strip()`. */
  function Strip(s: string): (r: string)
    ensures Stripped(r)
    ensures Stripped(s) ==> r == s
  {
    RStrip(LStrip(s))
  }

  /** No white space at either end. */
  predicate Stripped(s: string) {
    s != "" ==> !IsSpace(s[0]) && !IsSpace(s[|s| - 1])
  }

  predicate StartsWith(s: string, prefix: string) {
    |prefix| <= |s| && s[..|prefix|] == prefix
  }

  /** `"\n".join(part for part in parts if part)`. */
  function JoinNonEmpty(parts: seq<string>): string {
    if parts == [] then ""
    else
      var before := JoinNonEmpty(parts[..|parts| - 1]);
      var last := parts[|parts| - 1];
      if last == "" then before
      else if before == "" then last
      else before + "\n" + last
  }

  function Concat(parts: seq<string>): string {
    if parts == [] then "" else Concat(parts[..|parts| - 1]) + parts[|parts| - 1]
  }

  lemma ConcatSnoc(parts: seq<string>, last: string)
    ensures Concat(parts + [last]) == Concat(parts) + last
  {
    assert (parts + [last])[..|parts|] == parts;
  }

  // ---------- Decimal numerals ----------

  predicate IsDigit(c: char) { '0' <= c <= '9' }

  function DigitChar(d: nat): (c: char)
    requires d < 10
    ensures IsDigit(c) && DigitValue(c) == d
  {
    ('0' as int + d) as char
  }

  function DigitValue(c: char): (d: nat)
    requires IsDigit(c)
    ensures d < 10
  {
    c as int - '0' as int
  }

  /** `str(n)` of a natural number. */
  function Dec(n: nat): (s: string)
    ensures s != ""
  {
    if n < 10 then [DigitChar(n)] else Dec(n / 10) + [DigitChar(n % 10)]
  }

  /** `str(n)`. */
  function SignedDec(n: int): string {
    if n < 0 then "-" + Dec(-n) else Dec(n)
  }

  lemma {:induction false} DecDigits(n: nat)
    ensures forall c | c in Dec(n) :: IsDigit(c)
  {
    if n >= 10 {
      DecDigits(n / 10);
    }
  }

  /** Digits with single underscores between them, as `int()` accepts. */
  predicate IsNumeral(s: string) {
    && s != ""
    && IsDigit(s[0])
    && IsDigit(s[|s| - 1])
    && forall i | 0 <= i < |s| - 1 :: IsDigit(s[i]) || (s[i] == '_' && IsDigit(s[i + 1]))
  }

  function NumeralValue(s: string): nat {
    if s == "" then 0
    else
      var c := s[|s| - 1];
      if IsDigit(c) then 10 * NumeralValue(s[..|s| - 1]) + DigitValue(c)
      else NumeralValue(s[..|s| - 1])
  }

  /** `int(s)` on ASCII text; `None` stands for `ValueError`. */
  function ParseInt(s: string): Option<int> {
    var t := Strip(s);
    var signed := t != "" && (t[0] == '+' || t[0] == '-');
    var digits := if signed then t[1..] else t;
    if !IsNumeral(digits) then None
    else
      var v: int := NumeralValue(digits);
      Some(if signed && t[0] == '-' then -v else v)
  }

  lemma {:induction false} DecValue(n: nat)
    ensures NumeralValue(Dec(n)) == n
  {
    if n >= 10 {
      DecValue(n / 10);
      assert Dec(n)[..|Dec(n)| - 1] == Dec(n / 10);
    } else {
      assert Dec(n)[..0] == "";
    }
  }

  lemma ParseDigits(s: string)
    requires s != "" && forall c | c in s :: IsDigit(c)
    ensures ParseInt(s) == Some(NumeralValue(s))
  {
    forall i | 0 <= i < |s|
      ensures IsDigit(s[i]) && !IsSpace(s[i])
    {
      assert s[i] in s;
    }
    assert Strip(s) == s;
    assert IsDigit(s[0]);
  }

  /** `int` undoes `str` on natural numbers. */
  lemma ParseDec(n: nat)
    ensures ParseInt(Dec(n)) == Some(n)
  {
    DecDigits(n);
    ParseDigits(Dec(n));
    DecValue(n);
  }

  /** `s.split("\n", 1)[0]`. */
  function FirstLine(s: string): string {
    if s == "" || s[0] == '\n' then "" else [s[0]] + FirstLine(s[1..])
  }

  lemma {:induction false} FirstLineOf(line: string, rest: string)
    requires '\n' !in line
    ensures FirstLine(line + "\n" + rest) == line
  {
    var s := line + "\n" + rest;
    if line == "" {
      assert s[0] == '\n';
    } else {
      assert s[0] == line[0];
      assert s[1..] == line[1..] + "\n" + rest;
      FirstLineOf(line[1..], rest);
    }
  }
}

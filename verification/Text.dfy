/** The text operations that the LCOV tool and the source guards rely on, with the source
    language's meaning: `strip`, `splitlines`, `split(",", n)` and `int`. */
module Text {
  import opened Common

  /** `str.isspace` of one character; also what the pattern `\s` matches. */
  predicate IsSpace(c: char) {
    || '\t' <= c <= '\r'
    || '\U{1c}' <= c <= ' '
    || c == '\U{85}' || c == '\U{a0}' || c == '\U{1680}'
    || '\U{2000}' <= c <= '\U{200a}'
    || c == '\U{2028}' || c == '\U{2029}' || c == '\U{202f}' || c == '\U{205f}' || c == '\U{3000}'
  }

  /** The characters at which `str.splitlines` breaks; each of them is white space. */
  predicate IsBreak(c: char) {
    || '\n' <= c <= '\r'
    || '\U{1c}' <= c <= '\U{1e}'
    || c == '\U{85}' || c == '\U{2028}' || c == '\U{2029}'
  }

  predicate AllSpace(s: string) {
    forall i :: 0 <= i < |s| ==> IsSpace(s[i])
  }

  predicate NoBreak(s: string) {
    forall i :: 0 <= i < |s| ==> !IsBreak(s[i])
  }

  predicate NoComma(s: string) {
    forall i :: 0 <= i < |s| ==> s[i] != ','
  }

  /** Neither end is white space. */
  predicate Trimmed(s: string) {
    s != "" ==> !IsSpace(s[0]) && !IsSpace(s[|s| - 1])
  }

  function StripLeft(s: string): string {
    if s != "" && IsSpace(s[0]) then StripLeft(s[1..]) else s
  }

  function StripRight(s: string): string {
    if s != "" && IsSpace(s[|s| - 1]) then StripRight(s[..|s| - 1]) else s
  }

  function Strip(s: string): string {
    StripRight(StripLeft(s))
  }

  lemma StripTrimmed(s: string)
    requires Trimmed(s)
    ensures Strip(s) == s
  {
  }

  lemma {:induction false} StripLeftOf(pad: string, s: string)
    requires AllSpace(pad)
    ensures StripLeft(pad + s) == StripLeft(s)
  {
    if pad == "" {
      assert pad + s == s;
    } else {
      assert (pad + s)[1..] == pad[1..] + s;
      StripLeftOf(pad[1..], s);
    }
  }

  lemma {:induction false} StripRightOf(s: string, pad: string)
    requires AllSpace(pad)
    ensures StripRight(s + pad) == StripRight(s)
  {
    if pad == "" {
      assert s + pad == s;
    } else {
      assert (s + pad)[..|s + pad| - 1] == s + pad[..|pad| - 1];
      StripRightOf(s, pad[..|pad| - 1]);
    }
  }

  /** Stripping recovers a trimmed text from any padding around it. */
  lemma StripPadded(left: string, s: string, right: string)
    requires AllSpace(left) && AllSpace(right) && Trimmed(s)
    ensures Strip(left + s + right) == s
  {
    if s == "" {
      assert left + s + right == left + right;
      StripLeftOf(left, right);
      StripLeftOf(right, "");
      assert right + "" == right;
    } else {
      assert left + s + right == left + (s + right);
      StripLeftOf(left, s + right);
      assert StripLeft(s + right) == s + right;
      StripRightOf(s, right);
    }
  }

  lemma {:induction false} StripLeftSuffix(s: string)
    ensures |StripLeft(s)| <= |s| && StripLeft(s) == s[|s| - |StripLeft(s)|..]
    ensures StripLeft(s) != "" ==> !IsSpace(StripLeft(s)[0])
  {
    if s != "" && IsSpace(s[0]) {
      StripLeftSuffix(s[1..]);
    }
  }

  lemma {:induction false} StripRightPrefix(s: string)
    ensures StripRight(s) <= s
    ensures StripRight(s) != "" ==> !IsSpace(StripRight(s)[|StripRight(s)| - 1])
  {
    if s != "" && IsSpace(s[|s| - 1]) {
      StripRightPrefix(s[..|s| - 1]);
    }
  }

  /** The stripped text is a slice of the original that starts and ends with no space. */
  lemma StripSlice(s: string)
    ensures Trimmed(Strip(s)) && |Strip(s)| <= |s|
    ensures NoBreak(s) ==> NoBreak(Strip(s))
  {
    StripLeftSuffix(s);
    StripRightPrefix(StripLeft(s));
    var r := Strip(s);
    if r != "" {
      assert r[0] == StripLeft(s)[0];
    }
    if NoBreak(s) {
      forall i | 0 <= i < |r|
        ensures !IsBreak(r[i])
      {
        assert r[i] == StripLeft(s)[i] == s[|s| - |StripLeft(s)| + i];
      }
    }
  }

  // ---------------------------------------------------------------------------
  // Lines

  /** Length of the first line, without its break. */
  function LineLength(s: string): (n: nat)
    ensures n <= |s| && NoBreak(s[..n]) && (n < |s| ==> IsBreak(s[n]))
  {
    if s == "" || IsBreak(s[0]) then 0
    else
      var n := 1 + LineLength(s[1..]);
      assert s[..n] == [s[0]] + s[1..][..n - 1];
      n
  }

  /** A carriage return and a following line feed are one break. */
  function BreakLength(s: string): nat
    requires s != ""
  {
    if |s| > 1 && s[0] == '\r' && s[1] == '\n' then 2 else 1
  }

  function SplitLines(s: string): (lines: seq<string>)
    ensures forall i :: 0 <= i < |lines| ==> NoBreak(lines[i])
    decreases |s|
  {
    if s == "" then []
    else
      var n := LineLength(s);
      if n == |s| then [s[..n]] else [s[..n]] + SplitLines(s[n + BreakLength(s[n..])..])
  }

  lemma {:induction false} LineLengthUnique(s: string, n: nat)
    requires n <= |s| && NoBreak(s[..n]) && (n < |s| ==> IsBreak(s[n]))
    ensures LineLength(s) == n
  {
    if n > 0 {
      assert s[..n][0] == s[0];
      assert s[1..][..n - 1] == s[..n][1..];
      LineLengthUnique(s[1..], n - 1);
    }
  }

  lemma SplitFirstLine(line: string, rest: string)
    requires NoBreak(line)
    ensures SplitLines(line + "\n" + rest) == [line] + SplitLines(rest)
  {
    var s := line + "\n" + rest;
    assert s[..|line|] == line;
    LineLengthUnique(s, |line|);
    assert s[|line|..] == "\n" + rest;
    assert s[|line| + 1..] == rest;
  }

  /** `"\n".join(lines) + "\n"`, and nothing for no lines. */
  function JoinLines(lines: seq<string>): string {
    if lines == [] then "" else lines[0] + "\n" + JoinLines(lines[1..])
  }

  lemma {:induction false} SplitJoined(lines: seq<string>)
    requires forall i :: 0 <= i < |lines| ==> NoBreak(lines[i])
    ensures SplitLines(JoinLines(lines)) == lines
  {
    if lines != [] {
      SplitJoined(lines[1..]);
      SplitFirstLine(lines[0], JoinLines(lines[1..]));
    }
  }

  /** A text whose last line is terminated. */
  predicate Terminated(s: string) {
    s == "" || s[|s| - 1] == '\n'
  }

  lemma FirstLineOfConcat(s: string, t: string)
    requires s != "" && Terminated(s)
    ensures LineLength(s + t) == LineLength(s) < |s|
    ensures BreakLength((s + t)[LineLength(s)..]) == BreakLength(s[LineLength(s)..])
  {
    var n := LineLength(s);
    assert s[..|s|] == s && IsBreak(s[|s| - 1]);
    assert (s + t)[..n] == s[..n];
    LineLengthUnique(s + t, n);
    assert s[n] == '\r' ==> n + 1 < |s| && (s + t)[n..][1] == s[n..][1];
  }

  lemma {:induction false} SplitConcat(s: string, t: string)
    requires Terminated(s)
    ensures SplitLines(s + t) == SplitLines(s) + SplitLines(t)
    decreases |s|
  {
    hide SplitLines, LineLength, BreakLength;
    SplitAtLine(s);
    SplitAtLine(s + t);
    if s == "" {
      assert s + t == t;
    } else {
      FirstLineOfConcat(s, t);
      var n := LineLength(s);
      var k := n + BreakLength(s[n..]);
      assert (s + t)[..n] == s[..n];
      assert (s + t)[k..] == s[k..] + t;
      SplitConcat(s[k..], t);
      assert [s[..n]] + (SplitLines(s[k..]) + SplitLines(t)) == ([s[..n]] + SplitLines(s[k..])) + SplitLines(t);
    }
  }

  lemma SplitAtLine(s: string)
    ensures s == "" ==> SplitLines(s) == []
    ensures LineLength(s) < |s| ==>
      var n := LineLength(s);
      var k := n + BreakLength(s[n..]);
      n < k <= |s| && SplitLines(s) == [s[..n]] + SplitLines(s[k..])
  {
  }

  // ---------------------------------------------------------------------------
  // Comma-separated fields

  function CommaAt(s: string): (n: nat)
    ensures n <= |s| && NoComma(s[..n]) && (n < |s| ==> s[n] == ',')
  {
    if s == "" || s[0] == ',' then 0
    else
      var n := 1 + CommaAt(s[1..]);
      assert s[..n] == [s[0]] + s[1..][..n - 1];
      n
  }

  /** `s.split(",", max)`. */
  function SplitComma(s: string, max: nat): (parts: seq<string>)
    ensures 1 <= |parts| <= max + 1
    ensures forall i :: 0 <= i < |parts| - 1 ==> NoComma(parts[i])
    ensures |parts| <= max ==> NoComma(parts[|parts| - 1])
    decreases max
  {
    var n := CommaAt(s);
    if max == 0 then [s]
    else if n == |s| then
      assert s[..n] == s;
      [s]
    else [s[..n]] + SplitComma(s[n + 1..], max - 1)
  }

  lemma {:induction false} CommaAtUnique(s: string, n: nat)
    requires n <= |s| && NoComma(s[..n]) && (n < |s| ==> s[n] == ',')
    ensures CommaAt(s) == n
  {
    if n > 0 {
      assert s[..n][0] == s[0];
      assert s[1..][..n - 1] == s[..n][1..];
      CommaAtUnique(s[1..], n - 1);
    }
  }

  lemma SplitFirstField(field: string, rest: string, max: nat)
    requires NoComma(field)
    ensures SplitComma(field + "," + rest, max + 1) == [field] + SplitComma(rest, max)
  {
    var s := field + "," + rest;
    assert s[..|field|] == field;
    CommaAtUnique(s, |field|);
    assert s[|field| + 1..] == rest;
  }

  lemma SplitSingle(s: string, max: nat)
    requires NoComma(s)
    ensures SplitComma(s, max) == [s]
  {
    assert s[..|s|] == s;
    CommaAtUnique(s, |s|);
  }

  /** Joined again the fields are the text. */
  function JoinComma(parts: seq<string>): string
    requires parts != []
  {
    if |parts| == 1 then parts[0] else parts[0] + "," + JoinComma(parts[1..])
  }

  lemma SplitFirst(s: string, max: nat)
    ensures var n := CommaAt(s);
            if max > 0 && n < |s| then SplitComma(s, max) == [s[..n]] + SplitComma(s[n + 1..], max - 1)
            else SplitComma(s, max) == [s] && JoinComma([s]) == s
  {
  }

  lemma JoinFirst(first: string, rest: seq<string>)
    requires rest != []
    ensures JoinComma([first] + rest) == first + "," + JoinComma(rest)
  {
    assert ([first] + rest)[1..] == rest;
  }

  lemma {:induction false} JoinSplitComma(s: string, max: nat)
    ensures JoinComma(SplitComma(s, max)) == s
    decreases max
  {
    hide SplitComma, JoinComma;
    var n := CommaAt(s);
    SplitFirst(s, max);
    if max > 0 && n < |s| {
      JoinSplitComma(s[n + 1..], max - 1);
      JoinFirst(s[..n], SplitComma(s[n + 1..], max - 1));
      assert s == s[..n] + "," + s[n + 1..];
    }
  }

  // ---------------------------------------------------------------------------
  // Decimal numbers

  predicate IsDigit(c: char) {
    '0' <= c <= '9'
  }

  predicate AllDigits(s: string) {
    forall i :: 0 <= i < |s| ==> IsDigit(s[i])
  }

  function Digit(d: nat): (c: char)
    requires d < 10
    ensures IsDigit(c) && c as int == '0' as int + d
  {
    ('0' as int + d) as char
  }

  function Decimal(n: nat): (s: string)
    ensures s != "" && AllDigits(s)
  {
    if n < 10 then [Digit(n)] else Decimal(n / 10) + [Digit(n % 10)]
  }

  /** Digits with single underscores between them. */
  predicate IsNumeral(s: string) {
    && s != "" && IsDigit(s[0]) && IsDigit(s[|s| - 1])
    && (forall i :: 0 <= i < |s| ==> IsDigit(s[i]) || s[i] == '_')
    && (forall i :: 0 <= i < |s| - 1 ==> s[i] == '_' ==> s[i + 1] != '_')
  }

  function DigitValue(c: char): nat
    requires IsDigit(c)
  {
    c as int - '0' as int
  }

  function NumeralValue(s: string): nat
    requires forall i :: 0 <= i < |s| ==> IsDigit(s[i]) || s[i] == '_'
  {
    if s == "" then 0
    else
      var rest := NumeralValue(s[..|s| - 1]);
      if s[|s| - 1] == '_' then rest else 10 * rest + DigitValue(s[|s| - 1])
  }

  /** `int(s)`; an unreadable text is None. */
  function ParseInt(s: string): Option<int> {
    var t := Strip(s);
    var signed := t != "" && (t[0] == '+' || t[0] == '-');
    var digits := if signed then t[1..] else t;
    if !IsNumeral(digits) then None
    else
      var value: int := NumeralValue(digits);
      Some(if signed && t[0] == '-' then -value else value)
  }

  lemma {:induction false} NumeralOfDecimal(n: nat)
    ensures NumeralValue(Decimal(n)) == n
  {
    if n < 10 {
      assert Decimal(n)[..0] == "";
    } else {
      NumeralOfDecimal(n / 10);
      assert Decimal(n)[..|Decimal(n)| - 1] == Decimal(n / 10);
    }
  }

  /** Printing and reading a number is the identity. */
  lemma ParseDecimal(n: nat)
    ensures ParseInt(Decimal(n)) == Some(n)
  {
    var s := Decimal(n);
    assert forall i :: 0 <= i < |s| ==> !IsSpace(s[i]);
    StripTrimmed(s);
    NumeralOfDecimal(n);
  }

  lemma DecimalPlain(n: nat)
    ensures NoComma(Decimal(n)) && NoBreak(Decimal(n)) && Trimmed(Decimal(n))
    ensures Decimal(n) != "-"
  {
    var s := Decimal(n);
    assert forall i :: 0 <= i < |s| ==> IsDigit(s[i]);
    assert IsDigit(s[0]);
  }
}

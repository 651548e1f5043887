/**
 * The few Python string operations the modelled code relies on: `in` on
 * strings, `"".join`, `str.split(sep)`, `str.splitlines(keepends=True)`,
 * `str(int)` and `int(str)`.
 */
module PyText {
  import opened Wrappers

  /** `needle in hay` for two strings. */
  predicate Contains(hay: string, needle: string)
    decreases |hay|
  {
    needle <= hay || (hay != [] && Contains(hay[1..], needle))
  }

  /** Reference meaning of `in`: the needle occurs at some offset. */
  predicate OccursAt(hay: string, needle: string, k: int) {
    0 <= k && k + |needle| <= |hay| && hay[k..k + |needle|] == needle
  }

  lemma {:induction false} ContainsOccurs(hay: string, needle: string)
    requires Contains(hay, needle)
    ensures exists k :: OccursAt(hay, needle, k)
    decreases |hay|
  {
    if needle <= hay {
      assert hay[0..|needle|] == needle;
      assert OccursAt(hay, needle, 0);
    } else {
      ContainsOccurs(hay[1..], needle);
      var k :| OccursAt(hay[1..], needle, k);
      assert hay[k + 1..k + 1 + |needle|] == hay[1..][k..k + |needle|];
      assert OccursAt(hay, needle, k + 1);
    }
  }

  lemma {:induction false} OccursContains(hay: string, needle: string, k: int)
    requires OccursAt(hay, needle, k)
    ensures Contains(hay, needle)
    decreases k
  {
    if k == 0 {
      assert hay[..|needle|] == needle;
      assert needle <= hay;
    } else {
      assert hay[1..][k - 1..k - 1 + |needle|] == hay[k..k + |needle|];
      OccursContains(hay[1..], needle, k - 1);
    }
  }

  /** `in` on strings means: the needle occurs at some offset of the haystack. */
  lemma ContainsIffOccurs(hay: string, needle: string)
    ensures Contains(hay, needle) <==> exists k :: OccursAt(hay, needle, k)
  {
    if Contains(hay, needle) {
      ContainsOccurs(hay, needle);
    }
    if k :| OccursAt(hay, needle, k) {
      OccursContains(hay, needle, k);
    }
  }

  /** `"".join(parts)`. */
  function Concat(parts: seq<string>): string {
    if parts == [] then "" else parts[0] + Concat(parts[1..])
  }

  lemma {:induction false} ConcatAppend(a: seq<string>, b: seq<string>)
    ensures Concat(a + b) == Concat(a) + Concat(b)
  {
    if a != [] {
      assert (a + b)[1..] == a[1..] + b;
      ConcatAppend(a[1..], b);
    } else {
      assert a + b == b;
    }
  }

  /** `sep.join(parts)`. */
  function Join(sep: string, parts: seq<string>): string {
    if parts == [] then ""
    else if |parts| == 1 then parts[0]
    else parts[0] + sep + Join(sep, parts[1..])
  }

  /** Index of the first occurrence of `c` in `s`. */
  function IndexOf(s: string, c: char): (k: nat)
    requires c in s
    ensures k < |s| && s[k] == c && c !in s[..k]
  {
    if s[0] == c then 0 else IndexOf(s[1..], c) + 1
  }

  /** `s.split(c)` with a one-character separator. */
  function Split(s: string, c: char): (parts: seq<string>)
    ensures |parts| >= 1
    decreases |s|
  {
    if c !in s then [s]
    else
      var k := IndexOf(s, c);
      [s[..k]] + Split(s[k + 1..], c)
  }

  /** Splitting and joining again with the same separator gives the input back, and no part holds the separator. */
  lemma {:induction false} SplitJoin(s: string, c: char)
    ensures Join([c], Split(s, c)) == s
    ensures forall i :: 0 <= i < |Split(s, c)| ==> c !in Split(s, c)[i]
    decreases |s|
  {
    if c in s {
      var k := IndexOf(s, c);
      SplitJoin(s[k + 1..], c);
      var rest := Split(s[k + 1..], c);
      assert Split(s, c) == [s[..k]] + rest;
      assert Split(s, c)[1..] == rest;
      assert s == s[..k] + [c] + s[k + 1..];
    }
  }

  /** Joining parts free of the separator and splitting again gives the parts back. */
  lemma {:induction false} JoinSplit(parts: seq<string>, c: char)
    requires parts != []
    requires forall i :: 0 <= i < |parts| ==> c !in parts[i]
    ensures Split(Join([c], parts), c) == parts
    decreases |parts|
  {
    if |parts| > 1 {
      var rest := Join([c], parts[1..]);
      var s := parts[0] + [c] + rest;
      assert Join([c], parts) == s;
      var k := IndexOf(s, c);
      assert s[|parts[0]|] == c;
      assert forall m :: 0 <= m < |parts[0]| ==> s[m] == parts[0][m];
      assert forall m :: 0 <= m < k ==> s[..k][m] == s[m];
      assert s[..k] == parts[0];
      assert s[k + 1..] == rest;
      JoinSplit(parts[1..], c);
    }
  }

  // ---- str.splitlines(keepends=True) ----

  /** The line boundaries of `str.splitlines`. */
  predicate IsLineBreak(ch: char) {
    ch == '\n' || ch == '\r' || ch == '\U{000B}' || ch == '\U{000C}' || ch == '\U{001C}' ||
    ch == '\U{001D}' || ch == '\U{001E}' || ch == '\U{0085}' || ch == '\U{2028}' || ch == '\U{2029}'
  }

  /** Index just after the line that contains position `i` (its terminator included; "\r\n" counts as one). */
  function LineEnd(s: string, i: nat): (e: nat)
    requires i < |s|
    ensures i < e <= |s|
    decreases |s| - i
  {
    if s[i] == '\r' && i + 1 < |s| && s[i + 1] == '\n' then i + 2
    else if IsLineBreak(s[i]) || i + 1 == |s| then i + 1
    else LineEnd(s, i + 1)
  }

  /** `s.splitlines(keepends=True)`. */
  function SplitLines(s: string): seq<string>
    decreases |s|
  {
    if s == [] then [] else
      var e := LineEnd(s, 0);
      [s[..e]] + SplitLines(s[e..])
  }

  /** Keeping the line ends, the lines concatenate back to the input; no line is empty. */
  lemma {:induction false} SplitLinesKeepsText(s: string)
    ensures Concat(SplitLines(s)) == s
    ensures (SplitLines(s) == []) <==> (s == [])
    ensures forall i :: 0 <= i < |SplitLines(s)| ==> SplitLines(s)[i] != []
    decreases |s|
  {
    if s != [] {
      var e := LineEnd(s, 0);
      SplitLinesKeepsText(s[e..]);
      assert SplitLines(s)[1..] == SplitLines(s[e..]);
      assert s == s[..e] + s[e..];
    }
  }

  // ---- str(int) and int(str) ----

  function DigitChar(d: nat): char
    requires d < 10
  {
    "0123456789"[d]
  }

  predicate IsDigit(ch: char) { '0' <= ch <= '9' }

  function DigitValue(ch: char): nat
    requires IsDigit(ch)
  {
    (ch as int - '0' as int) as nat
  }

  /** Decimal digits of a natural number, most significant first. */
  function Digits(n: nat): (s: string)
    ensures s != [] && forall i :: 0 <= i < |s| ==> IsDigit(s[i])
  {
    if n < 10 then [DigitChar(n)] else Digits(n / 10) + [DigitChar(n % 10)]
  }

  function DigitsValue(s: string): nat
    requires forall i :: 0 <= i < |s| ==> IsDigit(s[i])
  {
    if s == [] then 0 else DigitsValue(s[..|s| - 1]) * 10 + DigitValue(s[|s| - 1])
  }

  /** `str(n)` for an integer. */
  function DecimalString(n: int): string {
    if n < 0 then "-" + Digits(-n) else Digits(n)
  }

  /** The whitespace `int()` strips from both ends of its argument. */
  predicate IsSpace(ch: char) {
    ch == ' ' || ch == '\t' || ch == '\n' || ch == '\r' || ch == '\U{000B}' || ch == '\U{000C}' ||
    ch == '\U{001C}' || ch == '\U{001D}' || ch == '\U{001E}' || ch == '\U{001F}'
  }

  function StripLeft(s: string): (r: string)
    ensures |r| <= |s| && r == s[|s| - |r|..]
    ensures r != [] ==> !IsSpace(r[0])
  {
    if s != [] && IsSpace(s[0]) then StripLeft(s[1..]) else s
  }

  function StripRight(s: string): (r: string)
    ensures |r| <= |s| && r == s[..|r|]
    ensures r != [] ==> !IsSpace(r[|r| - 1])
  {
    if s != [] && IsSpace(s[|s| - 1]) then StripRight(s[..|s| - 1]) else s
  }

  predicate AllDigits(s: string) {
    s != [] && forall i :: 0 <= i < |s| ==> IsDigit(s[i])
  }

  /** `int(s)` for a decimal string: surrounding whitespace, an optional sign, then at least one digit. */
  function ParseInt(s: string): Option<int> {
    var t := StripRight(StripLeft(s));
    if t != [] && (t[0] == '-' || t[0] == '+') then
      if AllDigits(t[1..]) then
        var v: int := DigitsValue(t[1..]);
        Some(if t[0] == '-' then -v else v)
      else None
    else if AllDigits(t) then Some(DigitsValue(t))
    else None
  }

  lemma {:induction false} DigitsRoundTrip(n: nat)
    ensures DigitsValue(Digits(n)) == n
  {
    if n >= 10 {
      DigitsRoundTrip(n / 10);
      var s := Digits(n);
      assert s[..|s| - 1] == Digits(n / 10);
    }
  }

  lemma NoSpaceAtEnds(s: string)
    requires s != [] && !IsSpace(s[0]) && !IsSpace(s[|s| - 1])
    ensures StripRight(StripLeft(s)) == s
  {
  }

  /** `int(str(n)) == n`. */
  lemma ParseDecimalString(n: int)
    ensures ParseInt(DecimalString(n)) == Some(n)
  {
    var s := DecimalString(n);
    var d := Digits(if n < 0 then -n else n);
    assert IsDigit(d[0]) && IsDigit(d[|d| - 1]);
    NoSpaceAtEnds(s);
    var t := StripRight(StripLeft(s));
    assert t == s;
    if n < 0 {
      DigitsRoundTrip(-n);
      assert t[0] == '-' && t[1..] == d && AllDigits(t[1..]);
      assert DigitsValue(t[1..]) == -n;
    } else {
      DigitsRoundTrip(n);
      assert t == d && t[0] != '-' && t[0] != '+' && AllDigits(t);
      assert DigitsValue(t) == n;
    }
  }
}

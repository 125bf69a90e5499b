/** The parts of Python's `str` and `int` that the tools rely on: `split()`,
    `split(sep)`, `' '.join`, slicing, `strip()`, `lower()`, truthiness and
    decimal conversion. */
module Text {
  import opened Common

  predicate StartsWith(s: string, prefix: string) {
    |prefix| <= |s| && s[..|prefix|] == prefix
  }

  predicate EndsWith(s: string, suffix: string) {
    |suffix| <= |s| && s[|s| - |suffix|..] == suffix
  }

  lemma ConcatStartsWith(a: string, b: string)
    ensures StartsWith(a + b, a)
  {
    assert (a + b)[..|a|] == a;
  }

  lemma ConcatEndsWith(a: string, b: string)
    ensures EndsWith(a + b, b)
  {
    assert (a + b)[|a|..] == b;
  }

  /** Python truthiness of a `str`: only the empty string is falsy. */
  predicate Truthy(s: string) {
    s != ""
  }

  /** Truthiness of an optional `str` argument: `None` and `""` are falsy. */
  predicate OptTruthy(s: Option<string>) {
    s.Some? && Truthy(s.value)
  }

  // ---------------------------------------------------------------------------
  // str.split() with no argument

  /** `str.isspace()` for one character: ASCII \t \n \v \f \r and space, the
      information separators U+001C..U+001F, and the Unicode space characters. */
  predicate IsSpace(c: char) {
    || c == ' '
    || ('\t' <= c <= '\r')
    || ('\U{1C}' <= c <= '\U{1F}')
    || c == '\U{85}' || c == '\U{A0}' || c == '\U{1680}'
    || ('\U{2000}' <= c <= '\U{200A}')
    || c == '\U{2028}' || c == '\U{2029}' || c == '\U{202F}' || c == '\U{205F}' || c == '\U{3000}'
  }

  /** A piece that `str.split()` can return: non-empty and free of whitespace. */
  predicate IsToken(w: string) {
    w != [] && forall i :: 0 <= i < |w| ==> !IsSpace(w[i])
  }

  /** Length of the longest whitespace-free prefix. */
  function WordLen(s: string): (n: nat)
    ensures n <= |s|
    ensures forall i :: 0 <= i < n ==> !IsSpace(s[i])
    ensures n < |s| ==> IsSpace(s[n])
  {
    if s == [] || IsSpace(s[0]) then 0 else 1 + WordLen(s[1..])
  }

  /** `s.split()`: the maximal runs of non-whitespace characters, in order. */
  function Words(s: string): (ws: seq<string>)
    ensures forall k :: 0 <= k < |ws| ==> IsToken(ws[k])
    decreases |s|
  {
    if s == [] then []
    else if IsSpace(s[0]) then Words(s[1..])
    else
      var n := WordLen(s);
      [s[..n]] + Words(s[n..])
  }

  /** `' '.join(ts)`. */
  function Join(ts: seq<string>): string {
    if |ts| == 0 then ""
    else if |ts| == 1 then ts[0]
    else ts[0] + " " + Join(ts[1..])
  }

  lemma {:induction false} WordLenBeforeSpace(a: string, r: string)
    requires r != [] && IsSpace(r[0])
    ensures WordLen(a + r) == WordLen(a)
  {
    if a == [] {
      assert a + r == r;
    } else if IsSpace(a[0]) {
      assert (a + r)[0] == a[0];
    } else {
      assert (a + r)[0] == a[0];
      assert (a + r)[1..] == a[1..] + r;
      WordLenBeforeSpace(a[1..], r);
    }
  }

  /** Whitespace separates: splitting at a whitespace character splits the two sides
      independently. Leading, trailing and repeated whitespace therefore vanish. */
  lemma {:induction false} WordsAtSpace(a: string, c: char, b: string)
    requires IsSpace(c)
    ensures Words(a + [c] + b) == Words(a) + Words(b)
    decreases |a|
  {
    var s := a + [c] + b;
    if a == [] {
      assert s == [c] + b;
      assert s[1..] == b;
    } else if IsSpace(a[0]) {
      assert s[0] == a[0];
      assert s[1..] == a[1..] + [c] + b;
      WordsAtSpace(a[1..], c, b);
    } else {
      assert s == a + ([c] + b);
      WordLenBeforeSpace(a, [c] + b);
      var n := WordLen(a);
      assert s[0] == a[0];
      assert s[..n] == a[..n];
      assert s[n..] == a[n..] + [c] + b;
      WordsAtSpace(a[n..], c, b);
    }
  }

  lemma WordsOfToken(w: string)
    requires IsToken(w)
    ensures Words(w) == [w]
  {
    var n := WordLen(w);
    assert n == |w|;
    assert w[..n] == w;
    assert w[n..] == [];
  }

  /** `split()` undoes `' '.join` on tokens: the two are inverse on whitespace-free,
      non-empty pieces. */
  lemma {:induction false} WordsOfJoin(ts: seq<string>)
    requires forall k :: 0 <= k < |ts| ==> IsToken(ts[k])
    ensures Words(Join(ts)) == ts
  {
    if |ts| == 0 {
    } else if |ts| == 1 {
      WordsOfToken(ts[0]);
    } else {
      assert ts[0] + " " + Join(ts[1..]) == ts[0] + [' '] + Join(ts[1..]);
      WordsAtSpace(ts[0], ' ', Join(ts[1..]));
      WordsOfToken(ts[0]);
      WordsOfJoin(ts[1..]);
      assert ts == [ts[0]] + ts[1..];
    }
  }

  /** Joining a list whose head is fixed: the head is kept verbatim, followed by
      a space and the rest when there is a rest. */
  lemma JoinCons(t: string, ts: seq<string>)
    ensures Join([t] + ts) == if ts == [] then t else t + " " + Join(ts)
  {
    assert ([t] + ts)[1..] == ts;
  }

  // ---------------------------------------------------------------------------
  // str.split(sep) with a one-character separator

  /** Index of the first `c` in `s`, or `|s|` when there is none. */
  function Find(s: string, c: char): (i: nat)
    ensures i <= |s|
    ensures i < |s| ==> s[i] == c
    ensures forall j :: 0 <= j < i ==> s[j] != c
  {
    if s == [] || s[0] == c then 0 else 1 + Find(s[1..], c)
  }

  /** `s.split(sep)`: always at least one piece, none containing `sep`; empty
      pieces are kept. */
  function SplitOn(s: string, sep: char): (parts: seq<string>)
    ensures |parts| >= 1
    ensures forall k :: 0 <= k < |parts| ==> sep !in parts[k]
    decreases |s|
  {
    var i := Find(s, sep);
    if i == |s| then [s] else [s[..i]] + SplitOn(s[i + 1..], sep)
  }

  lemma {:induction false} FindBeforeSep(a: string, r: string, c: char)
    requires r != [] && r[0] == c
    ensures Find(a + r, c) == Find(a, c)
  {
    if a == [] {
      assert a + r == r;
    } else if a[0] == c {
      assert (a + r)[0] == a[0];
    } else {
      assert (a + r)[0] == a[0];
      assert (a + r)[1..] == a[1..] + r;
      FindBeforeSep(a[1..], r, c);
    }
  }

  /** Splitting at a separator splits the two sides independently. */
  lemma {:induction false} SplitOnAtSep(a: string, sep: char, b: string)
    ensures SplitOn(a + [sep] + b, sep) == SplitOn(a, sep) + SplitOn(b, sep)
    decreases |a|
  {
    var s := a + [sep] + b;
    assert s == a + ([sep] + b);
    FindBeforeSep(a, [sep] + b, sep);
    var i := Find(a, sep);
    if i == |a| {
      assert s[..i] == a;
      assert s[i + 1..] == b;
    } else {
      assert s[..i] == a[..i];
      assert s[i + 1..] == a[i + 1..] + [sep] + b;
      SplitOnAtSep(a[i + 1..], sep, b);
    }
  }

  /** Text without the separator is a single piece. */
  lemma SplitOnWithoutSep(s: string, sep: char)
    requires sep !in s
    ensures SplitOn(s, sep) == [s]
  {
    assert Find(s, sep) == |s|;
  }

  function Last<T>(s: seq<T>): T
    requires |s| > 0
  {
    s[|s| - 1]
  }

  /** The last piece of `s.split(sep)` is the text after the last `sep`: a suffix of
      `s` that is either all of `s` or preceded by `sep` (and, by the contract of
      SplitOn, contains no `sep`). */
  lemma {:induction false} LastPieceIsTail(s: string, sep: char)
    ensures EndsWith(s, Last(SplitOn(s, sep)))
    ensures var p := Last(SplitOn(s, sep)); |p| == |s| || s[|s| - |p| - 1] == sep
    decreases |s|
  {
    var i := Find(s, sep);
    if i < |s| {
      var rest := s[i + 1..];
      LastPieceIsTail(rest, sep);
      var p := Last(SplitOn(rest, sep));
      SplitOnStep(s, sep, i, rest);
      LastOfCons(s[..i], SplitOn(rest, sep));
      assert Last(SplitOn(s, sep)) == p;
      SuffixAfterSep(s, sep, i, p);
      assert EndsWith(s, p) && (|p| == |s| || s[|s| - |p| - 1] == sep);
    } else {
      LastPieceWithoutSep(s, sep);
    }
  }

  /** One step of `SplitOn`: the piece before the first separator, then the
      pieces of the rest. */
  lemma SplitOnStep(s: string, sep: char, i: nat, rest: string)
    requires i == Find(s, sep) < |s| && rest == s[i + 1..]
    ensures SplitOn(s, sep) == [s[..i]] + SplitOn(rest, sep)
  {
  }

  /** Putting an element in front keeps the last element. */
  lemma LastOfCons<T>(x: T, t: seq<T>)
    requires |t| > 0
    ensures Last([x] + t) == Last(t)
  {
  }

  /** Without a separator, the only piece is the whole text. */
  lemma LastPieceWithoutSep(s: string, sep: char)
    requires Find(s, sep) == |s|
    ensures Last(SplitOn(s, sep)) == s
  {
    assert SplitOn(s, sep) == [s];
  }

  /** A suffix of the text after a separator, itself preceded by a separator or
      filling that text, is a suffix of the whole preceded by a separator. */
  lemma SuffixAfterSep(s: string, sep: char, i: nat, p: string)
    requires i < |s| && s[i] == sep
    requires EndsWith(s[i + 1..], p)
    requires |p| == |s| - i - 1 || s[i + 1..][|s| - i - 1 - |p| - 1] == sep
    ensures EndsWith(s, p)
    ensures |p| < |s| && s[|s| - |p| - 1] == sep
  {
    assert s[|s| - |p|..] == s[i + 1..][|s| - i - 1 - |p|..];
  }

  /** Python slice `s[:n]`, clipped to the length of `s`. */
  function Take(s: string, n: nat): string {
    if n <= |s| then s[..n] else s
  }

  /** Python slice `s[n:]`, empty when `n` passes the end. */
  function Drop(s: string, n: nat): string {
    if n <= |s| then s[n..] else ""
  }

  // ---------------------------------------------------------------------------
  // str.strip() and str.lower()

  function TrimStart(s: string): (t: string)
    ensures |t| <= |s| && t == s[|s| - |t|..]
    ensures t != [] ==> !IsSpace(t[0])
  {
    if s != [] && IsSpace(s[0]) then TrimStart(s[1..]) else s
  }

  function TrimEnd(s: string): (t: string)
    ensures |t| <= |s| && t == s[..|t|]
  {
    if s != [] && IsSpace(s[|s| - 1]) then TrimEnd(s[..|s| - 1]) else s
  }

  /** `s.strip()`. */
  function Strip(s: string): string {
    TrimEnd(TrimStart(s))
  }

  lemma StripUnpadded(s: string)
    requires s != [] && !IsSpace(s[0]) && !IsSpace(s[|s| - 1])
    ensures Strip(s) == s
  {
  }

  function LowerChar(c: char): char {
    if 'A' <= c <= 'Z' then (c as int + 32) as char else c
  }

  /** `s.lower()` on ASCII letters; other characters are kept. */
  function Lower(s: string): (t: string)
    ensures |t| == |s|
    ensures forall i :: 0 <= i < |s| ==> t[i] == LowerChar(s[i])
  {
    seq(|s|, i requires 0 <= i < |s| => LowerChar(s[i]))
  }

  /** After `lower()` no ASCII capital is left, and every character that was
      not one is where it was. */
  lemma LowerLeavesNoCapital(s: string)
    ensures forall i :: 0 <= i < |Lower(s)| ==> !('A' <= Lower(s)[i] <= 'Z')
    ensures forall i :: 0 <= i < |s| && !('A' <= s[i] <= 'Z') ==> Lower(s)[i] == s[i]
  {
  }

  lemma LowerIdempotent(s: string)
    ensures Lower(Lower(s)) == Lower(s)
  {
  }

  // ---------------------------------------------------------------------------
  // decimal digits, str(n) and int(s)

  predicate IsDigit(c: char) {
    '0' <= c <= '9'
  }

  predicate AllDigits(s: string) {
    forall i :: 0 <= i < |s| ==> IsDigit(s[i])
  }

  function DigitValue(c: char): (d: nat)
    requires IsDigit(c)
    ensures d < 10
  {
    c as int - '0' as int
  }

  function Digit(d: nat): (c: char)
    requires d < 10
    ensures IsDigit(c) && DigitValue(c) == d
  {
    ('0' as int + d) as char
  }

  /** The number a string of decimal digits denotes (leading zeros allowed). */
  function DigitsValue(s: string): nat
    requires AllDigits(s)
  {
    if s == [] then 0 else 10 * DigitsValue(s[..|s| - 1]) + DigitValue(s[|s| - 1])
  }

  function Pow10(k: nat): nat {
    if k == 0 then 1 else 10 * Pow10(k - 1)
  }

  lemma {:induction false} DigitsValueBound(s: string)
    requires AllDigits(s)
    ensures DigitsValue(s) < Pow10(|s|)
  {
    if s != [] {
      DigitsValueBound(s[..|s| - 1]);
    }
  }

  /** `str(n)` for a non-negative `int`. */
  function NatToString(n: nat): (s: string)
    ensures s != [] && AllDigits(s)
  {
    if n < 10 then [Digit(n)] else NatToString(n / 10) + [Digit(n % 10)]
  }

  /** `str(i)` for any `int`. */
  function IntToString(i: int): string {
    if i < 0 then "-" + NatToString(-i) else NatToString(i)
  }

  lemma {:induction false} NatToStringRoundTrip(n: nat)
    ensures DigitsValue(NatToString(n)) == n
  {
    if n >= 10 {
      var s := NatToString(n);
      assert s[..|s| - 1] == NatToString(n / 10);
      NatToStringRoundTrip(n / 10);
    }
  }

  /** `int(s)` for a `str`: surrounding whitespace, an optional sign, then at least
      one ASCII digit; anything else raises ValueError. */
  function ParseInt(s: string): Result<int> {
    var t := Strip(s);
    var signed := t != [] && (t[0] == '-' || t[0] == '+');
    var digits := if signed then t[1..] else t;
    if digits != [] && AllDigits(digits) then
      var v: int := DigitsValue(digits);
      Success(if signed && t[0] == '-' then -v else v)
    else
      Failure(ValueError("invalid literal for int() with base 10: '" + s + "'"))
  }

  /** `int()` reads back what `str()` writes. */
  lemma IntRoundTrip(i: int)
    ensures ParseInt(IntToString(i)) == Success(i)
  {
    var s := IntToString(i);
    var n: nat := if i < 0 then -i else i;
    var d := NatToString(n);
    StripUnpadded(s);
    NatToStringRoundTrip(n);
    if i < 0 {
      assert s[1..] == d;
    }
  }
}

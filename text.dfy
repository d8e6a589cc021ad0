/**
 * The few JavaScript string operations the modelled code relies on: the white-space class
 * shared by `String.prototype.trim` and the regular-expression class `\s`, trimming, the
 * decimal text of an integer-valued number, and `split`/`join` with a non-empty separator.
 */
module Text {
  import opened Wrappers

  /** A character that `trim` removes and `\s` matches: ECMAScript WhiteSpace and LineTerminator. */
  predicate IsWhitespace(c: char) {
    || c == ' ' || c == '\t' || c == '\n' || c == '\U{B}' || c == '\U{C}' || c == '\r'
    || c == '\U{A0}' || c == '\U{1680}' || ('\U{2000}' <= c <= '\U{200A}')
    || c == '\U{2028}' || c == '\U{2029}' || c == '\U{202F}' || c == '\U{205F}'
    || c == '\U{3000}' || c == '\U{FEFF}'
  }

  predicate NoWhitespace(s: string) {
    forall i :: 0 <= i < |s| ==> !IsWhitespace(s[i])
  }

  predicate AllWhitespace(s: string) {
    forall i :: 0 <= i < |s| ==> IsWhitespace(s[i])
  }

  // ---------------------------------------------------------------------------
  // trim

  /** `s` without its leading white space. */
  function TrimStart(s: string): (r: string)
    ensures |r| <= |s| && r == s[|s| - |r|..]
    ensures r == [] || !IsWhitespace(r[0])
    ensures s != [] && IsWhitespace(s[0]) ==> |r| < |s|
    ensures AllWhitespace(s[..|s| - |r|])
  {
    if s == [] || !IsWhitespace(s[0]) then
      assert s[..|s| - |s|] == [] && s[|s| - |s|..] == s;
      assert AllWhitespace(s[..|s| - |s|]);
      s
    else
      var r := TrimStart(s[1..]);
      TrimStartStep(s, r);
      r
  }

  /** One step of `TrimStart`: what holds of the trimmed tail holds of `s` with its leading
      white-space character put back. */
  lemma TrimStartStep(s: string, r: string)
    requires s != [] && IsWhitespace(s[0])
    requires |r| <= |s| - 1 && r == s[1..][|s| - 1 - |r|..]
    requires AllWhitespace(s[1..][..|s| - 1 - |r|])
    ensures r == s[|s| - |r|..] && AllWhitespace(s[..|s| - |r|])
  {
    assert s[1..][|s| - 1 - |r|..] == s[|s| - |r|..];
    assert s[..|s| - |r|] == [s[0]] + s[1..][..|s| - 1 - |r|];
    WhitespaceCons(s[0], s[1..][..|s| - 1 - |r|]);
  }

  lemma WhitespaceCons(c: char, w: string)
    requires IsWhitespace(c) && AllWhitespace(w)
    ensures AllWhitespace([c] + w)
  {
    assert forall i :: 1 <= i < |[c] + w| ==> ([c] + w)[i] == w[i - 1];
  }

  /** `s` without its trailing white space. */
  function TrimEnd(s: string): (r: string)
    ensures |r| <= |s| && r == s[..|r|]
    ensures r == [] || !IsWhitespace(r[|r| - 1])
    ensures AllWhitespace(s[|r|..])
  {
    if s == [] || !IsWhitespace(s[|s| - 1]) then s
    else
      var r := TrimEnd(s[..|s| - 1]);
      var w := s[|r|..];
      assert w == s[..|s| - 1][|r|..] + [s[|s| - 1]];
      assert forall i :: 0 <= i < |w| - 1 ==> w[i] == s[..|s| - 1][|r|..][i];
      r
  }

  /** `String.prototype.trim`: white space removed from both ends. */
  function Trim(s: string): string {
    TrimEnd(TrimStart(s))
  }

  /** A string trims to the empty string exactly when it is all white space. */
  lemma TrimEmptyIffBlank(s: string)
    ensures Trim(s) == [] <==> AllWhitespace(s)
  {
    var t := TrimStart(s);
    if Trim(s) == [] {
      assert AllWhitespace(t[0..]);
      assert s == s[..|s| - |t|] + t;
    }
  }

  // ---------------------------------------------------------------------------
  // decimal text of integers

  predicate IsDigit(c: char) {
    '0' <= c <= '9'
  }

  predicate AllDigits(s: string) {
    forall i :: 0 <= i < |s| ==> IsDigit(s[i])
  }

  function DigitChar(d: nat): (c: char)
    requires d < 10
    ensures IsDigit(c) && c as int - '0' as int == d
  {
    ('0' as int + d) as char
  }

  /** Decimal digits of `n`, most significant first, without leading zeros. */
  function NatToString(n: nat): (r: string)
    ensures |r| >= 1 && AllDigits(r)
    ensures r[0] == '0' ==> n == 0
  {
    if n < 10 then [DigitChar(n)] else NatToString(n / 10) + [DigitChar(n % 10)]
  }

  /** The text JavaScript produces for an integer-valued number (`String(n)`, `${n}`). */
  function IntToString(i: int): string {
    if i < 0 then "-" + NatToString(-i) else NatToString(i)
  }

  /** The value of a string of decimal digits (the reading direction of `NatToString`). */
  function DigitsValue(s: string): nat
    requires AllDigits(s)
  {
    if s == [] then 0 else 10 * DigitsValue(s[..|s| - 1]) + (s[|s| - 1] as int - '0' as int)
  }

  /** Reads back an optional minus sign and one or more decimal digits. */
  function ParseInt(s: string): Option<int> {
    if |s| >= 2 && s[0] == '-' && AllDigits(s[1..]) then Some(-(DigitsValue(s[1..]) as int))
    else if |s| >= 1 && AllDigits(s) then Some(DigitsValue(s))
    else None
  }

  lemma {:induction false} NatToStringValue(n: nat)
    ensures DigitsValue(NatToString(n)) == n
  {
    if n >= 10 {
      var r := NatToString(n);
      assert r[..|r| - 1] == NatToString(n / 10);
      NatToStringValue(n / 10);
    }
  }

  /** The decimal text of an integer reads back as that integer. */
  lemma IntToStringRoundTrip(i: int)
    ensures ParseInt(IntToString(i)) == Some(i)
  {
    if i < 0 {
      ParseNegative(-i);
    } else {
      ParseDigits(i);
    }
  }

  lemma ParseNegative(n: nat)
    requires n > 0
    ensures ParseInt("-" + NatToString(n)) == Some(-(n as int))
  {
    var r := NatToString(n);
    NatToStringValue(n);
    assert ("-" + r)[1..] == r;
  }

  lemma ParseDigits(n: nat)
    ensures ParseInt(NatToString(n)) == Some(n)
  {
    var r := NatToString(n);
    NatToStringValue(n);
    assert IsDigit(r[0]);
  }

  /** The shape of JavaScript's text for an integer: an optional minus sign and decimal
      digits, no leading zero except in "0" itself, and never "-0". */
  predicate CanonicalInt(s: string) {
    && |s| >= 1
    && (s[0] == '-' ==> |s| >= 2 && s[1] != '0' && AllDigits(s[1..]))
    && (s[0] != '-' ==> AllDigits(s) && (s[0] == '0' ==> |s| == 1))
  }

  /** The decimal text of an integer has that shape. */
  lemma IntToStringCanonical(i: int)
    ensures CanonicalInt(IntToString(i))
  {
  }

  /** A text of that shape is the only one that reads back as its integer, so a canonical
      text which parses to `i` is `IntToString(i)`: "007" and "-0" are ruled out. */
  lemma CanonicalIntUnique(s: string, i: int)
    requires CanonicalInt(s) && ParseInt(s) == Some(i)
    ensures s == IntToString(i)
  {
    if s[0] == '-' {
      DigitsUnique(s[1..]);
      assert s == "-" + s[1..];
    } else {
      DigitsUnique(s);
    }
  }

  /** Digits without a leading zero (or the lone "0") are the digits of their value. */
  lemma {:induction false} DigitsUnique(d: string)
    requires |d| >= 1 && AllDigits(d) && (d[0] == '0' ==> |d| == 1)
    ensures NatToString(DigitsValue(d)) == d
  {
    if |d| >= 2 {
      var init := d[..|d| - 1];
      DigitsUnique(init);
      DigitsPositive(init);
      var c := d[|d| - 1] as int - '0' as int;
      assert DigitsValue(d) == 10 * DigitsValue(init) + c;
      assert DigitsValue(d) / 10 == DigitsValue(init) && DigitsValue(d) % 10 == c;
      assert d == init + [DigitChar(c)];
    }
  }

  lemma {:induction false} DigitsPositive(d: string)
    requires |d| >= 1 && AllDigits(d) && d[0] != '0'
    ensures DigitsValue(d) >= 1
  {
    if |d| >= 2 {
      DigitsPositive(d[..|d| - 1]);
    }
  }

  /** Different integers have different decimal texts. */
  lemma IntToStringInjective(i: int, j: int)
    requires IntToString(i) == IntToString(j)
    ensures i == j
  {
    IntToStringRoundTrip(i);
    IntToStringRoundTrip(j);
  }

  // ---------------------------------------------------------------------------
  // split and join

  predicate OccursAt(s: string, pat: string, k: nat) {
    k + |pat| <= |s| && s[k..k + |pat|] == pat
  }

  /** Index of the first occurrence of `pat` in `s` at or after `start`. */
  function IndexOfFrom(s: string, pat: string, start: nat): (r: Option<nat>)
    requires |pat| > 0
    ensures r.Some? ==> start <= r.value && OccursAt(s, pat, r.value)
    ensures forall k :: start <= k && (r.None? || k < r.value) ==> !OccursAt(s, pat, k)
    decreases |s| - start
  {
    if start + |pat| > |s| then None
    else if s[start..start + |pat|] == pat then Some(start)
    else IndexOfFrom(s, pat, start + 1)
  }

  /** Index of the first occurrence of `pat` in `s` (`indexOf`, absent instead of -1). */
  function IndexOf(s: string, pat: string): (r: Option<nat>)
    requires |pat| > 0
    ensures r.Some? ==> OccursAt(s, pat, r.value)
    ensures forall k: nat :: (r.None? || k < r.value) ==> !OccursAt(s, pat, k)
  {
    IndexOfFrom(s, pat, 0)
  }

  /** `s.split(sep)`: the pieces between successive non-overlapping occurrences of `sep`. */
  function Split(s: string, sep: string): (r: seq<string>)
    requires |sep| > 0
    ensures |r| >= 1
    decreases |s|
  {
    match IndexOf(s, sep)
    case None => [s]
    case Some(k) => [s[..k]] + Split(s[k + |sep|..], sep)
  }

  /** `parts.join(sep)`. */
  function Join(parts: seq<string>, sep: string): string {
    if |parts| == 0 then ""
    else if |parts| == 1 then parts[0]
    else parts[0] + sep + Join(parts[1..], sep)
  }

  /** Joining the pieces of a split with the same separator gives back the original string. */
  lemma {:induction false} SplitJoin(s: string, sep: string)
    requires |sep| > 0
    ensures Join(Split(s, sep), sep) == s
    decreases |s|
  {
    var i := IndexOf(s, sep);
    if i.Some? {
      var k := i.value;
      var rest := s[k + |sep|..];
      var tail := Split(rest, sep);
      assert Split(s, sep) == [s[..k]] + tail;
      SplitJoin(rest, sep);
      JoinCons(s[..k], tail, sep);
      Reassemble(s, sep, k);
    }
  }

  lemma JoinCons(head: string, tail: seq<string>, sep: string)
    requires |tail| >= 1
    ensures Join([head] + tail, sep) == head + sep + Join(tail, sep)
  {
    assert ([head] + tail)[1..] == tail;
  }

  lemma Reassemble(s: string, sep: string, k: nat)
    requires OccursAt(s, sep, k)
    ensures s[..k] + sep + s[k + |sep|..] == s
  {
    assert s[k..k + |sep|] == sep;
    assert s == s[..k] + s[k..k + |sep|] + s[k + |sep|..];
  }

  /** A split yields a single piece exactly when the separator does not occur. */
  lemma SplitSingleIffAbsent(s: string, sep: string)
    requires |sep| > 0
    ensures |Split(s, sep)| == 1 <==> forall k :: !OccursAt(s, sep, k)
  {
    var i := IndexOf(s, sep);
    if i.Some? {
      var k := i.value;
      assert OccursAt(s, sep, k);
      var tail := Split(s[k + |sep|..], sep);
      assert Split(s, sep) == [s[..k]] + tail;
    } else {
      assert Split(s, sep) == [s];
    }
  }

  /** When the separator first occurs right after `x`, the split's first piece is `x` and the
      remaining pieces are those of what follows the separator. */
  lemma SplitAtFirst(x: string, sep: string, y: string)
    requires |sep| > 0
    requires forall k: nat :: k < |x| ==> !OccursAt(x + sep + y, sep, k)
    ensures Split(x + sep + y, sep) == [x] + Split(y, sep)
  {
    var s := x + sep + y;
    assert s[|x|..|x| + |sep|] == sep;
    assert OccursAt(s, sep, |x|);
    assert IndexOf(s, sep) == Some(|x|);
    assert s[..|x|] == x && s[|x| + |sep|..] == y;
  }
}

/**
  The JavaScript string operations the bot relies on, stated over `seq<char>`:
  lower-casing, character replacement, `Array.prototype.join`, the trailing
  separator trimmed by `slice(0, -2)`, `String.prototype.slice` with its
  clamping of out-of-range and negative positions, and the decimal rendering
  of a count inside a template literal.
*/
module Text {

  predicate IsUpper(c: char) { 'A' <= c <= 'Z' }

  predicate IsDigit(c: char) { '0' <= c <= '9' }

  predicate AllDigits(s: string) { forall i :: 0 <= i < |s| ==> IsDigit(s[i]) }

  predicate Distinct<T(==)>(s: seq<T>) { forall i, j :: 0 <= i < j < |s| ==> s[i] != s[j] }

  // ---------------------------------------------------------------------------
  // Case and character replacement
  // ---------------------------------------------------------------------------

  /** Lower-casing of one character (ASCII letters only). */
  function LowerChar(c: char): (d: char)
    ensures !IsUpper(d)
    ensures IsUpper(c) || d == c
  {
    if IsUpper(c) then (c as int - 'A' as int + 'a' as int) as char else c
  }

  /** `s.toLowerCase()`, character by character. */
  function Lower(s: string): (r: string)
    ensures |r| == |s|
    ensures forall i :: 0 <= i < |s| ==> r[i] == LowerChar(s[i])
  {
    seq(|s|, i requires 0 <= i < |s| => LowerChar(s[i]))
  }

  /** `s.replace(/from/g, to)` for a single character `from`. */
  function ReplaceChar(s: string, from: char, to: char): (r: string)
    ensures |r| == |s|
    ensures forall i :: 0 <= i < |s| ==> r[i] == if s[i] == from then to else s[i]
  {
    seq(|s|, i requires 0 <= i < |s| => if s[i] == from then to else s[i])
  }

  /** Upper-casing of one character (ASCII letters only). */
  function UpperChar(c: char): (d: char)
    ensures !('a' <= d <= 'z')
  {
    if 'a' <= c <= 'z' then (c as int - 'a' as int + 'A' as int) as char else c
  }

  /** Lower-casing leaves an already lower-case string alone and is idempotent. */
  lemma LowerFixesLowerCase(s: string)
    requires forall i :: 0 <= i < |s| ==> !IsUpper(s[i])
    ensures Lower(s) == s
  {
  }

  // ---------------------------------------------------------------------------
  // Joining with a separator
  // ---------------------------------------------------------------------------

  /** `xs.join(sep)`: the elements with `sep` between consecutive ones. */
  function Join(xs: seq<string>, sep: string): string
  {
    if |xs| == 0 then ""
    else if |xs| == 1 then xs[0]
    else Join(xs[..|xs| - 1], sep) + sep + xs[|xs| - 1]
  }

  /** What a loop `for (x of xs) acc += x + sep` builds: every element followed by `sep`. */
  function Terminated(xs: seq<string>, sep: string): string
  {
    if xs == [] then "" else Terminated(xs[..|xs| - 1], sep) + xs[|xs| - 1] + sep
  }

  /** Writing a separator after every element is the join followed by one separator. */
  lemma {:induction false} TerminatedIsJoinThenSep(xs: seq<string>, sep: string)
    requires |xs| > 0
    ensures Terminated(xs, sep) == Join(xs, sep) + sep
  {
    if |xs| > 1 {
      TerminatedIsJoinThenSep(xs[..|xs| - 1], sep);
    }
  }

  // ---------------------------------------------------------------------------
  // String.prototype.slice
  // ---------------------------------------------------------------------------

  /** How `slice` turns an argument into a position: negative counts from the end, both clamp to [0, len]. */
  function JsIndex(len: nat, k: int): (i: nat)
    ensures i <= len
  {
    if k < 0 then (if len + k < 0 then 0 else len + k)
    else if k > len then len
    else k
  }

  /** `s.slice(start, end)`. */
  function JsSlice(s: string, start: int, end: int): (r: string)
    ensures |r| <= |s|
    ensures 0 <= start <= end <= |s| ==> r == s[start..end]
    ensures -|s| <= start < 0 && 0 <= end <= |s| && |s| + start <= end ==> r == s[|s| + start..end]
    ensures 0 <= start <= |s| && -|s| <= end < 0 && start <= |s| + end ==> r == s[start..|s| + end]
    ensures JsIndex(|s|, end) <= JsIndex(|s|, start) ==> r == ""
  {
    var a, b := JsIndex(|s|, start), JsIndex(|s|, end);
    if a < b then s[a..b] else ""
  }

  /** Dropping the last separator with `slice(0, -|sep|)` turns the terminated list into the join. */
  lemma {:induction false} TrimmedTerminatedIsJoin(xs: seq<string>, sep: string)
    requires |sep| > 0
    ensures JsSlice(Terminated(xs, sep), 0, -|sep|) == Join(xs, sep)
  {
    if xs != [] {
      TerminatedIsJoinThenSep(xs, sep);
      var t := Terminated(xs, sep);
      assert t[..|t| - |sep|] == Join(xs, sep);
    }
  }

  /** Between two clamped cut points, slices of a string concatenate to the whole. */
  lemma JsSlicesMeet(s: string, a: nat, b: nat, c: nat)
    requires a <= b <= c
    ensures JsSlice(s, a, b) + JsSlice(s, b, c) == JsSlice(s, a, c)
  {
    var ia, ib, ic := JsIndex(|s|, a), JsIndex(|s|, b), JsIndex(|s|, c);
    if ia < ib && ib < ic {
      assert s[ia..ib] + s[ib..ic] == s[ia..ic];
    }
  }

  // ---------------------------------------------------------------------------
  // Removing a character
  // ---------------------------------------------------------------------------

  /** `s` with every occurrence of `c` removed. */
  function Strip(s: string, c: char): (r: string)
    ensures forall i :: 0 <= i < |r| ==> r[i] != c
  {
    if s == [] then ""
    else Strip(s[..|s| - 1], c) + (if s[|s| - 1] == c then "" else [s[|s| - 1]])
  }

  lemma {:induction false} StripAppend(a: string, b: string, c: char)
    ensures Strip(a + b, c) == Strip(a, c) + Strip(b, c)
  {
    if b != [] {
      assert (a + b)[..|a + b| - 1] == a + b[..|b| - 1];
      StripAppend(a, b[..|b| - 1], c);
    } else {
      assert a + b == a;
    }
  }

  /** A string without `c` is unchanged by removing `c`. */
  lemma {:induction false} StripAbsent(s: string, c: char)
    requires forall i :: 0 <= i < |s| ==> s[i] != c
    ensures Strip(s, c) == s
  {
    if s != [] {
      StripAbsent(s[..|s| - 1], c);
    }
  }

  // ---------------------------------------------------------------------------
  // Decimal numerals
  // ---------------------------------------------------------------------------

  function Digit(d: nat): (c: char)
    requires d < 10
    ensures IsDigit(c)
  {
    ('0' as int + d) as char
  }

  function DigitValue(c: char): nat
    requires IsDigit(c)
  {
    c as int - '0' as int
  }

  /** A non-empty digit string without a leading zero, unless it is "0" itself. */
  predicate Canonical(s: string)
  {
    |s| > 0 && AllDigits(s) && (s[0] == '0' ==> |s| == 1)
  }

  /** The decimal text of a count, as a template literal prints it. */
  function NatStr(n: nat): (s: string)
    ensures |s| > 0 && AllDigits(s)
    ensures s[0] == '0' <==> n == 0
  {
    if n < 10 then [Digit(n)] else NatStr(n / 10) + [Digit(n % 10)]
  }

  /** The value of a digit string. */
  function ParseNat(s: string): nat
    requires AllDigits(s)
  {
    if s == [] then 0 else ParseNat(s[..|s| - 1]) * 10 + DigitValue(s[|s| - 1])
  }

  /** Reading back the decimal text of a count gives the count; that text is canonical. */
  lemma {:induction false} ParseNatStr(n: nat)
    ensures ParseNat(NatStr(n)) == n
    ensures Canonical(NatStr(n))
  {
    var s := NatStr(n);
    if n >= 10 {
      ParseNatStr(n / 10);
      assert s[..|s| - 1] == NatStr(n / 10);
    }
  }

  /** Each canonical numeral is the decimal text of its value. */
  lemma {:induction false} NatStrParse(s: string)
    requires Canonical(s)
    ensures NatStr(ParseNat(s)) == s
  {
    if |s| > 1 {
      var init := s[..|s| - 1];
      assert Canonical(init);
      ParseIsPositive(init);
      NatStrParse(init);
      var n := ParseNat(s);
      assert n / 10 == ParseNat(init) && n % 10 == DigitValue(s[|s| - 1]);
    }
  }

  lemma {:induction false} ParseIsPositive(s: string)
    requires Canonical(s) && s[0] != '0'
    ensures ParseNat(s) > 0
  {
    if |s| > 1 {
      ParseIsPositive(s[..|s| - 1]);
    }
  }

  /** The decimal text determines the count. */
  lemma NatStrInjective(m: nat, n: nat)
    requires NatStr(m) == NatStr(n)
    ensures m == n
  {
    ParseNatStr(m);
    ParseNatStr(n);
  }
}

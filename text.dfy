/**
  The few operations on Python `str` values that the grabber relies on:
  `in`, `find`, `startswith`, `strip`, `split`, slicing with possibly negative
  bounds, and `int()` on a decimal string. Strings are sequences of code points.
*/
module Text {
  import opened Wrappers

  /** Python's `str.isspace` for a single code point. */
  predicate IsSpace(c: char) {
    || ('\U{9}' <= c <= '\U{D}')
    || ('\U{1C}' <= c <= '\U{20}')
    || c == '\U{85}' || c == '\U{A0}' || c == '\U{1680}'
    || ('\U{2000}' <= c <= '\U{200A}')
    || c == '\U{2028}' || c == '\U{2029}' || c == '\U{202F}'
    || c == '\U{205F}' || c == '\U{3000}'
  }

  // ---------------------------------------------------------------------------
  // Substrings: `t in s`, `s.find(t)`, `s.startswith(t)`
  // ---------------------------------------------------------------------------

  /** `t` occurs in `s` starting at index `k`. */
  predicate OccursAt(s: string, t: string, k: int) {
    0 <= k && k + |t| <= |s| && s[k..k + |t|] == t
  }

  /** Python's `t in s`. */
  ghost predicate Contains(s: string, t: string) {
    exists k :: OccursAt(s, t, k)
  }

  predicate StartsWith(s: string, p: string) {
    |p| <= |s| && s[..|p|] == p
  }

  predicate EndsWith(s: string, p: string) {
    |p| <= |s| && s[|s| - |p|..] == p
  }

  /** The first occurrence of `t` in `s` at or after index `i`, or -1. */
  function IndexFrom(s: string, t: string, i: nat): (r: int)
    requires i <= |s|
    ensures r == -1 || (i <= r && OccursAt(s, t, r))
    ensures r == -1 ==> forall k :: i <= k ==> !OccursAt(s, t, k)
    ensures r != -1 ==> forall k :: i <= k < r ==> !OccursAt(s, t, k)
    decreases |s| - i
  {
    if i + |t| > |s| then -1
    else if s[i..i + |t|] == t then i
    else IndexFrom(s, t, i + 1)
  }

  /** Python's `s.find(t)`: the first index where `t` occurs, -1 when it does not. */
  function IndexOf(s: string, t: string): (r: int)
    ensures r >= 0 <==> Contains(s, t)
    ensures r >= 0 ==> OccursAt(s, t, r) && forall k :: 0 <= k < r ==> !OccursAt(s, t, k)
    ensures r < 0 ==> r == -1
  {
    IndexFrom(s, t, 0)
  }

  /** An occurrence inside a slice of `s` is an occurrence in `s`, shifted by the slice start. */
  lemma OccursInSlice(s: string, t: string, a: int, b: int, p: int)
    requires 0 <= a <= b <= |s|
    requires OccursAt(s[a..b], t, p)
    ensures OccursAt(s, t, a + p)
  {
    forall q | 0 <= q < |t| ensures s[a + p + q] == t[q] {
      assert s[a..b][p..p + |t|][q] == t[q];
    }
    assert s[a + p..a + p + |t|] == t;
  }

  /** Text contained in a slice of `s` is contained in `s`. */
  lemma ContainsSlice(s: string, t: string, a: int, b: int)
    requires 0 <= a <= b <= |s|
    requires Contains(s[a..b], t)
    ensures Contains(s, t)
  {
    var p :| OccursAt(s[a..b], t, p);
    OccursInSlice(s, t, a, b, p);
  }

  /** An occurrence of `s` that lies wholly inside a slice is an occurrence in the slice. */
  lemma OccursInsideSlice(s: string, t: string, a: int, b: int, k: int)
    requires 0 <= a <= k && k + |t| <= b <= |s|
    requires OccursAt(s, t, k)
    ensures OccursAt(s[a..b], t, k - a)
  {
    forall q | 0 <= q < |t| ensures s[a..b][k - a + q] == t[q] {
      assert s[k..k + |t|][q] == t[q];
    }
    assert s[a..b][k - a..k - a + |t|] == t;
  }

  // ---------------------------------------------------------------------------
  // Python's `str.strip()`
  // ---------------------------------------------------------------------------

  /** Where the run of white space starting at `i` ends. */
  function SpaceRunFrom(s: string, i: nat): (n: nat)
    requires i <= |s|
    ensures i <= n <= |s|
    ensures forall k :: i <= k < n ==> IsSpace(s[k])
    ensures n == |s| || !IsSpace(s[n])
    decreases |s| - i
  {
    if i < |s| && IsSpace(s[i]) then SpaceRunFrom(s, i + 1) else i
  }

  /** Where the run of white space ending at `j` starts. */
  function SpaceRunBack(s: string, j: nat): (n: nat)
    requires j <= |s|
    ensures n <= j
    ensures forall k :: n <= k < j ==> IsSpace(s[k])
    ensures n == 0 || !IsSpace(s[n - 1])
  {
    if j > 0 && IsSpace(s[j - 1]) then SpaceRunBack(s, j - 1) else j
  }

  /** `s.lstrip()`: drops the leading white space, keeps the rest. */
  function LStrip(s: string): (r: string)
    ensures |r| <= |s| && r == s[|s| - |r|..]
    ensures forall i :: 0 <= i < |s| - |r| ==> IsSpace(s[i])
    ensures r == [] || !IsSpace(r[0])
  {
    s[SpaceRunFrom(s, 0)..]
  }

  /** `s.rstrip()`: drops the trailing white space, keeps the rest. */
  function RStrip(s: string): (r: string)
    ensures |r| <= |s| && r == s[..|r|]
    ensures forall i :: |r| <= i < |s| ==> IsSpace(s[i])
    ensures r == [] || !IsSpace(r[|r| - 1])
  {
    s[..SpaceRunBack(s, |s|)]
  }

  /** `s.strip()`. */
  function Strip(s: string): string {
    RStrip(LStrip(s))
  }

  /** What `strip` removes is white space and what it keeps is the text between, unchanged. */
  lemma StripSpec(s: string)
    ensures var r := Strip(s);
      var a := |s| - |LStrip(s)|;
      && a + |r| <= |s|
      && r == s[a..a + |r|]
      && (forall i :: 0 <= i < a ==> IsSpace(s[i]))
      && (forall i :: a + |r| <= i < |s| ==> IsSpace(s[i]))
      && (r == [] || (!IsSpace(r[0]) && !IsSpace(r[|r| - 1])))
  {
    StripKeeps(s);
    StripDropsTrailing(s);
    StripEdges(s);
  }

  lemma StripKeeps(s: string)
    ensures var r := Strip(s);
      var a := |s| - |LStrip(s)|;
      && a + |r| <= |s|
      && r == s[a..a + |r|]
  {
    PrefixOfSuffix(s, LStrip(s), Strip(s));
  }

  /** A prefix of a suffix of `s` is a slice of `s`. */
  lemma PrefixOfSuffix(s: string, l: string, r: string)
    requires |l| <= |s| && l == s[|s| - |l|..]
    requires |r| <= |l| && r == l[..|r|]
    ensures var a := |s| - |l|; a + |r| <= |s| && r == s[a..a + |r|]
  {
  }

  lemma StripDropsTrailing(s: string)
    ensures var a := |s| - |LStrip(s)|;
      forall i :: a + |Strip(s)| <= i < |s| ==> IsSpace(s[i])
  {
    var l := LStrip(s);
    var r := RStrip(l);
    var a := |s| - |l|;
    forall i | a + |r| <= i < |s| ensures IsSpace(s[i]) {
      assert s[i] == l[i - a];
    }
  }

  lemma StripEdges(s: string)
    ensures var r := Strip(s);
      r == [] || (!IsSpace(r[0]) && !IsSpace(r[|r| - 1]))
  {
    var l := LStrip(s);
    var r := RStrip(l);
    if r != [] {
      assert r[0] == l[0];
    }
  }

  /** Text without white space at either end is left alone by `strip`. */
  lemma StripKeepsClean(s: string)
    requires s == [] || (!IsSpace(s[0]) && !IsSpace(s[|s| - 1]))
    ensures Strip(s) == s
  {
  }

  /** What `strip` keeps is a piece of its input, so it holds no text the input does not. */
  lemma StripFree(s: string, t: string)
    requires !Contains(s, t)
    ensures !Contains(Strip(s), t)
  {
    var a := |s| - |LStrip(s)|;
    StripKeeps(s);
    if Contains(Strip(s), t) {
      ContainsSlice(s, t, a, a + |Strip(s)|);
    }
  }

  /** `strip` is idempotent. */
  lemma StripIdempotent(s: string)
    ensures Strip(Strip(s)) == Strip(s)
  {
    StripSpec(s);
    StripKeepsClean(Strip(s));
  }

  // ---------------------------------------------------------------------------
  // Python's `str.split(sep)` with a non-empty separator, and its inverse `sep.join`
  // ---------------------------------------------------------------------------

  /** `s.split(sep)`: the pieces between the leftmost non-overlapping occurrences of `sep`. */
  function Split(s: string, sep: string): (r: seq<string>)
    requires |sep| > 0
    ensures |r| >= 1
    decreases |s|
  {
    var k := IndexOf(s, sep);
    if k < 0 then [s] else [s[..k]] + Split(s[k + |sep|..], sep)
  }

  /** `sep.join(pieces)`. */
  function Join(pieces: seq<string>, sep: string): string
    requires |pieces| >= 1
  {
    if |pieces| == 1 then pieces[0] else pieces[0] + sep + Join(pieces[1..], sep)
  }

  /** Splitting loses nothing: joining the pieces back gives the original text. */
  lemma {:induction false} SplitJoin(s: string, sep: string)
    requires |sep| > 0
    ensures Join(Split(s, sep), sep) == s
    decreases |s|
  {
    var k := IndexOf(s, sep);
    if k >= 0 {
      var rest := s[k + |sep|..];
      SplitAt(s, sep, k);
      SplitJoin(rest, sep);
      JoinCons(s[..k], Split(rest, sep), sep);
      Reassemble(s, sep, k);
    }
  }

  /** Joining a leading piece onto at least one more. */
  lemma JoinCons(p: string, tail: seq<string>, sep: string)
    requires |tail| >= 1
    ensures Join([p] + tail, sep) == p + sep + Join(tail, sep)
  {
    assert ([p] + tail)[1..] == tail;
  }

  /** Text around an occurrence of `sep`, put back together with `sep`, is the text. */
  lemma Reassemble(s: string, sep: string, k: int)
    requires OccursAt(s, sep, k)
    ensures s[..k] + sep + s[k + |sep|..] == s
  {
    assert s == s[..k] + s[k..k + |sep|] + s[k + |sep|..];
  }

  /** No piece of a split contains the separator. */
  lemma {:induction false} SplitPiecesFree(s: string, sep: string, i: int)
    requires |sep| > 0 && 0 <= i < |Split(s, sep)|
    ensures !Contains(Split(s, sep)[i], sep)
    decreases |s|
  {
    var k := IndexOf(s, sep);
    if k >= 0 {
      var rest := s[k + |sep|..];
      assert Split(s, sep) == [s[..k]] + Split(rest, sep);
      if i == 0 {
        if Contains(s[..k], sep) {
          var p :| OccursAt(s[..k], sep, p);
          OccursInSlice(s, sep, 0, k, p);
        }
      } else {
        SplitPiecesFree(rest, sep, i - 1);
      }
    }
  }

  /**
    The other round trip, for a one-character separator: pieces free of the
    separator come back from splitting their join.
  */
  lemma {:induction false} JoinSplit(pieces: seq<string>, sep: string)
    requires |sep| == 1 && |pieces| >= 1
    requires forall i :: 0 <= i < |pieces| ==> !Contains(pieces[i], sep)
    ensures Split(Join(pieces, sep), sep) == pieces
    decreases |pieces|
  {
    var s := Join(pieces, sep);
    if |pieces| == 1 {
      assert IndexOf(s, sep) < 0;
    } else {
      var p0 := pieces[0];
      var tail := Join(pieces[1..], sep);
      assert s == p0 + sep + tail;
      FirstSeparator(p0, sep, tail);
      SplitAt(s, sep, |p0|);
      assert s[..|p0|] == p0;
      assert s[|p0| + 1..] == tail;
      JoinSplit(pieces[1..], sep);
      assert pieces == [p0] + pieces[1..];
    }
  }

  /** A one-character separator after a piece free of it is the first occurrence. */
  lemma FirstSeparator(p: string, sep: string, tail: string)
    requires |sep| == 1 && !Contains(p, sep)
    ensures IndexOf(p + sep + tail, sep) == |p|
  {
    var s := p + sep + tail;
    assert s[|p|..|p| + 1] == sep;
    assert OccursAt(s, sep, |p|);
    forall k | 0 <= k < |p|
      ensures !OccursAt(s, sep, k)
    {
      assert s[k..k + 1] == p[k..k + 1];
      assert !OccursAt(p, sep, k);
    }
  }

  /** One step of `Split` at its first separator. */
  lemma SplitAt(s: string, sep: string, k: int)
    requires |sep| > 0 && 0 <= k && IndexOf(s, sep) == k
    ensures Split(s, sep) == [s[..k]] + Split(s[k + |sep|..], sep)
  {
  }

  /** Splitting at a leading separator-free piece peels that piece off. */
  lemma SplitFirst(a: string, sep: string, b: string)
    requires |sep| == 1 && !Contains(a, sep)
    ensures Split(a + sep + b, sep) == [a] + Split(b, sep)
  {
    var s := a + sep + b;
    FirstSeparator(a, sep, b);
    SplitAt(s, sep, |a|);
    assert s[..|a|] == a && s[|a| + 1..] == b;
  }

  /** The first piece is the text before the first separator, or all of `s` when there is none. */
  lemma SplitHead(s: string, sep: string)
    requires |sep| > 0
    ensures var h := Split(s, sep)[0];
      && StartsWith(s, h)
      && !Contains(h, sep)
      && (h == s <==> !Contains(s, sep))
      && (Contains(s, sep) ==> OccursAt(s, sep, |h|))
      && (Contains(s, sep) ==> h == s[..IndexOf(s, sep)])
  {
    SplitPiecesFree(s, sep, 0);
    var k := IndexOf(s, sep);
    if k >= 0 {
      assert Split(s, sep)[0] == s[..k];
      assert |s[..k]| < |s|;
    }
  }

  // ---------------------------------------------------------------------------
  // Python slicing `s[i:j]` (step 1)
  // ---------------------------------------------------------------------------

  /** How Python normalises a slice bound: negative counts from the end, then clamp to [0, n]. */
  function SliceBound(i: int, n: nat): (b: nat)
    ensures b <= n
    ensures 0 <= i <= n ==> b == i
    ensures -(n as int) <= i < 0 ==> b == n + i
    ensures i < -(n as int) ==> b == 0
    ensures n < i ==> b == n
  {
    if i < 0 then (if i + n < 0 then 0 else i + n) else if i > n then n else i
  }

  /** Python's `s[i:j]`. */
  function PySlice(s: string, i: int, j: int): string {
    var lo, hi := SliceBound(i, |s|), SliceBound(j, |s|);
    if lo < hi then s[lo..hi] else []
  }

  // ---------------------------------------------------------------------------
  // Python's `int(text)` for decimal text
  // ---------------------------------------------------------------------------

  predicate IsDigit(c: char) {
    '0' <= c <= '9'
  }

  /**
    Python's grammar for the digits of a decimal integer literal as accepted by
    `int()`: digits, each `_` standing alone between two digits.
  */
  predicate WellFormedDigits(d: string) {
    && |d| > 0
    && IsDigit(d[0]) && IsDigit(d[|d| - 1])
    && (forall i :: 0 <= i < |d| ==> IsDigit(d[i]) || d[i] == '_')
    && (forall i :: 0 <= i < |d| - 1 ==> d[i] == '_' ==> d[i + 1] != '_')
  }

  /** The value of a run of digits, read left to right; `_` separators carry no value. */
  function DigitsValue(d: string): (v: nat)
    requires forall i :: 0 <= i < |d| ==> IsDigit(d[i]) || d[i] == '_'
  {
    if |d| == 0 then 0
    else if d[|d| - 1] == '_' then DigitsValue(d[..|d| - 1])
    else 10 * DigitsValue(d[..|d| - 1]) + DigitValue(d[|d| - 1])
  }

  function DigitValue(c: char): (v: nat)
    requires IsDigit(c)
    ensures v < 10
  {
    c as int - '0' as int
  }

  /**
    CPython's default `sys.get_int_max_str_digits()`: `int()` of decimal text
    with more digits than this raises ValueError.
  */
  const MaxStrDigits := 4300

  /** The number of digits in a run of digits; `_` separators are not counted. */
  function DigitCount(d: string): (c: nat)
    ensures c <= |d|
  {
    if |d| == 0 then 0
    else DigitCount(d[..|d| - 1]) + (if d[|d| - 1] == '_' then 0 else 1)
  }

  /**
    `int(text)` for base 10: surrounding white space, an optional sign, then
    digits, at most `MaxStrDigits` of them.
  */
  function ParseInt(text: string): Option<int> {
    var t := Strip(text);
    if |t| > 0 && (t[0] == '+' || t[0] == '-') then
      if WellFormedDigits(t[1..]) && DigitCount(t[1..]) <= MaxStrDigits then
        var v: int := DigitsValue(t[1..]);
        Some(if t[0] == '-' then -v else v)
      else None
    else if WellFormedDigits(t) && DigitCount(t) <= MaxStrDigits then Some(DigitsValue(t))
    else None
  }

  /** The decimal text Python's `str(n)` gives for a natural number. */
  function Decimal(n: nat): (d: string)
    ensures |d| > 0
    ensures forall i :: 0 <= i < |d| ==> IsDigit(d[i])
  {
    if n < 10 then [('0' as int + n) as char]
    else Decimal(n / 10) + [('0' as int + n % 10) as char]
  }

  /** `int(str(n)) == n`: reading back the decimal text of a number gives the number. */
  lemma {:induction false} DecimalValue(n: nat)
    ensures DigitsValue(Decimal(n)) == n
  {
    if n >= 10 {
      var d := Decimal(n);
      assert d[..|d| - 1] == Decimal(n / 10);
      DecimalValue(n / 10);
    }
  }

  /** Text made of digits only has one digit per character. */
  lemma {:induction false} DigitCountOfDigits(d: string)
    requires forall i :: 0 <= i < |d| ==> IsDigit(d[i])
    ensures DigitCount(d) == |d|
  {
    if |d| > 0 {
      DigitCountOfDigits(d[..|d| - 1]);
    }
  }

  /**
    `int(str(n))` is `n` when `str(n)` has at most `MaxStrDigits` digits, and
    raises ValueError (here `None`) when it has more.
  */
  lemma ParseDecimal(n: nat)
    ensures ParseInt(Decimal(n)) == if |Decimal(n)| <= MaxStrDigits then Some(n) else None
  {
    var d := Decimal(n);
    assert IsDigit(d[0]) && IsDigit(d[|d| - 1]);
    StripKeepsClean(d);
    assert WellFormedDigits(d);
    DigitCountOfDigits(d);
    DecimalValue(n);
  }
}

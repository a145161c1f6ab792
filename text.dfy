/** Text primitives the planner relies on: Python's decimal rendering of
    integers (`f"{n}"`, `f"{n:02d}"`), ASCII case folding and character
    classes (`str.lower`, the regex classes `\w` and `\s`), `str.strip`,
    `str.join` and the substring test `sub in s`. */
module Text {

  predicate IsDigit(c: char) { '0' <= c <= '9' }

  predicate AllDigits(s: string) { forall i :: 0 <= i < |s| ==> IsDigit(s[i]) }

  function DigitChar(n: nat): (c: char)
    requires n < 10
    ensures IsDigit(c) && c as int - '0' as int == n
  {
    ('0' as int + n) as char
  }

  /** `str(n)` / `f"{n}"` for a non-negative integer: decimal digits, no
      leading zero. */
  function Str(n: nat): string
    decreases n
  {
    if n < 10 then [DigitChar(n)] else Str(n / 10) + [DigitChar(n % 10)]
  }

  /** The rendering is a non-empty run of digits, without a leading zero,
      two characters long exactly for 10..99. */
  lemma {:induction false} StrDigits(n: nat)
    ensures 1 <= |Str(n)| && AllDigits(Str(n))
    ensures n >= 10 ==> |Str(n)| >= 2
    ensures n < 100 ==> |Str(n)| <= 2
    ensures n >= 1 ==> Str(n)[0] != '0'
    decreases n
  {
    if n >= 10 {
      StrDigits(n / 10);
    }
  }

  /** Distinct numbers render as distinct strings. */
  lemma {:induction false} StrInjective(a: nat, b: nat)
    requires Str(a) == Str(b)
    ensures a == b
    decreases a
  {
    StrDigits(a);
    StrDigits(b);
    if a >= 10 && b >= 10 {
      var sa, sb := Str(a), Str(b);
      assert sa[|sa| - 1] == sb[|sb| - 1];
      assert a % 10 == b % 10;
      assert Str(a / 10) == sa[..|sa| - 1] == sb[..|sb| - 1] == Str(b / 10);
      StrInjective(a / 10, b / 10);
    }
  }

  /** `f"{n:02d}"`: zero-padded to two digits, longer numbers unpadded. */
  function Pad2(n: nat): string
  {
    if n < 10 then "0" + Str(n) else Str(n)
  }

  /** The padded rendering is a run of at least two digits, exactly two
      below 100. */
  lemma Pad2Digits(n: nat)
    ensures 2 <= |Pad2(n)| && AllDigits(Pad2(n))
    ensures n < 100 ==> |Pad2(n)| == 2
  {
    StrDigits(n);
  }

  lemma Pad2Injective(a: nat, b: nat)
    requires Pad2(a) == Pad2(b)
    ensures a == b
  {
    StrDigits(a);
    StrDigits(b);
    if a < 10 && b < 10 {
      assert Str(a) == Pad2(a)[1..] == Pad2(b)[1..] == Str(b);
      StrInjective(a, b);
    } else if a >= 10 && b >= 10 {
      StrInjective(a, b);
    }
  }

  /** Number of leading decimal digits of `x`. */
  function DigitRun(x: string): (n: nat)
    ensures n <= |x|
    decreases |x|
  {
    if |x| > 0 && IsDigit(x[0]) then 1 + DigitRun(x[1..]) else 0
  }

  lemma {:induction false} DigitRunBeforeDelimiter(u: string, c: char, r: string)
    requires AllDigits(u) && !IsDigit(c)
    ensures DigitRun(u + [c] + r) == |u|
    decreases |u|
  {
    if u != [] {
      assert (u + [c] + r)[1..] == u[1..] + [c] + r;
      DigitRunBeforeDelimiter(u[1..], c, r);
    }
  }

  /** Two strings built as `digits + [c] + rest`, with `c` not a digit, are
      equal only when the digit runs and the rests are equal: the delimiter
      fixes where the number ends. */
  lemma DelimitedSplit(u: string, r: string, v: string, s: string, c: char)
    requires AllDigits(u) && AllDigits(v) && !IsDigit(c)
    requires u + [c] + r == v + [c] + s
    ensures u == v && r == s
  {
    var x := u + [c] + r;
    DigitRunBeforeDelimiter(u, c, r);
    DigitRunBeforeDelimiter(v, c, s);
    assert |u| == |v|;
    assert u == x[..|u|] == v;
    assert r == x[|u| + 1..] == s;
  }

  /** A common prefix can be cancelled. */
  lemma DropPrefix(p: string, a: string, b: string)
    requires p + a == p + b
    ensures a == b
  {
    assert a == (p + a)[|p|..];
  }

  /** ASCII `str.lower` on one character. */
  function LowerChar(c: char): char
  {
    if 'A' <= c <= 'Z' then (c as int + 32) as char else c
  }

  predicate IsUpper(c: char) { 'A' <= c <= 'Z' }

  function Lower(s: string): (r: string)
    ensures |r| == |s|
  {
    seq(|s|, i requires 0 <= i < |s| => LowerChar(s[i]))
  }

  /** `str.lower` leaves no upper-case letter. */
  lemma LowerHasNoUpper(s: string)
    ensures forall i :: 0 <= i < |Lower(s)| ==> !IsUpper(Lower(s)[i])
  {
  }

  /** Lowering a string that has no upper-case letter changes nothing. */
  lemma LowerIdentity(s: string)
    requires forall i :: 0 <= i < |s| ==> !IsUpper(s[i])
    ensures Lower(s) == s
  {
  }

  /** The regex class `\w` restricted to ASCII: letters, digits, underscore. */
  predicate IsWordChar(c: char)
  {
    ('a' <= c <= 'z') || ('A' <= c <= 'Z') || IsDigit(c) || c == '_'
  }

  /** The regex class `\s` and `str.strip`'s whitespace restricted to ASCII:
      tab, line feed, vertical tab, form feed, carriage return, the four
      separators 0x1C..0x1F and the space. */
  predicate IsSpace(c: char)
  {
    (9 <= c as int <= 13) || (28 <= c as int <= 32)
  }

  /** `sub in s`: `sub` occurs in `s` at some offset. */
  predicate Contains(s: string, sub: string)
  {
    exists i: nat :: i <= |s| && OccursAt(s, sub, i)
  }

  /** `sub` occurs in `s` starting at index `i`. */
  predicate OccursAt(s: string, sub: string, i: nat)
  {
    i + |sub| <= |s| && s[i..i + |sub|] == sub
  }

  /** `sep.join(xs)`. */
  function Join(sep: string, xs: seq<string>): string
    decreases |xs|
  {
    if |xs| == 0 then ""
    else if |xs| == 1 then xs[0]
    else Join(sep, xs[..|xs| - 1]) + sep + xs[|xs| - 1]
  }

  /** A join of non-empty pieces is empty exactly when there are no pieces. */
  lemma {:induction false} JoinEmptyIff(sep: string, xs: seq<string>)
    requires forall i :: 0 <= i < |xs| ==> xs[i] != ""
    ensures Join(sep, xs) == "" <==> xs == []
  {
    if |xs| >= 2 {
      assert |Join(sep, xs)| >= |xs[|xs| - 1]| > 0;
    }
  }

  /** The first index at or after `i` that does not hold whitespace. */
  function SpaceRunEnd(s: string, i: nat): (k: nat)
    requires i <= |s|
    ensures i <= k <= |s| && (k < |s| ==> !IsSpace(s[k]))
    decreases |s| - i
  {
    if i < |s| && IsSpace(s[i]) then SpaceRunEnd(s, i + 1) else i
  }

  /** Everything the run from `i` skips is whitespace. */
  lemma {:induction false} SpaceRunEndSkipsSpace(s: string, i: nat)
    requires i <= |s|
    ensures forall j :: i <= j < SpaceRunEnd(s, i) ==> IsSpace(s[j])
    decreases |s| - i
  {
    if i < |s| && IsSpace(s[i]) {
      SpaceRunEndSkipsSpace(s, i + 1);
    }
  }

  /** The last index at or before `j` whose predecessor does not hold
      whitespace. */
  function SpaceRunStart(s: string, j: nat): (k: nat)
    requires j <= |s|
    ensures k <= j && (k > 0 ==> !IsSpace(s[k - 1]))
  {
    if j > 0 && IsSpace(s[j - 1]) then SpaceRunStart(s, j - 1) else j
  }

  /** Everything the run back from `j` skips is whitespace. */
  lemma {:induction false} SpaceRunStartSkipsSpace(s: string, j: nat)
    requires j <= |s|
    ensures forall i :: SpaceRunStart(s, j) <= i < j ==> IsSpace(s[i])
  {
    if j > 0 && IsSpace(s[j - 1]) {
      SpaceRunStartSkipsSpace(s, j - 1);
    }
  }

  /** Leading whitespace removed, as the left half of `str.strip`. */
  function TrimLeft(s: string): (r: string)
    ensures |r| <= |s| && r == s[|s| - |r|..]
    ensures r == [] || !IsSpace(r[0])
  {
    s[SpaceRunEnd(s, 0)..]
  }

  /** Trailing whitespace removed, as the right half of `str.strip`. */
  function TrimRight(s: string): (r: string)
    ensures |r| <= |s| && r == s[..|r|]
    ensures r == [] || !IsSpace(r[|r| - 1])
  {
    s[..SpaceRunStart(s, |s|)]
  }

  /** `r` is the slice `s[a..a + |r|]` and everything of `s` outside it is
      whitespace. */
  predicate SpaceFramed(s: string, r: string, a: nat)
  {
    a + |r| <= |s| && r == s[a..a + |r|]
      && (forall i :: 0 <= i < a ==> IsSpace(s[i]))
      && (forall i :: a + |r| <= i < |s| ==> IsSpace(s[i]))
  }

  /** `r` is `s` with whitespace, and nothing else, cut from either end. */
  ghost predicate TrimmedOf(s: string, r: string)
  {
    exists a: nat :: a <= |s| && SpaceFramed(s, r, a)
  }

  /** `str.strip()`: the slice of `s` that neither starts nor ends with
      whitespace, once the whitespace at either end is cut off. */
  function Strip(s: string): (r: string)
    ensures |r| <= |s|
    ensures r == [] || (!IsSpace(r[0]) && !IsSpace(r[|r| - 1]))
  {
    TrimRight(TrimLeft(s))
  }

  /** `str.strip()` cuts whitespace, and nothing else, from the two ends:
      the result is a slice of its input framed by whitespace only. */
  lemma StripCutsOnlySpace(s: string)
    ensures TrimmedOf(s, Strip(s))
  {
    var t := TrimLeft(s);
    var r := TrimRight(t);
    var a := |s| - |t|;
    SpaceRunEndSkipsSpace(s, 0);
    SpaceRunStartSkipsSpace(t, |t|);
    assert r == s[a..a + |r|];
    assert forall i :: a + |r| <= i < |s| ==> s[i] == t[i - a];
    assert SpaceFramed(s, r, a);
  }

  /** A slice holds only characters of what it is cut from. */
  lemma FramedChars(s: string, r: string, a: nat)
    requires SpaceFramed(s, r, a)
    ensures forall c :: c in r ==> c in s
  {
    forall c | c in r ensures c in s {
      var k :| 0 <= k < |r| && r[k] == c;
      assert s[a + k] == c;
    }
  }

  /** Every character `str.strip()` returns is one of its input. */
  lemma StripKeepsChars(s: string)
    ensures forall c :: c in Strip(s) ==> c in s
  {
    StripCutsOnlySpace(s);
    var a: nat :| a <= |s| && SpaceFramed(s, Strip(s), a);
    FramedChars(s, Strip(s), a);
  }

  lemma StripIdentity(s: string)
    requires s == [] || (!IsSpace(s[0]) && !IsSpace(s[|s| - 1]))
    ensures Strip(s) == s
  {
  }
}

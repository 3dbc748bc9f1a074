/** The string primitives the widget relies on: JavaScript's notion of
    white space (used by `String.prototype.trim` and by `\s` in a regular
    expression), line terminators (which `.` in a regular expression does
    not match), `toLowerCase`, `String.prototype.includes`, the regular
    expression shape `a.*b`, and the decimal rendering of a count. */
module Text {

  /** The ECMAScript LineTerminator characters. */
  predicate IsLineTerminator(c: char) {
    c == '\n' || c == '\r' || c == '\U{2028}' || c == '\U{2029}'
  }

  /** The ECMAScript WhiteSpace and LineTerminator characters: what `\s`
      matches and what `trim()` removes. */
  predicate IsSpace(c: char) {
    || IsLineTerminator(c)
    || c == '\t' || c == '\U{000B}' || c == '\U{000C}' || c == ' '
    || c == '\U{00A0}' || c == '\U{1680}' || ('\U{2000}' <= c <= '\U{200A}')
    || c == '\U{202F}' || c == '\U{205F}' || c == '\U{3000}' || c == '\U{FEFF}'
  }

  /** `toLowerCase` on one character, for the ASCII letters. */
  function LowerChar(c: char): char {
    if 'A' <= c <= 'Z' then (c as int + 32) as char else c
  }

  function Lower(s: string): (r: string)
    ensures |r| == |s|
    ensures forall k :: 0 <= k < |s| ==> r[k] == LowerChar(s[k])
  {
    seq(|s|, k requires 0 <= k < |s| => LowerChar(s[k]))
  }

  /** A lower-cased string holds no upper-case ASCII letter, so lower-casing
      it again changes nothing. */
  lemma LowerIdempotent(s: string)
    ensures Lower(Lower(s)) == Lower(s)
    ensures forall k :: 0 <= k < |s| ==> !('A' <= Lower(s)[k] <= 'Z')
  {
  }

  /** `w` occurs in `s` starting at index `i`. */
  predicate OccursAt(s: string, w: string, i: int) {
    0 <= i && i + |w| <= |s| && s[i..i + |w|] == w
  }

  lemma OccursShift(s: string, w: string, i: int)
    requires |s| > 0 && i >= 1
    ensures OccursAt(s, w, i) <==> OccursAt(s[1..], w, i - 1)
  {
    if i + |w| <= |s| {
      assert s[1..][i - 1..i - 1 + |w|] == s[i..i + |w|];
    }
  }

  /** `s.includes(w)`, and equally the regular expression made of the
      literal `w` alone: true exactly when `w` occurs somewhere in `s`. */
  function Contains(s: string, w: string): (b: bool)
    ensures b <==> exists i :: OccursAt(s, w, i)
    decreases |s|
  {
    if |w| > |s| then false
    else if s[..|w|] == w then (assert OccursAt(s, w, 0); true)
    else
      var b := Contains(s[1..], w);
      assert b ==> exists i :: OccursAt(s, w, i) by {
        if b {
          var i :| OccursAt(s[1..], w, i);
          OccursShift(s, w, i + 1);
        }
      }
      assert (exists i :: OccursAt(s, w, i)) ==> b by {
        if i :| OccursAt(s, w, i) {
          assert i != 0;
          OccursShift(s, w, i);
        }
      }
      b
  }

  /** If `w` occurs in `s` then so does every slice of `w`. */
  lemma ContainsSlice(s: string, w: string, lo: nat, hi: nat)
    requires lo <= hi <= |w| && Contains(s, w)
    ensures Contains(s, w[lo..hi])
  {
    var i :| OccursAt(s, w, i);
    assert forall k :: 0 <= k < |w| ==> w[k] == s[i + k];
    assert s[i + lo..i + hi] == w[lo..hi];
    assert OccursAt(s, w[lo..hi], i + lo);
  }

  /** No line terminator in `s[lo..hi]`. */
  predicate NoBreak(s: string, lo: int, hi: int) {
    0 <= lo <= hi <= |s| && forall k :: lo <= k < hi ==> !IsLineTerminator(s[k])
  }

  /** The regular expression `a.*b` matches `s` with `a` at `i` and `b` at
      `j`: `.` matches any character but a line terminator. */
  predicate GapAt(s: string, a: string, b: string, i: int, j: int) {
    OccursAt(s, a, i) && OccursAt(s, b, j) && NoBreak(s, i + |a|, j)
  }

  /** `.*b` matches at the start of `t`: `b` occurs before the first line
      terminator of `t` ends. */
  function ReachesOnLine(t: string, b: string): (r: bool)
    ensures r <==> exists j :: OccursAt(t, b, j) && NoBreak(t, 0, j)
    decreases |t|
  {
    if OccursAt(t, b, 0) then (assert NoBreak(t, 0, 0); true)
    else if |t| == 0 || IsLineTerminator(t[0]) then false
    else
      var r := ReachesOnLine(t[1..], b);
      assert r ==> exists j :: OccursAt(t, b, j) && NoBreak(t, 0, j) by {
        if r {
          var j :| OccursAt(t[1..], b, j) && NoBreak(t[1..], 0, j);
          OccursShift(t, b, j + 1);
          assert forall k :: 1 <= k < j + 1 ==> t[k] == t[1..][k - 1];
          assert NoBreak(t, 0, j + 1);
        }
      }
      assert (exists j :: OccursAt(t, b, j) && NoBreak(t, 0, j)) ==> r by {
        if j :| OccursAt(t, b, j) && NoBreak(t, 0, j) {
          assert j != 0;
          OccursShift(t, b, j);
          assert NoBreak(t[1..], 0, j - 1);
        }
      }
      r
  }

  /** The regular expression `a.*b` (no flags that change `.`) matches
      somewhere in `s`. */
  function FollowedBy(s: string, a: string, b: string): (r: bool)
    ensures r <==> exists i, j :: GapAt(s, a, b, i, j)
    decreases |s|
  {
    var here := OccursAt(s, a, 0) && ReachesOnLine(s[|a|..], b);
    GapAtStart(s, a, b);
    if here then true
    else if |s| == 0 then false
    else
      var r := FollowedBy(s[1..], a, b);
      assert r ==> exists i, j :: GapAt(s, a, b, i, j) by {
        if r {
          var i, j :| GapAt(s[1..], a, b, i, j);
          GapShift(s, a, b, i + 1, j + 1);
        }
      }
      assert (exists i, j :: GapAt(s, a, b, i, j)) ==> r by {
        if i, j :| GapAt(s, a, b, i, j) {
          assert i != 0;
          GapShift(s, a, b, i, j);
        }
      }
      r
  }

  /** `a.*b` matches with `a` at the very start exactly when `.*b` matches
      right after that `a`. */
  lemma GapAtStart(s: string, a: string, b: string)
    ensures (OccursAt(s, a, 0) && ReachesOnLine(s[|a|..], b)) <==> exists j :: GapAt(s, a, b, 0, j)
  {
    if OccursAt(s, a, 0) {
      var t := s[|a|..];
      forall j | |a| <= j
        ensures GapAt(s, a, b, 0, j) <==> OccursAt(t, b, j - |a|) && NoBreak(t, 0, j - |a|)
      {
        if j + |b| <= |s| {
          SliceOfSlice(s, |a|, j - |a|, j - |a| + |b|);
        }
        assert forall k :: |a| <= k < j && j <= |s| ==> s[k] == t[k - |a|];
      }
      if ReachesOnLine(t, b) {
        var j' :| OccursAt(t, b, j') && NoBreak(t, 0, j');
        assert GapAt(s, a, b, 0, j' + |a|);
      }
    }
  }

  lemma GapShift(s: string, a: string, b: string, i: int, j: int)
    requires |s| > 0 && i >= 1 && j >= 1
    ensures GapAt(s, a, b, i, j) <==> GapAt(s[1..], a, b, i - 1, j - 1)
  {
    OccursShift(s, a, i);
    OccursShift(s, b, j);
    if 0 <= i + |a| <= j <= |s| {
      assert forall k :: i + |a| <= k < j ==> s[k] == s[1..][k - 1];
    }
  }

  /** Number of white-space characters at the start of `s`. */
  function LeadingSpaces(s: string): (n: nat)
    ensures n <= |s|
    ensures forall k {:trigger IsSpace(s[k])} :: 0 <= k < n ==> IsSpace(s[k])
    ensures n < |s| ==> !IsSpace(s[n])
    decreases |s|
  {
    if |s| == 0 || !IsSpace(s[0]) then 0 else 1 + LeadingSpaces(s[1..])
  }

  /** Number of white-space characters at the end of `s`. */
  function TrailingSpaces(s: string): (n: nat)
    ensures n <= |s|
    ensures forall k {:trigger IsSpace(s[k])} :: |s| - n <= k < |s| ==> IsSpace(s[k])
    ensures n < |s| ==> !IsSpace(s[|s| - 1 - n])
    decreases |s|
  {
    if |s| == 0 || !IsSpace(s[|s| - 1]) then 0 else 1 + TrailingSpaces(s[..|s| - 1])
  }

  /** `s.trim()`: the longest slice of `s` that neither starts nor ends with
      white space, obtained by dropping only white space on either side. */
  function Trim(s: string): (r: string)
    ensures var lo := LeadingSpaces(s);
      && lo + |r| <= |s| && r == s[lo..lo + |r|]
      && (forall k :: 0 <= k < lo ==> IsSpace(s[k]))
      && (forall k :: lo + |r| <= k < |s| ==> IsSpace(s[k]))
    ensures r != [] ==> !IsSpace(r[0]) && !IsSpace(r[|r| - 1])
    ensures r == [] <==> forall k :: 0 <= k < |s| ==> IsSpace(s[k])
  {
    var lo := LeadingSpaces(s);
    var t := s[lo..];
    var r := t[..|t| - TrailingSpaces(t)];
    SliceOfSlice(s, lo, 0, |r|);
    TrimDropsOnlySpaces(s, lo, |r|);
    TrimEnds(s, t, r);
    TrimEmpty(s, t, r);
    r
  }

  /** A slice of the suffix `s[lo..]` is a slice of `s`. */
  lemma SliceOfSlice(s: string, lo: nat, x: nat, y: nat)
    requires lo + y <= |s| && x <= y
    ensures s[lo..][x..y] == s[lo + x..lo + y]
  {
  }

  /** A slice of the slice `s[lo..hi]` is a slice of `s`. */
  lemma InnerSlice(s: string, lo: nat, hi: nat, x: nat, y: nat)
    requires lo <= hi <= |s| && x <= y <= hi - lo
    ensures s[lo..hi][x..y] == s[lo + x..lo + y]
  {
    var inner := s[lo..hi];
    assert forall k :: 0 <= k < y - x ==> inner[x..y][k] == inner[x + k] == s[lo + x + k];
  }

  lemma TrimDropsOnlySpaces(s: string, lo: nat, n: nat)
    requires lo + n <= |s|
    requires forall k {:trigger IsSpace(s[lo..][k])} :: n <= k < |s| - lo ==> IsSpace(s[lo..][k])
    ensures forall k {:trigger IsSpace(s[k])} :: lo + n <= k < |s| ==> IsSpace(s[k])
  {
    forall k | lo + n <= k < |s|
      ensures IsSpace(s[k])
    {
      assert s[k] == s[lo..][k - lo];
    }
  }

  lemma TrimEnds(s: string, t: string, r: string)
    requires t == s[LeadingSpaces(s)..] && r == t[..|t| - TrailingSpaces(t)]
    ensures r != [] ==> !IsSpace(r[0]) && !IsSpace(r[|r| - 1])
  {
    if r != [] {
      assert r[0] == s[LeadingSpaces(s)];
      assert r[|r| - 1] == t[|t| - 1 - TrailingSpaces(t)];
    }
  }

  lemma TrimEmpty(s: string, t: string, r: string)
    requires t == s[LeadingSpaces(s)..] && r == t[..|t| - TrailingSpaces(t)]
    ensures r == [] <==> forall k :: 0 <= k < |s| ==> IsSpace(s[k])
  {
    if r == [] {
      TrimDropsOnlySpaces(s, LeadingSpaces(s), 0);
    }
  }

  /** Trimming twice trims no more than trimming once. */
  lemma TrimIdempotent(s: string)
    ensures Trim(Trim(s)) == Trim(s)
  {
    var r := Trim(s);
    if r != [] {
      assert LeadingSpaces(r) == 0;
    }
  }

  function DigitChar(d: nat): (c: char)
    requires d < 10
    ensures '0' <= c <= '9'
  {
    ('0' as int + d) as char
  }

  predicate AllDigits(s: string) {
    forall k :: 0 <= k < |s| ==> '0' <= s[k] <= '9'
  }

  /** A number in a template literal, `${n}`, for a non-negative integer:
      its decimal digits without leading zeros. */
  function NatToString(n: nat): (s: string)
    ensures |s| >= 1 && AllDigits(s)
    ensures |s| > 1 ==> s[0] != '0'
    decreases n
  {
    if n < 10 then [DigitChar(n)] else NatToString(n / 10) + [DigitChar(n % 10)]
  }

  /** The value of a string of decimal digits. */
  function DigitsValue(s: string): nat
    requires AllDigits(s)
  {
    if |s| == 0 then 0 else 10 * DigitsValue(s[..|s| - 1]) + (s[|s| - 1] as int - '0' as int)
  }

  /** Reading the rendered count back gives the count. */
  lemma {:induction false} NatToStringValue(n: nat)
    ensures DigitsValue(NatToString(n)) == n
    decreases n
  {
    if n >= 10 {
      var s := NatToString(n);
      assert s[..|s| - 1] == NatToString(n / 10);
      NatToStringValue(n / 10);
    }
  }

  /** Two different counts never render the same. */
  lemma NatToStringInjective(m: nat, n: nat)
    requires NatToString(m) == NatToString(n)
    ensures m == n
  {
    NatToStringValue(m);
    NatToStringValue(n);
  }
}

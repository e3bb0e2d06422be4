/** String helpers shared by the other modules: the pieces of Python's `str`
    that the job sentinel uses (ASCII `lower()`, `in` on strings, `sep.join`,
    `strip()`, `str(int)`), each defined once over `seq<char>`. */
module Text {

  /** Python's `str.lower()` restricted to ASCII: 'A'..'Z' map to 'a'..'z'. */
  function LowerChar(c: char): char
  {
    if 'A' <= c <= 'Z' then (c as int + 32) as char else c
  }

  function Lower(s: string): (r: string)
    ensures |r| == |s|
    ensures forall i :: 0 <= i < |s| ==> r[i] == LowerChar(s[i])
  {
    seq(|s|, i requires 0 <= i < |s| => LowerChar(s[i]))
  }

  lemma LowerAppend(a: string, b: string)
    ensures Lower(a + b) == Lower(a) + Lower(b)
  {
    assert forall i :: 0 <= i < |a + b| ==> Lower(a + b)[i] == (Lower(a) + Lower(b))[i];
  }

  /** Python's `t in s` for strings: `t` occurs in `s` as a contiguous run. */
  predicate Contains(s: string, t: string)
  {
    exists i :: 0 <= i <= |s| && t <= s[i..]
  }

  lemma ContainsAt(s: string, t: string, i: nat)
    requires i <= |s| && t <= s[i..]
    ensures Contains(s, t)
  {
  }

  /** Whatever occurs in `u` still occurs once text is added on either side. */
  lemma ContainsInside(p: string, u: string, q: string, t: string)
    requires Contains(u, t)
    ensures Contains(p + u + q, t)
  {
    var i :| 0 <= i <= |u| && t <= u[i..];
    var s := p + u + q;
    assert s[|p| + i..] == u[i..] + q;
    ContainsAt(s, t, |p| + i);
  }

  /** Whatever occurs in `u` still occurs once text is appended. */
  lemma ContainsLeft(u: string, q: string, t: string)
    requires Contains(u, t)
    ensures Contains(u + q, t)
  {
    var i :| 0 <= i <= |u| && t <= u[i..];
    assert (u + q)[i..] == u[i..] + q;
    ContainsAt(u + q, t, i);
  }

  /** Occurrence is transitive: what occurs in an occurring string occurs in the text. */
  lemma ContainsTrans(s: string, t: string, u: string)
    requires Contains(s, t) && Contains(t, u)
    ensures Contains(s, u)
  {
    var i :| 0 <= i <= |s| && t <= s[i..];
    var j :| 0 <= j <= |t| && u <= t[j..];
    assert u <= s[i + j..] by {
      forall k | 0 <= k < |u|
        ensures u[k] == s[i + j + k]
      {
        assert u[k] == t[j + k] == s[i + j + k];
      }
    }
    ContainsAt(s, u, i + j);
  }

  /** Nothing but the empty string occurs in the empty string. */
  lemma ContainsInEmpty(t: string)
    requires |t| > 0
    ensures !Contains("", t)
  {
  }

  /** Every character of an occurring string occurs in the text. */
  lemma ContainsChar(s: string, t: string, k: nat)
    requires Contains(s, t) && k < |t|
    ensures t[k] in s
  {
    var i :| 0 <= i <= |s| && t <= s[i..];
    assert s[i + k] == t[k];
  }

  /** Python's `sep.join(parts)`. */
  function Join(sep: string, parts: seq<string>): string
  {
    if |parts| == 0 then ""
    else if |parts| == 1 then parts[0]
    else parts[0] + sep + Join(sep, parts[1..])
  }

  lemma {:induction false} JoinAppend(sep: string, parts: seq<string>, x: string)
    requires |parts| > 0
    ensures Join(sep, parts + [x]) == Join(sep, parts) + sep + x
  {
    if |parts| > 1 {
      assert (parts + [x])[1..] == parts[1..] + [x];
      JoinAppend(sep, parts[1..], x);
    } else {
      assert (parts + [x])[1..] == [x];
    }
  }

  /** Every part of a join occurs in the joined string. */
  lemma {:induction false} JoinContainsPart(sep: string, parts: seq<string>, k: nat)
    requires k < |parts|
    ensures Contains(Join(sep, parts), parts[k])
  {
    if |parts| == 1 {
      ContainsAt(parts[0], parts[0], 0);
    } else if k == 0 {
      ContainsAt(Join(sep, parts), parts[0], 0);
    } else {
      JoinContainsPart(sep, parts[1..], k - 1);
      ContainsInside(parts[0] + sep, Join(sep, parts[1..]), "", parts[k]);
      assert parts[0] + sep + Join(sep, parts[1..]) + "" == Join(sep, parts);
    }
  }

  /** The characters Python's `str.isspace()` accepts, which `strip()` removes. */
  const Whitespace: set<char> := {
    '\t', '\n', '\U{000B}', '\U{000C}', '\r', '\U{001C}', '\U{001D}', '\U{001E}', '\U{001F}', ' ',
    '\U{0085}', '\U{00A0}', '\U{1680}', '\U{2000}', '\U{2001}', '\U{2002}', '\U{2003}', '\U{2004}',
    '\U{2005}', '\U{2006}', '\U{2007}', '\U{2008}', '\U{2009}', '\U{200A}', '\U{2028}', '\U{2029}',
    '\U{202F}', '\U{205F}', '\U{3000}'
  }

  function StripLeft(s: string, drop: set<char>): string
  {
    if |s| > 0 && s[0] in drop then StripLeft(s[1..], drop) else s
  }

  function StripRight(s: string, drop: set<char>): string
  {
    if |s| > 0 && s[|s| - 1] in drop then StripRight(s[..|s| - 1], drop) else s
  }

  /** Python's `s.strip(chars)`: drop characters of `drop` from both ends.
      The result is a slice of `s` with only dropped characters outside it. */
  function StripChars(s: string, drop: set<char>): (r: string)
    ensures |r| > 0 ==> r[0] !in drop && r[|r| - 1] !in drop
    ensures exists i, j :: 0 <= i <= j <= |s| && r == s[i..j]
                        && (forall k :: 0 <= k < i ==> s[k] in drop) && (forall k :: j <= k < |s| ==> s[k] in drop)
  {
    StripCharsEnds(s, drop);
    StripCharsSlice(s, drop);
    StripRight(StripLeft(s, drop), drop)
  }

  /** Python's `s.strip()`. */
  function Strip(s: string): string
  {
    StripChars(s, Whitespace)
  }

  /** How many leading characters `StripLeft` removes. */
  function LeftCut(s: string, drop: set<char>): (i: nat)
    ensures i <= |s|
  {
    if |s| > 0 && s[0] in drop then 1 + LeftCut(s[1..], drop) else 0
  }

  /** How many characters `StripRight` keeps. */
  function RightCut(s: string, drop: set<char>): (j: nat)
    ensures j <= |s|
  {
    if |s| > 0 && s[|s| - 1] in drop then RightCut(s[..|s| - 1], drop) else |s|
  }

  lemma {:induction false} StripLeftShape(s: string, drop: set<char>)
    ensures StripLeft(s, drop) == s[LeftCut(s, drop)..]
    ensures forall k :: 0 <= k < LeftCut(s, drop) ==> s[k] in drop
    ensures |StripLeft(s, drop)| > 0 ==> StripLeft(s, drop)[0] !in drop
  {
    if |s| > 0 && s[0] in drop {
      var t := s[1..];
      StripLeftShape(t, drop);
      var i := LeftCut(t, drop);
      assert t[i..] == s[i + 1..];
      forall k | 0 <= k < i + 1
        ensures s[k] in drop
      {
        if k > 0 {
          assert s[k] == t[k - 1];
        }
      }
    } else {
      assert s == s[0..];
    }
  }

  lemma {:induction false} StripRightShape(s: string, drop: set<char>)
    ensures StripRight(s, drop) == s[..RightCut(s, drop)]
    ensures forall k :: RightCut(s, drop) <= k < |s| ==> s[k] in drop
    ensures |StripRight(s, drop)| > 0 ==> StripRight(s, drop)[|StripRight(s, drop)| - 1] !in drop
    ensures |s| > 0 && s[0] !in drop ==> |StripRight(s, drop)| > 0 && StripRight(s, drop)[0] == s[0]
  {
    if |s| > 0 && s[|s| - 1] in drop {
      var t := s[..|s| - 1];
      StripRightShape(t, drop);
      var j := RightCut(t, drop);
      assert t[..j] == s[..j];
      forall k | j <= k < |s|
        ensures s[k] in drop
      {
        if k < |t| {
          assert s[k] == t[k];
        }
      }
    } else {
      assert s == s[..|s|];
    }
  }

  lemma StripCharsEnds(s: string, drop: set<char>)
    ensures var r := StripRight(StripLeft(s, drop), drop);
      |r| > 0 ==> r[0] !in drop && r[|r| - 1] !in drop
  {
    StripLeftShape(s, drop);
    StripRightShape(StripLeft(s, drop), drop);
  }

  lemma StripCharsSlice(s: string, drop: set<char>)
    ensures exists i, j :: 0 <= i <= j <= |s| && StripRight(StripLeft(s, drop), drop) == s[i..j]
                          && (forall k :: 0 <= k < i ==> s[k] in drop) && (forall k :: j <= k < |s| ==> s[k] in drop)
  {
    var left := StripLeft(s, drop);
    StripLeftShape(s, drop);
    StripRightShape(left, drop);
    ComposeCuts(s, left, StripRight(left, drop), drop, LeftCut(s, drop), RightCut(left, drop));
  }

  /** Cutting a prefix and then a suffix of droppable characters leaves a
      middle slice with only droppable characters outside it. */
  lemma ComposeCuts(s: string, left: string, r: string, drop: set<char>, i: nat, j: nat)
    requires i <= |s| && left == s[i..] && forall k :: 0 <= k < i ==> s[k] in drop
    requires j <= |left| && r == left[..j] && forall k :: j <= k < |left| ==> left[k] in drop
    ensures exists a, b :: 0 <= a <= b <= |s| && r == s[a..b]
                          && (forall k :: 0 <= k < a ==> s[k] in drop) && (forall k :: b <= k < |s| ==> s[k] in drop)
  {
    SliceOfSuffix(s, i, j);
    assert forall k :: i + j <= k < |s| ==> s[k] in drop by {
      forall k | i + j <= k < |s|
        ensures s[k] in drop
      {
        assert s[k] == left[k - i];
      }
    }
    assert 0 <= i <= i + j <= |s| && r == s[i..i + j];
  }

  /** A prefix of a suffix is a middle slice. */
  lemma SliceOfSuffix(s: string, i: nat, j: nat)
    requires i + j <= |s|
    ensures s[i..][..j] == s[i..i + j]
  {
  }

  /** Leading characters of `drop` are stripped away whatever follows them. */
  lemma {:induction false} StripLeftPadding(w: string, x: string, drop: set<char>)
    requires forall k :: 0 <= k < |w| ==> w[k] in drop
    ensures StripLeft(w + x, drop) == StripLeft(x, drop)
  {
    if |w| == 0 {
      assert w + x == x;
    } else {
      assert (w + x)[1..] == w[1..] + x;
      StripLeftPadding(w[1..], x, drop);
    }
  }

  /** Left-stripping a concatenation: the tail is kept whole unless the head
      is stripped away entirely. */
  lemma {:induction false} StripLeftAppend(s: string, t: string, drop: set<char>)
    ensures StripLeft(s + t, drop) == if StripLeft(s, drop) == [] then StripLeft(t, drop) else StripLeft(s, drop) + t
  {
    if |s| == 0 {
      assert s + t == t;
    } else if s[0] in drop {
      assert (s + t)[1..] == s[1..] + t;
      StripLeftAppend(s[1..], t, drop);
    }
  }

  /** Trailing characters of `drop` are stripped away whatever precedes them. */
  lemma {:induction false} StripRightPadding(x: string, w: string, drop: set<char>)
    requires forall k :: 0 <= k < |w| ==> w[k] in drop
    ensures StripRight(x + w, drop) == StripRight(x, drop)
  {
    if |w| == 0 {
      assert x + w == x;
    } else {
      assert (x + w)[..|x + w| - 1] == x + w[..|w| - 1];
      StripRightPadding(x, w[..|w| - 1], drop);
    }
  }

  /** Whitespace around a string makes no difference to `strip()`. */
  lemma StripIgnoresPadding(w1: string, s: string, w2: string)
    requires forall k :: 0 <= k < |w1| ==> w1[k] in Whitespace
    requires forall k :: 0 <= k < |w2| ==> w2[k] in Whitespace
    ensures Strip(w1 + s + w2) == Strip(s)
  {
    assert w1 + s + w2 == w1 + (s + w2);
    StripLeftPadding(w1, s + w2, Whitespace);
    StripLeftAppend(s, w2, Whitespace);
    if StripLeft(s, Whitespace) == [] {
      StripLeftPadding(w2, [], Whitespace);
      assert w2 + [] == w2;
    } else {
      StripRightPadding(StripLeft(s, Whitespace), w2, Whitespace);
    }
  }

  /** Stripping a string that already has no droppable end is the identity. */
  lemma StripCharsFixed(s: string, drop: set<char>)
    requires |s| > 0 ==> s[0] !in drop && s[|s| - 1] !in drop
    ensures StripChars(s, drop) == s
  {
    assert StripLeft(s, drop) == s;
    assert StripRight(s, drop) == s;
  }

  /** Stripping twice is stripping once. */
  lemma StripIdempotent(s: string)
    ensures Strip(Strip(s)) == Strip(s)
  {
    StripCharsFixed(Strip(s), Whitespace);
  }

  function DigitChar(d: nat): char
    requires d < 10
  {
    "0123456789"[d]
  }

  /** Python's `str(n)` for a non-negative integer: decimal, no leading zeros. */
  function NatToString(n: nat): (r: string)
    ensures |r| > 0
    ensures r[0] == '0' ==> n == 0
    decreases n
  {
    if n < 10 then [DigitChar(n)] else NatToString(n / 10) + [DigitChar(n % 10)]
  }

  /** Python's `str(i)` for any integer. */
  function IntToString(i: int): string
  {
    if i < 0 then "-" + NatToString(-i) else NatToString(i)
  }

  /** The number a string of decimal digits denotes, read left to right. */
  function DecimalValue(s: string): nat
  {
    if |s| == 0 then 0
    else
      var c := s[|s| - 1];
      DecimalValue(s[..|s| - 1]) * 10 + (if '0' <= c <= '9' then c as int - '0' as int else 0)
  }

  /** `str(n)` round-trips: its digits are all decimal digits, and read back
      they give `n`. */
  lemma {:induction false} NatToStringValue(n: nat)
    ensures forall k :: 0 <= k < |NatToString(n)| ==> '0' <= NatToString(n)[k] <= '9'
    ensures DecimalValue(NatToString(n)) == n
    decreases n
  {
    var r := NatToString(n);
    if n < 10 {
      assert r[..0] == [];
    } else {
      NatToStringValue(n / 10);
      assert r[..|r| - 1] == NatToString(n / 10);
    }
  }

  /** `str(i)` of any integer: a minus sign for a negative one, then the
      decimal digits of its magnitude. */
  lemma IntToStringValue(i: int)
    ensures i >= 0 ==> DecimalValue(IntToString(i)) == i
    ensures i < 0 ==> IntToString(i)[0] == '-' && DecimalValue(IntToString(i)[1..]) == -i
  {
    if i < 0 {
      var m: nat := -i;
      NatToStringValue(m);
      assert IntToString(i) == "-" + NatToString(m);
      assert ("-" + NatToString(m))[1..] == NatToString(m);
    } else {
      NatToStringValue(i);
    }
  }

  function Min(a: int, b: int): int
  {
    if a <= b then a else b
  }
}

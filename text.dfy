/**
 * Python's `str` operations as the modelled code uses them: `isspace`, `lower`, `in`,
 * `startswith`, `strip`, `split()`, `split(sep)`, `split(sep, 1)`, `replace(pat, "")`,
 * `sep.join`, `re.sub(r"\s+", " ", s)` and decimal formatting of integers.
 */
module Text {
  import opened Outcomes

  /** `str.isspace()` for one character: the code points Python treats as whitespace. */
  predicate IsSpace(c: char)
  {
    var n := c as int;
    (9 <= n <= 13) || (28 <= n <= 32) || n == 0x85 || n == 0xA0 || n == 0x1680
    || (0x2000 <= n <= 0x200A) || n == 0x2028 || n == 0x2029 || n == 0x202F
    || n == 0x205F || n == 0x3000
  }

  /** `str.lower()` on one character; only the ASCII letters are mapped. */
  function LowerChar(c: char): char
  {
    if 'A' <= c <= 'Z' then (c as int + 32) as char else c
  }

  function Lower(s: string): (r: string)
    ensures |r| == |s|
  {
    if s == [] then [] else [LowerChar(s[0])] + Lower(s[1..])
  }

  predicate StartsWith(s: string, prefix: string)
  {
    |prefix| <= |s| && s[..|prefix|] == prefix
  }

  /** Python's `sub in s`. */
  predicate Contains(s: string, sub: string)
    decreases |s|
  {
    StartsWith(s, sub) || (s != [] && Contains(s[1..], sub))
  }

  lemma {:induction false} ContainsInside(a: string, b: string, c: string)
    ensures Contains(a + b + c, b)
  {
    if a == [] {
      assert a + b + c == b + c;
      assert (b + c)[..|b|] == b;
    } else {
      assert (a + b + c)[1..] == a[1..] + b + c;
      ContainsInside(a[1..], b, c);
    }
  }

  lemma {:induction false} NotContainsShorter(s: string, sub: string)
    requires |s| < |sub|
    ensures !Contains(s, sub)
  {
    if s != [] {
      NotContainsShorter(s[1..], sub);
    }
  }

  /** Text found in `a` is still found once something is appended. */
  lemma {:induction false} ContainsExtend(a: string, b: string, w: string)
    requires Contains(a, w)
    ensures Contains(a + b, w)
    decreases |a|
  {
    if StartsWith(a, w) {
      assert (a + b)[..|w|] == a[..|w|];
    } else {
      assert (a + b)[1..] == a[1..] + b;
      ContainsExtend(a[1..], b, w);
    }
  }

  /** Text found in `b` is still found once something is put in front. */
  lemma {:induction false} ContainsAfter(a: string, b: string, w: string)
    requires Contains(b, w)
    ensures Contains(a + b, w)
    decreases |a|
  {
    if a != [] {
      assert (a + b)[1..] == a[1..] + b;
      ContainsAfter(a[1..], b, w);
    } else {
      assert a + b == b;
    }
  }

  /** A string contains itself. */
  lemma ContainsSelf(s: string)
    ensures Contains(s, s)
  {
    assert s[..|s|] == s;
  }

  // ---------------------------------------------------------------------------
  // Whitespace handling
  // ---------------------------------------------------------------------------

  function TrimLeft(s: string): (r: string)
    ensures |r| <= |s| && r == s[|s| - |r|..]
    ensures r != [] ==> !IsSpace(r[0])
    ensures r == [] ==> forall i :: 0 <= i < |s| ==> IsSpace(s[i])
    decreases |s|
  {
    if s != [] && IsSpace(s[0]) then TrimLeft(s[1..]) else s
  }

  function TrimRight(s: string): (r: string)
    ensures r <= s
    ensures r != [] ==> !IsSpace(r[|r| - 1])
    decreases |s|
  {
    if s != [] && IsSpace(s[|s| - 1]) then TrimRight(s[..|s| - 1]) else s
  }

  /** `str.strip()` with no argument. */
  function Strip(s: string): (r: string)
  {
    TrimRight(TrimLeft(s))
  }

  lemma StripEnds(s: string)
    ensures Strip(s) != [] ==> !IsSpace(Strip(s)[0]) && !IsSpace(Strip(s)[|Strip(s)| - 1])
  {
    var t := TrimLeft(s);
    var r := TrimRight(t);
    if r != [] {
      assert r[0] == t[0];
    }
  }

  /** The longest prefix without whitespace. */
  function Word(s: string): (w: string)
    ensures w <= s
    ensures forall i :: 0 <= i < |w| ==> !IsSpace(w[i])
    ensures |w| < |s| ==> IsSpace(s[|w|])
  {
    if s == [] || IsSpace(s[0]) then [] else [s[0]] + Word(s[1..])
  }

  /** `str.split()` with no argument: maximal runs of non-whitespace, in order. */
  function SplitWs(s: string): seq<string>
    decreases |s|
  {
    var t := TrimLeft(s);
    if t == [] then []
    else
      var w := Word(t);
      [w] + SplitWs(t[|w|..])
  }

  /** A non-empty run of non-whitespace characters. */
  predicate IsWord(w: string)
  {
    w != [] && forall i :: 0 <= i < |w| ==> !IsSpace(w[i])
  }

  /** Every word `split()` yields is non-empty and holds no whitespace. */
  lemma {:induction false} SplitWsWords(s: string)
    ensures forall w :: w in SplitWs(s) ==> IsWord(w)
    decreases |s|
  {
    var t := TrimLeft(s);
    if t != [] {
      var w := Word(t);
      assert IsWord(w);
      SplitWsWords(t[|w|..]);
      assert SplitWs(s) == [w] + SplitWs(t[|w|..]);
    }
  }

  /** `re.sub(r"\s+", " ", s)`: every whitespace run becomes one space. */
  function CollapseWs(s: string): (r: string)
    decreases |s|
  {
    if s == [] then []
    else if IsSpace(s[0]) then [' '] + CollapseWs(TrimLeft(s))
    else [s[0]] + CollapseWs(s[1..])
  }

  /**
   * A string in the form `CollapseWs(Strip(_))` produces: no whitespace at either end and
   * every whitespace character is a single ASCII space followed by a non-space.
   */
  predicate Normalized(s: string)
  {
    (s != [] ==> !IsSpace(s[0]) && !IsSpace(s[|s| - 1]))
    && SingleSpaced(s)
  }

  /** Every whitespace character is a single ASCII space, and no whitespace follows it. */
  predicate SpacesSingle(r: string)
  {
    forall i :: 0 <= i < |r| && IsSpace(r[i]) ==> r[i] == ' ' && (i + 1 == |r| || !IsSpace(r[i + 1]))
  }

  lemma {:induction false} CollapseWsSpaces(s: string)
    ensures SpacesSingle(CollapseWs(s))
    decreases |s|
  {
    if s == [] {
    } else if IsSpace(s[0]) {
      var t := TrimLeft(s);
      CollapseWsSpaces(t);
      var rt := CollapseWs(t);
      var r := [' '] + rt;
      assert t != [] ==> rt != [] && rt[0] == t[0];
      forall i | 0 <= i < |r| && IsSpace(r[i])
        ensures r[i] == ' ' && (i + 1 == |r| || !IsSpace(r[i + 1]))
      {
        if i > 0 {
          assert r[i] == rt[i - 1];
        }
      }
    } else {
      var t := s[1..];
      CollapseWsSpaces(t);
      var rt := CollapseWs(t);
      var r := [s[0]] + rt;
      forall i | 0 <= i < |r| && IsSpace(r[i])
        ensures r[i] == ' ' && (i + 1 == |r| || !IsSpace(r[i + 1]))
      {
        assert r[i] == rt[i - 1];
      }
    }
  }

  lemma {:induction false} CollapseWsLast(s: string)
    requires s != [] && !IsSpace(s[|s| - 1])
    ensures CollapseWs(s) != [] && CollapseWs(s)[|CollapseWs(s)| - 1] == s[|s| - 1]
    decreases |s|
  {
    var t := if IsSpace(s[0]) then TrimLeft(s) else s[1..];
    if t != [] {
      assert t[|t| - 1] == s[|s| - 1];
      CollapseWsLast(t);
    }
  }

  /** Every whitespace character is a single ASCII space followed by a non-space. */
  predicate SingleSpaced(s: string)
  {
    forall i :: 0 <= i < |s| && IsSpace(s[i]) ==> s[i] == ' ' && i + 1 < |s| && !IsSpace(s[i + 1])
  }

  lemma SingleSpacedTail(s: string)
    requires s != [] && SingleSpaced(s)
    ensures SingleSpaced(s[1..])
  {
    var t := s[1..];
    forall i | 0 <= i < |t| && IsSpace(t[i])
      ensures t[i] == ' ' && i + 1 < |t| && !IsSpace(t[i + 1])
    {
      assert t[i] == s[i + 1];
    }
  }

  lemma {:induction false} CollapseWsOfNormalized(s: string)
    requires SingleSpaced(s)
    ensures CollapseWs(s) == s
    decreases |s|
  {
    if s != [] {
      var t := s[1..];
      SingleSpacedTail(s);
      CollapseWsOfNormalized(t);
      if IsSpace(s[0]) {
        assert 0 < |t| && !IsSpace(t[0]);
        assert TrimLeft(s) == TrimLeft(t);
      }
    }
  }

  lemma NormalizedFixed(s: string)
    requires Normalized(s)
    ensures Strip(s) == s && CollapseWs(s) == s
  {
    CollapseWsOfNormalized(s);
  }

  // ---------------------------------------------------------------------------
  // Splitting and joining on a separator
  // ---------------------------------------------------------------------------

  /** `sep.join(parts)`. */
  function Join(parts: seq<string>, sep: string): string
  {
    if parts == [] then []
    else if |parts| == 1 then parts[0]
    else parts[0] + sep + Join(parts[1..], sep)
  }

  /** Every part shows up in the joined text. */
  lemma {:induction false} JoinContains(parts: seq<string>, sep: string, i: nat)
    requires i < |parts|
    ensures Contains(Join(parts, sep), parts[i])
  {
    if |parts| == 1 {
      ContainsSelf(parts[0]);
    } else if i == 0 {
      ContainsSelf(parts[0]);
      ContainsExtend(parts[0], sep + Join(parts[1..], sep), parts[0]);
      assert parts[0] + sep + Join(parts[1..], sep) == parts[0] + (sep + Join(parts[1..], sep));
    } else {
      JoinContains(parts[1..], sep, i - 1);
      ContainsAfter(parts[0] + sep, Join(parts[1..], sep), parts[i]);
    }
  }

  /** The joined text starts with the first part. */
  lemma JoinFirst(parts: seq<string>, sep: string)
    requires parts != []
    ensures StartsWith(Join(parts, sep), parts[0])
  {
    if |parts| > 1 {
      assert Join(parts, sep) == parts[0] + (sep + Join(parts[1..], sep));
      assert Join(parts, sep)[..|parts[0]|] == parts[0];
    } else {
      assert Join(parts, sep)[..|parts[0]|] == parts[0];
    }
  }

  /** `s.split(c)` for a one-character separator: never empty, keeps empty pieces. */
  function SplitOn(s: string, c: char): (r: seq<string>)
    ensures |r| >= 1
    ensures forall k :: 0 <= k < |r| ==> c !in r[k]
    decreases |s|
  {
    if s == [] then [[]]
    else
      var rest := SplitOn(s[1..], c);
      if s[0] == c then [[]] + rest
      else [[s[0]] + rest[0]] + rest[1..]
  }

  /** Splitting and re-joining with the same separator gives back the text. */
  lemma {:induction false} JoinSplitOn(s: string, c: char)
    ensures Join(SplitOn(s, c), [c]) == s
    decreases |s|
  {
    if s != [] {
      var rest := SplitOn(s[1..], c);
      JoinSplitOn(s[1..], c);
      if s[0] == c {
        assert ([[]] + rest)[1..] == rest;
      } else {
        var parts := [[s[0]] + rest[0]] + rest[1..];
        if |rest| == 1 {
          assert Join(parts, [c]) == [s[0]] + rest[0];
        } else {
          assert parts[1..] == rest[1..];
          assert Join(parts, [c]) == [s[0]] + rest[0] + [c] + Join(rest[1..], [c]);
        }
      }
    }
  }

  /** A text without the separator is one piece. */
  lemma {:induction false} SplitOnFree(s: string, c: char)
    requires c !in s
    ensures SplitOn(s, c) == [s]
    decreases |s|
  {
    if s != [] {
      SplitOnFree(s[1..], c);
      assert [s[0]] + s[1..] == s;
    }
  }

  /** A separator after a separator-free `a` ends the first piece with `a`. */
  lemma {:induction false} SplitOnAfter(a: string, b: string, c: char)
    requires c !in a
    ensures SplitOn(a + [c] + b, c) == [a] + SplitOn(b, c)
    decreases |a|
  {
    if a == [] {
      assert (a + [c] + b)[1..] == b;
    } else {
      assert (a + [c] + b)[1..] == a[1..] + [c] + b;
      SplitOnAfter(a[1..], b, c);
      assert [a[0]] + a[1..] == a;
    }
  }

  /** Index of the first `c` in `s`. */
  function IndexOf(s: string, c: char): (r: Option<nat>)
    ensures r.None? <==> c !in s
    ensures r.Some? ==> r.value < |s| && s[r.value] == c && c !in s[..r.value]
  {
    if s == [] then None
    else if s[0] == c then Some(0)
    else match IndexOf(s[1..], c)
      case None => None
      case Some(i) => Some(i + 1)
  }

  /** `k, v = s.split(c, 1)`: the unpacking fails (None) when `c` does not occur. */
  function SplitFirst(s: string, c: char): (r: Option<(string, string)>)
    ensures r.None? <==> c !in s
    ensures r.Some? ==> c !in r.value.0 && s == r.value.0 + [c] + r.value.1
  {
    match IndexOf(s, c)
    case None => None
    case Some(i) => Some((s[..i], s[i + 1..]))
  }

  /** `s.replace(pat, "")`: removes the occurrences met scanning left to right. */
  function RemoveAll(s: string, pat: string): (r: string)
    requires pat != []
    ensures |r| <= |s|
    decreases |s|
  {
    if s == [] then []
    else if StartsWith(s, pat) then RemoveAll(s[|pat|..], pat)
    else [s[0]] + RemoveAll(s[1..], pat)
  }

  lemma {:induction false} RemoveAllAbsent(s: string, pat: string)
    requires pat != [] && !Contains(s, pat)
    ensures RemoveAll(s, pat) == s
    decreases |s|
  {
    if s != [] {
      RemoveAllAbsent(s[1..], pat);
    }
  }

  // ---------------------------------------------------------------------------
  // Decimal formatting: `str(n)` / f"{n}"
  // ---------------------------------------------------------------------------

  predicate IsDigit(c: char) { '0' <= c <= '9' }

  function DigitChar(d: nat): (c: char)
    requires d < 10
    ensures IsDigit(c)
  {
    ('0' as int + d) as char
  }

  function NatToString(n: nat): (r: string)
    ensures r != []
    ensures forall i :: 0 <= i < |r| ==> IsDigit(r[i])
  {
    if n < 10 then [DigitChar(n)] else NatToString(n / 10) + [DigitChar(n % 10)]
  }

  /** Different numbers print differently, so generated ids that embed them are distinct. */
  lemma {:induction false} NatToStringInjective(a: nat, b: nat)
    requires NatToString(a) == NatToString(b)
    ensures a == b
  {
    if a >= 10 && b >= 10 {
      var sa, sb := NatToString(a), NatToString(b);
      assert sa[|sa| - 1] == sb[|sb| - 1];
      assert a % 10 == b % 10;
      assert sa[..|sa| - 1] == NatToString(a / 10);
      assert sb[..|sb| - 1] == NatToString(b / 10);
      NatToStringInjective(a / 10, b / 10);
    }
  }

  function IntToString(n: int): (r: string)
    ensures r != []
  {
    if n < 0 then "-" + NatToString(-n) else NatToString(n)
  }
}

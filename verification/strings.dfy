/**
 * Text primitives shared by the frontend (JavaScript) and backend (Python)
 * modules: the two languages' whitespace sets and trimming, case mapping,
 * prefix/suffix/substring tests, search for a character, joining and removal
 * of a marker.
 */
module Strings {
  import opened Wrappers
  import opened Seqs

  /** The code points for which Python's str.isspace() is true. */
  predicate IsPySpace(c: char)
  {
    c == ' ' || ('\t' <= c <= '\r') || ('\U{1C}' <= c <= '\U{1F}') || c == '\U{85}'
    || c == '\U{A0}' || c == '\U{1680}' || ('\U{2000}' <= c <= '\U{200A}') || c == '\U{2028}'
    || c == '\U{2029}' || c == '\U{202F}' || c == '\U{205F}' || c == '\U{3000}'
  }

  /** The code points JavaScript's String.prototype.trim removes (WhiteSpace and LineTerminator). */
  predicate IsJsSpace(c: char)
  {
    c == ' ' || ('\t' <= c <= '\r') || c == '\U{A0}' || c == '\U{1680}'
    || ('\U{2000}' <= c <= '\U{200A}') || c == '\U{2028}' || c == '\U{2029}' || c == '\U{202F}'
    || c == '\U{205F}' || c == '\U{3000}' || c == '\U{FEFF}'
  }

  predicate AllSpace(s: string, ws: char -> bool)
  {
    forall i :: 0 <= i < |s| ==> ws(s[i])
  }

  /** Drops the leading characters that satisfy ws. */
  function TrimStart(s: string, ws: char -> bool): (r: string)
    ensures |r| <= |s| && r == s[|s| - |r|..]
    ensures forall i :: 0 <= i < |s| - |r| ==> ws(s[i])
    ensures r != [] ==> !ws(r[0])
  {
    if s == [] || !ws(s[0]) then s else TrimStart(s[1..], ws)
  }

  /** Drops the trailing characters that satisfy ws. */
  function TrimEnd(s: string, ws: char -> bool): (r: string)
    ensures |r| <= |s| && r == s[..|r|]
    ensures forall i :: |r| <= i < |s| ==> ws(s[i])
    ensures r != [] ==> !ws(r[|r| - 1])
  {
    if s == [] || !ws(s[|s| - 1]) then s else TrimEnd(s[..|s| - 1], ws)
  }

  function Trim(s: string, ws: char -> bool): (r: string)
  {
    TrimEnd(TrimStart(s, ws), ws)
  }

  /** Python's str.strip() with no argument. */
  function PyStrip(s: string): string { Trim(s, IsPySpace) }

  /** Python's str.rstrip() with no argument. */
  function PyRStrip(s: string): string { TrimEnd(s, IsPySpace) }

  /** JavaScript's String.prototype.trim(). */
  function JsTrim(s: string): string { Trim(s, IsJsSpace) }

  lemma TrimEmptyIffAllSpace(s: string, ws: char -> bool)
    ensures Trim(s, ws) == [] <==> AllSpace(s, ws)
  {
    var t := TrimStart(s, ws);
    assert Trim(s, ws) == [] ==> forall i :: 0 <= i < |t| ==> ws(t[i]);
    assert forall i :: |s| - |t| <= i < |s| ==> s[i] == t[i - (|s| - |t|)];
  }

  lemma TrimIdempotent(s: string, ws: char -> bool)
    ensures Trim(Trim(s, ws), ws) == Trim(s, ws)
  {
    var t := Trim(s, ws);
    if t != [] {
      assert t == TrimEnd(TrimStart(s, ws), ws);
      assert TrimStart(s, ws)[0] == t[0];
    }
  }

  /** A stripped value is empty or starts and ends with a non-space character. */
  lemma TrimEnds(s: string, ws: char -> bool)
    ensures var t := Trim(s, ws); t != [] ==> !ws(t[0]) && !ws(t[|t| - 1])
  {
    var t := Trim(s, ws);
    if t != [] {
      assert TrimStart(s, ws)[0] == t[0];
    }
  }

  /** Case mapping of Python str.lower / JavaScript toLowerCase for Latin and Cyrillic letters. */
  function LowerChar(c: char): char
  {
    if 'A' <= c <= 'Z' then (c as int + 32) as char
    else if '\U{410}' <= c <= '\U{42F}' then (c as int + 32) as char
    else if '\U{400}' <= c <= '\U{40F}' then (c as int + 80) as char
    else c
  }

  /** Case mapping of str.upper / toUpperCase for Latin and Cyrillic letters. */
  function UpperChar(c: char): char
  {
    if 'a' <= c <= 'z' then (c as int - 32) as char
    else if '\U{430}' <= c <= '\U{44F}' then (c as int - 32) as char
    else if '\U{450}' <= c <= '\U{45F}' then (c as int - 80) as char
    else c
  }

  function Lower(s: string): (r: string)
    ensures |r| == |s| && forall i :: 0 <= i < |s| ==> r[i] == LowerChar(s[i])
  {
    seq(|s|, i requires 0 <= i < |s| => LowerChar(s[i]))
  }

  function Upper(s: string): (r: string)
    ensures |r| == |s| && forall i :: 0 <= i < |s| ==> r[i] == UpperChar(s[i])
  {
    seq(|s|, i requires 0 <= i < |s| => UpperChar(s[i]))
  }

  lemma LowerCharIdempotent(c: char)
    ensures LowerChar(LowerChar(c)) == LowerChar(c)
  {
  }

  lemma LowerIdempotent(s: string)
    ensures Lower(Lower(s)) == Lower(s)
  {
    forall i | 0 <= i < |s| ensures Lower(Lower(s))[i] == Lower(s)[i] {
      LowerCharIdempotent(s[i]);
    }
  }

  lemma LowerConcat(a: string, b: string)
    ensures Lower(a + b) == Lower(a) + Lower(b)
  {
  }

  predicate StartsWith(s: string, p: string)
  {
    |p| <= |s| && s[..|p|] == p
  }

  predicate EndsWith(s: string, p: string)
  {
    |p| <= |s| && s[|s| - |p|..] == p
  }

  /** sub occurs in s at some position (Python `in`, JavaScript includes). */
  predicate Contains(s: string, sub: string)
    decreases |s|
  {
    StartsWith(s, sub) || (s != [] && Contains(s[1..], sub))
  }

  lemma {:induction false} ContainsAt(s: string, sub: string, k: nat)
    requires k + |sub| <= |s| && s[k..k + |sub|] == sub
    ensures Contains(s, sub)
    decreases k
  {
    if k > 0 {
      assert s[1..][k - 1..k - 1 + |sub|] == sub;
      ContainsAt(s[1..], sub, k - 1);
    }
  }

  lemma {:induction false} ContainsAppendLeft(a: string, b: string, sub: string)
    requires Contains(b, sub)
    ensures Contains(a + b, sub)
    decreases |a|
  {
    if a != [] {
      assert (a + b)[1..] == a[1..] + b;
      ContainsAppendLeft(a[1..], b, sub);
    } else {
      assert a + b == b;
    }
  }

  lemma ContainsInMiddle(a: string, sub: string, b: string)
    ensures Contains(a + sub + b, sub)
  {
    assert (a + sub + b)[|a|..|a| + |sub|] == sub;
    ContainsAt(a + sub + b, sub, |a|);
  }

  lemma {:induction false} ContainsBounds(s: string, sub: string)
    requires Contains(s, sub)
    ensures |sub| <= |s|
    decreases |s|
  {
    if !StartsWith(s, sub) {
      ContainsBounds(s[1..], sub);
    }
  }

  /** Index of the first occurrence of c (Python str.find / JavaScript indexOf for one character). */
  function Find(s: string, c: char): (r: Option<nat>)
    ensures r.None? <==> (forall i :: 0 <= i < |s| ==> s[i] != c)
    ensures r.Some? ==> r.value < |s| && s[r.value] == c && forall i :: 0 <= i < r.value ==> s[i] != c
  {
    if s == [] then None
    else if s[0] == c then Some(0)
    else match Find(s[1..], c)
      case None => None
      case Some(k) => Some(k + 1)
  }

  /** Index of the last occurrence of c (Python str.rfind). */
  function RFind(s: string, c: char): (r: Option<nat>)
    ensures r.None? <==> (forall i :: 0 <= i < |s| ==> s[i] != c)
    ensures r.Some? ==> r.value < |s| && s[r.value] == c && forall i :: r.value < i < |s| ==> s[i] != c
  {
    if s == [] then None
    else if s[|s| - 1] == c then Some(|s| - 1)
    else RFind(s[..|s| - 1], c)
  }

  /** The last occurrence of c is the one with no c after it. */
  lemma RFindIs(s: string, c: char, k: nat)
    requires k < |s| && s[k] == c && forall i :: k < i < |s| ==> s[i] != c
    ensures RFind(s, c) == Some(k)
  {
  }

  /** Python's sep.join(parts) / JavaScript's parts.join(sep). */
  function Join(parts: seq<string>, sep: string): string
  {
    if parts == [] then "" else if |parts| == 1 then parts[0] else parts[0] + sep + Join(parts[1..], sep)
  }

  /** Removes every non-overlapping occurrence of pat, scanning left to right (str.replace(pat, "")). */
  function RemoveAll(s: string, pat: string): (r: string)
    requires pat != []
    ensures |r| <= |s|
    ensures !Contains(s, pat) ==> r == s
    decreases |s|
  {
    if |s| < |pat| then s
    else if s[..|pat|] == pat then RemoveAll(s[|pat|..], pat)
    else [s[0]] + RemoveAll(s[1..], pat)
  }

  /** The scan copies every character at which no occurrence starts. */
  lemma {:induction false} RemoveAllSkips(a: string, pat: string, rest: string)
    requires pat != []
    requires forall i :: 0 <= i < |a| ==> !StartsWith((a + rest)[i..], pat)
    ensures RemoveAll(a + rest, pat) == a + RemoveAll(rest, pat)
    decreases |a|
  {
    var s := a + rest;
    if a == [] {
      assert s == rest;
    } else {
      assert s[0..] == s;
      assert !StartsWith(s, pat);
      if |s| >= |pat| {
        assert s[1..] == a[1..] + rest;
        forall i | 0 <= i < |a[1..]|
          ensures !StartsWith((a[1..] + rest)[i..], pat)
        {
          assert (a[1..] + rest)[i..] == s[i + 1..];
        }
        RemoveAllSkips(a[1..], pat, rest);
        ConcatAssoc([s[0]], a[1..], RemoveAll(rest, pat));
        assert [s[0]] + a[1..] == a;
      }
    }
  }

  /**
   * str.replace(pat, "") works left to right: when the first occurrence of
   * pat starts right after a, a is kept, that occurrence is dropped and the
   * scan goes on after it.
   */
  lemma RemoveAllAtFirst(a: string, pat: string, b: string)
    requires pat != []
    requires forall i :: 0 <= i < |a| ==> !StartsWith((a + pat + b)[i..], pat)
    ensures RemoveAll(a + pat + b, pat) == a + RemoveAll(b, pat)
  {
    ConcatAssoc(a, pat, b);
    forall i | 0 <= i < |a|
      ensures !StartsWith((a + (pat + b))[i..], pat)
    {
      assert a + (pat + b) == a + pat + b;
    }
    RemoveAllSkips(a, pat, pat + b);
    assert (pat + b)[..|pat|] == pat && (pat + b)[|pat|..] == b;
  }

  function DigitChar(d: nat): char
    requires d < 10
  {
    ('0' as int + d) as char
  }

  /** Decimal representation of an integer, as Python's str(int) and JavaScript's String(number). */
  function IntToString(n: int): (r: string)
    ensures r != []
    ensures n >= 0 ==> forall i :: 0 <= i < |r| ==> '0' <= r[i] <= '9'
    ensures forall i :: 0 <= i < |r| ==> r[i] == '-' || '0' <= r[i] <= '9'
  {
    if n < 0 then "-" + NatToString(-n) else NatToString(n)
  }

  function NatToString(n: nat): (r: string)
    ensures r != [] && forall i :: 0 <= i < |r| ==> '0' <= r[i] <= '9'
  {
    if n < 10 then [DigitChar(n)] else NatToString(n / 10) + [DigitChar(n % 10)]
  }

  /** The characters of s that are not Python whitespace: the text's visible content. */
  function NonSpace(s: string): string
  {
    Filter(s, IsVisible)
  }

  predicate IsVisible(c: char) { !IsPySpace(c) }

  lemma NonSpaceConcat(a: string, b: string)
    ensures NonSpace(a + b) == NonSpace(a) + NonSpace(b)
  {
    FilterConcat(a, b, IsVisible);
  }

  lemma NonSpaceEmptyIffAllSpace(s: string)
    ensures NonSpace(s) == [] <==> AllSpace(s, IsPySpace)
  {
    if AllSpace(s, IsPySpace) {
      FilterNone(s, IsVisible);
    } else {
      var i :| 0 <= i < |s| && !IsPySpace(s[i]);
      assert s[i] in NonSpace(s);
    }
  }

  /** Python's strip() only removes whitespace, so it keeps the visible content. */
  lemma {:induction false} NonSpaceTrimStart(s: string)
    ensures NonSpace(TrimStart(s, IsPySpace)) == NonSpace(s)
    decreases |s|
  {
    if s != [] && IsPySpace(s[0]) {
      NonSpaceTrimStart(s[1..]);
      FilterFirst(s, IsVisible, s[0], s[1..]);
      ConcatEmpty(NonSpace(s[1..]));
    }
  }

  lemma NonSpaceTrimEnd(t: string)
    ensures NonSpace(TrimEnd(t, IsPySpace)) == NonSpace(t)
  {
    var u := TrimEnd(t, IsPySpace);
    var tail := t[|u|..];
    assert t == u + tail;
    forall i | 0 <= i < |tail|
      ensures !IsVisible(tail[i])
    {
      assert tail[i] == t[|u| + i] && IsPySpace(t[|u| + i]);
    }
    FilterNone(tail, IsVisible);
    NonSpaceConcat(u, tail);
  }

  /** Python's strip() only removes whitespace, so it keeps the visible content. */
  lemma NonSpaceStrip(s: string)
    ensures NonSpace(PyStrip(s)) == NonSpace(s)
  {
    NonSpaceTrimStart(s);
    NonSpaceTrimEnd(TrimStart(s, IsPySpace));
  }

  lemma PyStripEmptyIffNoContent(s: string)
    ensures PyStrip(s) == [] <==> NonSpace(s) == []
  {
    TrimEmptyIffAllSpace(s, IsPySpace);
    NonSpaceEmptyIffAllSpace(s);
  }

  lemma TrimStartNoop(s: string, ws: char -> bool)
    requires s != [] ==> !ws(s[0])
    ensures TrimStart(s, ws) == s
  {
  }

  lemma TrimEndNoop(s: string, ws: char -> bool)
    requires s != [] ==> !ws(s[|s| - 1])
    ensures TrimEnd(s, ws) == s
  {
  }

  lemma PyStripNoop(s: string)
    requires s != [] ==> !IsPySpace(s[0]) && !IsPySpace(s[|s| - 1])
    ensures PyStrip(s) == s
  {
    TrimStartNoop(s, IsPySpace);
    TrimEndNoop(s, IsPySpace);
  }
}

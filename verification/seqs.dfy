/** Generic sequence helpers: filtering (list comprehensions with a condition) and flattening. */
module Seqs {
  /** The elements of s that satisfy p, in their original order. */
  function Filter<T>(s: seq<T>, p: T -> bool): (r: seq<T>)
    ensures |r| <= |s|
    ensures forall i :: 0 <= i < |r| ==> r[i] in s
    ensures forall i :: 0 <= i < |s| && p(s[i]) ==> s[i] in r
    ensures forall i :: 0 <= i < |r| ==> p(r[i])
  {
    if s == [] then [] else (if p(s[0]) then [s[0]] else []) + Filter(s[1..], p)
  }

  lemma {:induction false} FilterConcat<T>(a: seq<T>, b: seq<T>, p: T -> bool)
    ensures Filter(a + b, p) == Filter(a, p) + Filter(b, p)
  {
    if a != [] {
      var head := if p(a[0]) then [a[0]] else [];
      FilterFirst(a + b, p, a[0], a[1..] + b);
      FilterConcat(a[1..], b, p);
      ConcatAssoc(head, Filter(a[1..], p), Filter(b, p));
    } else {
      assert a + b == b;
    }
  }

  /** Filtering a sequence that starts with x: x when it is kept, then the rest filtered. */
  lemma FilterFirst<T>(s: seq<T>, p: T -> bool, x: T, rest: seq<T>)
    requires s == [x] + rest
    ensures Filter(s, p) == (if p(x) then [x] else []) + Filter(rest, p)
  {
    assert s[0] == x && s[1..] == rest;
  }

  /** Filtering one element more at the end adds that element exactly when it is kept: the kept elements stay in order. */
  lemma FilterSnoc<T>(s: seq<T>, x: T, p: T -> bool)
    ensures Filter(s + [x], p) == Filter(s, p) + (if p(x) then [x] else [])
  {
    FilterConcat(s, [x], p);
    FilterFirst([x], p, x, []);
  }

  /** Each element is kept as often as it occurs when it satisfies p, and never otherwise. */
  lemma {:induction false} FilterCount<T>(s: seq<T>, p: T -> bool, x: T)
    ensures multiset(Filter(s, p))[x] == if p(x) then multiset(s)[x] else 0
  {
    if s != [] {
      FilterCount(s[1..], p, x);
      FilterFirst(s, p, s[0], s[1..]);
      assert s == [s[0]] + s[1..];
      assert multiset(s) == multiset([s[0]]) + multiset(s[1..]);
    }
  }

  lemma FilterCounts<T>(s: seq<T>, p: T -> bool)
    ensures forall x :: multiset(Filter(s, p))[x] == if p(x) then multiset(s)[x] else 0
  {
    forall x
      ensures multiset(Filter(s, p))[x] == if p(x) then multiset(s)[x] else 0
    {
      FilterCount(s, p, x);
    }
  }

  lemma {:induction false} FilterNone<T>(s: seq<T>, p: T -> bool)
    requires forall i :: 0 <= i < |s| ==> !p(s[i])
    ensures Filter(s, p) == []
  {
    if s != [] {
      FilterNone(s[1..], p);
    }
  }

  lemma {:induction false} FilterAll<T>(s: seq<T>, p: T -> bool)
    requires forall i :: 0 <= i < |s| ==> p(s[i])
    ensures Filter(s, p) == s
  {
    if s != [] {
      FilterAll(s[1..], p);
    }
  }

  lemma FilterIdempotent<T>(s: seq<T>, p: T -> bool)
    ensures Filter(Filter(s, p), p) == Filter(s, p)
  {
    FilterAll(Filter(s, p), p);
  }

  /** The concatenation of a sequence of sequences. */
  function Flatten<T>(ss: seq<seq<T>>): (r: seq<T>)
  {
    if ss == [] then [] else ss[0] + Flatten(ss[1..])
  }

  lemma {:induction false} FlattenAppend<T>(ss: seq<seq<T>>, s: seq<T>)
    ensures Flatten(ss + [s]) == Flatten(ss) + s
  {
    if ss != [] {
      assert (ss + [s])[1..] == ss[1..] + [s];
      FlattenAppend(ss[1..], s);
    } else {
      assert ss + [s] == [s];
    }
  }

  /** Concatenation regrouped, stated once so large proofs need not rederive it element by element. */
  lemma ConcatAssoc<T>(a: seq<T>, b: seq<T>, c: seq<T>)
    ensures a + (b + c) == (a + b) + c
  {
  }

  lemma ConcatEmpty<T>(s: seq<T>)
    ensures s + [] == s && [] + s == s
  {
  }

  /** A sequence of n copies of x (Python's b"\x00" * n). */
  function Repeat<T>(x: T, n: nat): (r: seq<T>)
    ensures |r| == n && forall i :: 0 <= i < n ==> r[i] == x
  {
    if n == 0 then [] else Repeat(x, n - 1) + [x]
  }

  function Sum(s: seq<nat>): nat
  {
    if s == [] then 0 else Sum(s[..|s| - 1]) + s[|s| - 1]
  }
}

/** Small shared vocabulary: optional values, failures, and a few facts about sequences. */
module Basics {
  datatype Option<+T> = None | Some(value: T)

  datatype Result<+T, +E> = Ok(value: T) | Err(error: E)

  function Max(a: int, b: int): int { if a < b then b else a }

  function Min(a: int, b: int): int { if a < b then a else b }

  /** The elements of `s` that satisfy `p`, in order (a comprehension with a filter). */
  function Filter<T>(s: seq<T>, p: T -> bool): seq<T> {
    if s == [] then [] else (if p(s[0]) then [s[0]] else []) + Filter(s[1..], p)
  }

  function Map<T, U>(s: seq<T>, f: T -> U): (r: seq<U>)
    ensures |r| == |s| && forall i :: 0 <= i < |s| ==> r[i] == f(s[i])
  {
    seq(|s|, i requires 0 <= i < |s| => f(s[i]))
  }

  /** Concatenation of a list of lists. */
  function Flatten<T>(gs: seq<seq<T>>): seq<T> {
    if gs == [] then [] else gs[0] + Flatten(gs[1..])
  }

  lemma {:induction false} ConcatThree<T>(a: seq<T>, b: seq<T>, c: seq<T>)
    ensures a + (b + c) == (a + b) + c
  {
  }

  lemma {:induction false} FilterConcat<T>(a: seq<T>, b: seq<T>, p: T -> bool)
    ensures Filter(a + b, p) == Filter(a, p) + Filter(b, p)
  {
    if a == [] {
      assert a + b == b && Filter(a, p) + Filter(b, p) == Filter(b, p);
    } else {
      var head := if p(a[0]) then [a[0]] else [];
      assert (a + b)[0] == a[0] && (a + b)[1..] == a[1..] + b;
      FilterConcat(a[1..], b, p);
      ConcatThree(head, Filter(a[1..], p), Filter(b, p));
    }
  }

  lemma {:induction false} FilterAll<T>(s: seq<T>, p: T -> bool)
    requires forall x :: x in s ==> p(x)
    ensures Filter(s, p) == s
  {
    if s != [] {
      FilterAll(s[1..], p);
    }
  }

  lemma {:induction false} FilterNone<T>(s: seq<T>, p: T -> bool)
    requires forall x :: x in s ==> !p(x)
    ensures Filter(s, p) == []
  {
    if s != [] {
      FilterNone(s[1..], p);
    }
  }

  lemma {:induction false} FilterHolds<T>(s: seq<T>, p: T -> bool)
    ensures forall x :: x in Filter(s, p) <==> x in s && p(x)
  {
    if s != [] {
      FilterHolds(s[1..], p);
      assert s == [s[0]] + s[1..];
    }
  }

  lemma {:induction false} FlattenConcat<T>(a: seq<seq<T>>, b: seq<seq<T>>)
    ensures Flatten(a + b) == Flatten(a) + Flatten(b)
  {
    if a == [] {
      assert a + b == b;
    } else {
      assert (a + b)[0] == a[0] && (a + b)[1..] == a[1..] + b;
      FlattenConcat(a[1..], b);
    }
  }

  lemma {:induction false} AnyElement<T>(s: set<T>) returns (x: T)
    requires |s| > 0
    ensures x in s
  {
    assert s != {};
    x :| x in s;
  }

  lemma {:induction false} MultisetConcat<T>(a: seq<T>, b: seq<T>)
    ensures multiset(a + b) == multiset(a) + multiset(b)
  {
  }

  /** Cancelling what two equations share. */
  lemma {:induction false} MultisetCancel<T>(
    p: multiset<T>, l: multiset<T>, u: multiset<T>, s: multiset<T>, r: multiset<T>, v: multiset<T>)
    requires p + r == s + u && u + l == r + v
    ensures p + l == s + v
  {
    forall x
      ensures (p + l)[x] == (s + v)[x]
    {
      assert (p + r)[x] == (s + u)[x] && (u + l)[x] == (r + v)[x];
    }
  }

  lemma {:induction false} MultisetBelow<T>(
    p: multiset<T>, l: multiset<T>, s: multiset<T>, v: multiset<T>, w: multiset<T>)
    requires p + l <= s + v && v <= w
    ensures p + l <= s + w
  {
  }

  lemma {:induction false} MapSplice<T, U>(before: seq<T>, x: T, after: seq<T>, f: T -> U)
    ensures multiset(before + [x] + after) == multiset{x} + multiset(before + after)
    ensures multiset(Map(before + [x] + after, f)) == multiset{f(x)} + multiset(Map(before + after, f))
  {
    assert Map(before + [x] + after, f) == Map(before, f) + [f(x)] + Map(after, f);
    assert Map(before + after, f) == Map(before, f) + Map(after, f);
  }

  /** Mapping a rearranged list gives a rearranged result. */
  lemma {:induction false} MapMultiset<T, U>(p: seq<T>, q: seq<T>, f: T -> U)
    requires multiset(p) == multiset(q)
    ensures multiset(Map(p, f)) == multiset(Map(q, f))
  {
    if p == [] {
      assert |multiset(q)| == 0;
    } else {
      var i := IndexOf(q, p[0]);
      var rest := q[..i] + q[i + 1..];
      assert p == [] + [p[0]] + p[1..] && [] + p[1..] == p[1..];
      assert q == q[..i] + [p[0]] + q[i + 1..];
      MapSplice([], p[0], p[1..], f);
      MapSplice(q[..i], p[0], q[i + 1..], f);
      MultisetDrop(multiset(p[1..]), multiset(rest), p[0]);
      MapMultiset(p[1..], rest, f);
    }
  }

  lemma {:induction false} IndexOf<T>(q: seq<T>, x: T) returns (i: nat)
    requires x in multiset(q)
    ensures i < |q| && q[i] == x
  {
    assert x in q;
    i :| 0 <= i < |q| && q[i] == x;
  }

  lemma {:induction false} MultisetDrop<T>(a: multiset<T>, b: multiset<T>, x: T)
    requires multiset{x} + a == multiset{x} + b
    ensures a == b
  {
    forall y
      ensures a[y] == b[y]
    {
      assert (multiset{x} + a)[y] == (multiset{x} + b)[y];
    }
  }
}

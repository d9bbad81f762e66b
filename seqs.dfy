/** Order-preserving list comprehensions: `[x for x in s if p(x)]` and the
    subsequence relation that describes their results. */
module Seqs {
  import opened Common

  /** `a` is `b` with some elements left out and the others in their order. */
  ghost predicate IsSubsequence<T>(a: seq<T>, b: seq<T>)
    decreases |b|
  {
    if a == [] then true
    else if b == [] then false
    else (a[0] == b[0] && IsSubsequence(a[1..], b[1..])) || IsSubsequence(a, b[1..])
  }

  /** `[x for x in s if p(x)]`: exactly the elements of `s` that satisfy
      `p`, in their order in `s`. */
  function Filter<T>(p: T -> bool, s: seq<T>): (r: seq<T>)
    ensures |r| <= |s|
  {
    if s == [] then []
    else if p(s[0]) then [s[0]] + Filter(p, s[1..])
    else Filter(p, s[1..])
  }

  /** What the filter keeps: only elements satisfying `p`, every element
      of `s` satisfying `p`, and those in their order in `s`. */
  lemma {:induction false} FilterSpec<T>(p: T -> bool, s: seq<T>)
    ensures forall i :: 0 <= i < |Filter(p, s)| ==> p(Filter(p, s)[i])
    ensures forall i :: 0 <= i < |Filter(p, s)| ==> Filter(p, s)[i] in s
    ensures forall i :: 0 <= i < |s| && p(s[i]) ==> s[i] in Filter(p, s)
    ensures IsSubsequence(Filter(p, s), s)
  {
    if s != [] {
      var rest := s[1..];
      FilterSpec(p, rest);
      var r := Filter(p, s);
      var r0 := Filter(p, rest);
      assert forall i :: 0 <= i < |s| && i > 0 ==> s[i] == rest[i - 1];
      if p(s[0]) {
        assert r == [s[0]] + r0;
        assert r[1..] == r0;
        forall i | 0 <= i < |r|
          ensures p(r[i]) && r[i] in s
        {
          if i > 0 {
            assert r[i] == r0[i - 1];
          }
        }
      } else {
        assert r == r0;
      }
    }
  }

  /** The filter keeps every copy of an element satisfying `p` and no
      copy of any other. */
  lemma {:induction false} FilterCount<T>(p: T -> bool, s: seq<T>)
    ensures forall x :: multiset(Filter(p, s))[x] == if p(x) then multiset(s)[x] else 0
  {
    if s != [] {
      var rest := s[1..];
      FilterCount(p, rest);
      assert s == [s[0]] + rest;
      assert multiset(s) == multiset{s[0]} + multiset(rest);
      if p(s[0]) {
        assert Filter(p, s) == [s[0]] + Filter(p, rest);
        assert multiset(Filter(p, s)) == multiset{s[0]} + multiset(Filter(p, rest));
      } else {
        assert Filter(p, s) == Filter(p, rest);
      }
    }
  }

  /** Filtering twice by the same predicate is filtering once. */
  lemma {:induction false} FilterIdempotent<T>(p: T -> bool, s: seq<T>)
    ensures Filter(p, Filter(p, s)) == Filter(p, s)
  {
    if s != [] {
      FilterIdempotent(p, s[1..]);
      if p(s[0]) {
        assert ([s[0]] + Filter(p, s[1..]))[1..] == Filter(p, s[1..]);
      }
    }
  }

  /** Filtering keeps everything when every element satisfies the predicate. */
  lemma {:induction false} FilterKeepsAll<T>(p: T -> bool, s: seq<T>)
    requires forall i :: 0 <= i < |s| ==> p(s[i])
    ensures Filter(p, s) == s
  {
    if s != [] {
      FilterKeepsAll(p, s[1..]);
      assert [s[0]] + s[1..] == s;
    }
  }

  /** Filtering by `p` and then by `q` keeps the elements satisfying both
      (`pq` is their conjunction). */
  lemma {:induction false} FilterThenFilter<T>(p: T -> bool, q: T -> bool, pq: T -> bool, s: seq<T>)
    requires forall x :: pq(x) == (p(x) && q(x))
    ensures Filter(q, Filter(p, s)) == Filter(pq, s)
  {
    if s != [] {
      FilterThenFilter(p, q, pq, s[1..]);
      if p(s[0]) {
        assert ([s[0]] + Filter(p, s[1..]))[1..] == Filter(p, s[1..]);
      }
    }
  }

  /** The first element kept is the first element of `s` that satisfies `p`. */
  lemma {:induction false} FilterFirst<T>(p: T -> bool, s: seq<T>)
    requires Filter(p, s) != []
    ensures exists k :: 0 <= k < |s| && s[k] == Filter(p, s)[0] && p(s[k])
                        && forall j :: 0 <= j < k ==> !p(s[j])
  {
    if !p(s[0]) {
      FilterFirst(p, s[1..]);
      var k :| 0 <= k < |s[1..]| && s[1..][k] == Filter(p, s[1..])[0] && p(s[1..][k])
               && forall j :: 0 <= j < k ==> !p(s[1..][j]);
      assert forall j :: 0 <= j < k + 1 ==> !p(s[j]) by {
        forall j | 0 <= j < k + 1 ensures !p(s[j]) {
          if j > 0 { assert s[j] == s[1..][j - 1]; }
        }
      }
      assert s[k + 1] == Filter(p, s)[0];
    } else {
      assert s[0] == Filter(p, s)[0];
    }
  }

  /** Filtering distributes over concatenation. */
  lemma {:induction false} FilterAppend<T>(p: T -> bool, a: seq<T>, b: seq<T>)
    ensures Filter(p, a + b) == Filter(p, a) + Filter(p, b)
  {
    if a == [] {
      assert a + b == b;
    } else {
      var rest := a[1..];
      assert (a + b)[1..] == rest + b;
      FilterAppend(p, rest, b);
      if p(a[0]) {
        calc {
          Filter(p, a + b);
          [a[0]] + Filter(p, rest + b);
          [a[0]] + (Filter(p, rest) + Filter(p, b));
          ([a[0]] + Filter(p, rest)) + Filter(p, b);
          Filter(p, a) + Filter(p, b);
        }
      }
    }
  }

  /** A prefix of a subsequence of `c` is a subsequence of `c`. */
  lemma {:induction false} PrefixOfSubsequence<T>(a: seq<T>, b: seq<T>, c: seq<T>)
    requires a <= b && IsSubsequence(b, c)
    ensures IsSubsequence(a, c)
    decreases |c|
  {
    if a != [] {
      if b[0] == c[0] && IsSubsequence(b[1..], c[1..]) {
        PrefixOfSubsequence(a[1..], b[1..], c[1..]);
      } else {
        PrefixOfSubsequence(a, b, c[1..]);
      }
    }
  }

  /** Every element of a subsequence of `b` is an element of `b`. */
  lemma {:induction false} SubsequenceMembers<T>(a: seq<T>, b: seq<T>, x: T)
    requires IsSubsequence(a, b) && x in a
    ensures x in b
    decreases |b|
  {
    if a[0] == b[0] && IsSubsequence(a[1..], b[1..]) {
      if x != a[0] {
        SubsequenceMembers(a[1..], b[1..], x);
      }
    } else {
      SubsequenceMembers(a, b[1..], x);
    }
  }

  // ---------------------------------------------------------------------
  // `[g(x) for x in s if ...]` read from the right end, so that a loop
  // appending to a list as it walks `s` can keep `acc == FilterMap(f, s[..i])`.

  /** The kept value of one element, as a list of length 0 or 1. */
  function Found<B>(o: Option<B>): (r: seq<B>)
    ensures |r| <= 1 && (r == [] <==> o.None?)
    ensures o.Some? ==> r == [o.value]
  {
    match o
    case Some(b) => [b]
    case None => []
  }

  /** The values `f` keeps from `s`, in the order of `s`. */
  function FilterMap<A, B>(f: A -> Option<B>, s: seq<A>): (r: seq<B>)
    ensures |r| <= |s|
  {
    if s == [] then [] else FilterMap(f, s[..|s| - 1]) + Found(f(s[|s| - 1]))
  }

  /** One more element adds what `f` keeps of it. */
  lemma FilterMapSnoc<A, B>(f: A -> Option<B>, s: seq<A>, x: A)
    ensures FilterMap(f, s + [x]) == FilterMap(f, s) + Found(f(x))
  {
    assert (s + [x])[..|s|] == s;
  }

  /** The first `i + 1` elements keep what the first `i` keep, and then
      what `f` keeps of element `i`. */
  lemma FilterMapPrefix<A, B>(f: A -> Option<B>, s: seq<A>, i: nat)
    requires i < |s|
    ensures FilterMap(f, s[..i + 1]) == FilterMap(f, s[..i]) + Found(f(s[i]))
  {
    assert s[..i + 1] == s[..i] + [s[i]];
    FilterMapSnoc(f, s[..i], s[i]);
  }

  lemma {:induction false} FilterMapAppend<A, B>(f: A -> Option<B>, a: seq<A>, b: seq<A>)
    ensures FilterMap(f, a + b) == FilterMap(f, a) + FilterMap(f, b)
  {
    if b == [] {
      assert a + b == a;
    } else {
      var init := b[..|b| - 1];
      var x := b[|b| - 1];
      assert b == init + [x];
      assert a + b == (a + init) + [x];
      calc {
        FilterMap(f, a + b);
        { FilterMapSnoc(f, a + init, x); }
        FilterMap(f, a + init) + Found(f(x));
        { FilterMapAppend(f, a, init); }
        (FilterMap(f, a) + FilterMap(f, init)) + Found(f(x));
        FilterMap(f, a) + (FilterMap(f, init) + Found(f(x)));
        { FilterMapSnoc(f, init, x); }
        FilterMap(f, a) + FilterMap(f, b);
      }
    }
  }

  /** Whatever every kept value satisfies, every value of the result
      satisfies. */
  lemma {:induction false} FilterMapAll<A, B>(f: A -> Option<B>, p: B -> bool, s: seq<A>)
    requires forall x :: f(x).Some? ==> p(f(x).value)
    ensures forall k :: 0 <= k < |FilterMap(f, s)| ==> p(FilterMap(f, s)[k])
  {
    if s != [] {
      FilterMapAll(f, p, s[..|s| - 1]);
    }
  }

  /** Two partial maps defined on the same elements keep parallel values:
      a relation that links their values element by element links the
      kept values position by position. */
  lemma {:induction false} FilterMapParallel<A, B, C>(f: A -> Option<B>, g: A -> Option<C>, rel: (B, C) -> bool, s: seq<A>)
    requires forall x :: f(x).Some? <==> g(x).Some?
    requires forall x :: f(x).Some? && g(x).Some? ==> rel(f(x).value, g(x).value)
    ensures |FilterMap(f, s)| == |FilterMap(g, s)|
    ensures forall k :: 0 <= k < |FilterMap(f, s)| ==> rel(FilterMap(f, s)[k], FilterMap(g, s)[k])
  {
    if s != [] {
      var init := s[..|s| - 1];
      var x := s[|s| - 1];
      FilterMapParallel(f, g, rel, init);
      var a := FilterMap(f, init);
      var b := FilterMap(g, init);
      var fs := FilterMap(f, s);
      var gs := FilterMap(g, s);
      assert fs == a + Found(f(x));
      assert gs == b + Found(g(x));
      forall k | 0 <= k < |fs|
        ensures rel(fs[k], gs[k])
      {
        if k < |a| {
          assert fs[k] == a[k] && gs[k] == b[k];
        }
      }
    }
  }

  /** The elements `f` keeps something of. */
  function Defined<A, B>(f: A -> Option<B>): A -> bool
  {
    x => f(x).Some?
  }

  /** What `f` gives for each element of a list it keeps all of. */
  function Values<A, B>(f: A -> Option<B>, s: seq<A>): (r: seq<B>)
    requires forall k :: 0 <= k < |s| ==> f(s[k]).Some?
    ensures |r| == |s| && forall k :: 0 <= k < |s| ==> Some(r[k]) == f(s[k])
  {
    seq(|s|, k requires 0 <= k < |s| => f(s[k]).value)
  }

  /** When `f` keeps `t[k]` of each `s[k]`, it keeps exactly `t`. */
  lemma {:induction false} FilterMapPointwise<A, B>(f: A -> Option<B>, s: seq<A>, t: seq<B>)
    requires |s| == |t|
    requires forall k :: 0 <= k < |s| ==> f(s[k]) == Some(t[k])
    ensures FilterMap(f, s) == t
  {
    if s != [] {
      var n := |s| - 1;
      FilterMapPointwise(f, s[..n], t[..n]);
      assert f(s[n]) == Some(t[n]);
      assert t == t[..n] + [t[n]];
    }
  }

  lemma ValuesAppend<A, B>(f: A -> Option<B>, a: seq<A>, b: seq<A>)
    requires forall k :: 0 <= k < |a| ==> f(a[k]).Some?
    requires forall k :: 0 <= k < |b| ==> f(b[k]).Some?
    ensures forall k :: 0 <= k < |a + b| ==> f((a + b)[k]).Some?
    ensures Values(f, a + b) == Values(f, a) + Values(f, b)
  {
    assert forall k :: 0 <= k < |a + b| ==> (a + b)[k] == if k < |a| then a[k] else b[k - |a|];
  }

  /** `FilterMap` is the comprehension "filter by `f` being defined, then
      take the values": the kept values come from exactly the elements `f`
      is defined on, in their order. */
  lemma {:induction false} FilterMapAsFilter<A, B>(f: A -> Option<B>, s: seq<A>)
    ensures forall k :: 0 <= k < |Filter(Defined(f), s)| ==> f(Filter(Defined(f), s)[k]).Some?
    ensures FilterMap(f, s) == Values(f, Filter(Defined(f), s))
  {
    if s != [] {
      var init := s[..|s| - 1];
      var x := s[|s| - 1];
      var kept := Filter(Defined(f), init);
      var one := Filter(Defined(f), [x]);
      FilterMapAsFilter(f, init);
      assert s == init + [x];
      FilterAppend(Defined(f), init, [x]);
      assert [x][1..] == [];
      assert one == if f(x).Some? then [x] else [];
      ValuesAppend(f, kept, one);
      calc {
        FilterMap(f, s);
        { FilterMapSnoc(f, init, x); }
        FilterMap(f, init) + Found(f(x));
        Values(f, kept) + Found(f(x));
        { assert Values(f, one) == Found(f(x)); }
        Values(f, kept) + Values(f, one);
        Values(f, kept + one);
      }
    }
  }

  // ---------------------------------------------------------------------
  // `[g(idx, x) for idx, x in enumerate(s) if ...]`, read from the right end

  /** The values `f` keeps from `s`, given each element with its position. */
  function FilterMapIndexed<A, B>(f: (nat, A) -> Option<B>, s: seq<A>): (r: seq<B>)
    ensures |r| <= |s|
  {
    if s == [] then [] else FilterMapIndexed(f, s[..|s| - 1]) + Found(f(|s| - 1, s[|s| - 1]))
  }

  lemma FilterMapIndexedPrefix<A, B>(f: (nat, A) -> Option<B>, s: seq<A>, i: nat)
    requires i < |s|
    ensures FilterMapIndexed(f, s[..i + 1]) == FilterMapIndexed(f, s[..i]) + Found(f(i, s[i]))
  {
    assert s[..i + 1][..i] == s[..i];
  }

  /** When every value records the position it came from (`key`), each
      kept value names its own element. */
  lemma {:induction false} FilterMapIndexedSources<A, B>(f: (nat, A) -> Option<B>, key: B -> int, s: seq<A>)
    requires forall i: nat, x: A :: f(i, x).Some? ==> key(f(i, x).value) == i
    ensures forall k :: 0 <= k < |FilterMapIndexed(f, s)| ==> 0 <= key(FilterMapIndexed(f, s)[k]) < |s|
    ensures forall k :: 0 <= k < |FilterMapIndexed(f, s)| ==>
              f(key(FilterMapIndexed(f, s)[k]), s[key(FilterMapIndexed(f, s)[k])]) == Some(FilterMapIndexed(f, s)[k])
  {
    if s != [] {
      var n := |s| - 1;
      var init := s[..n];
      FilterMapIndexedSources(f, key, init);
      var r0 := FilterMapIndexed(f, init);
      var r := FilterMapIndexed(f, s);
      assert r == r0 + Found(f(n, s[n]));
      forall k | 0 <= k < |r|
        ensures 0 <= key(r[k]) < |s| && f(key(r[k]), s[key(r[k])]) == Some(r[k])
      {
        if k < |r0| {
          assert r[k] == r0[k];
          assert s[key(r0[k])] == init[key(r0[k])];
        } else {
          assert f(n, s[n]).Some? && r[k] == f(n, s[n]).value;
          assert key(r[k]) == n;
        }
      }
    }
  }

  /** The recorded positions strictly increase along the result. */
  lemma {:induction false} FilterMapIndexedIncreasing<A, B>(f: (nat, A) -> Option<B>, key: B -> int, s: seq<A>)
    requires forall i: nat, x: A :: f(i, x).Some? ==> key(f(i, x).value) == i
    ensures forall j, k :: 0 <= j < k < |FilterMapIndexed(f, s)| ==>
              key(FilterMapIndexed(f, s)[j]) < key(FilterMapIndexed(f, s)[k])
  {
    if s != [] {
      var n := |s| - 1;
      var init := s[..n];
      FilterMapIndexedIncreasing(f, key, init);
      FilterMapIndexedSources(f, key, init);
      var r0 := FilterMapIndexed(f, init);
      var r := FilterMapIndexed(f, s);
      assert r == r0 + Found(f(n, s[n]));
      forall j, k | 0 <= j < k < |r|
        ensures key(r[j]) < key(r[k])
      {
        assert r[j] == r0[j];
        if k < |r0| {
          assert r[k] == r0[k];
        } else {
          assert f(n, s[n]).Some? && r[k] == f(n, s[n]).value;
          assert key(r[k]) == n;
          assert key(r0[j]) < |init|;
        }
      }
    }
  }

  /** Every element `f` keeps something of is represented. */
  lemma {:induction false} FilterMapIndexedComplete<A, B>(f: (nat, A) -> Option<B>, s: seq<A>)
    ensures forall i :: 0 <= i < |s| && f(i, s[i]).Some? ==> f(i, s[i]).value in FilterMapIndexed(f, s)
  {
    if s != [] {
      var n := |s| - 1;
      var init := s[..n];
      FilterMapIndexedComplete(f, init);
      var r0 := FilterMapIndexed(f, init);
      var r := FilterMapIndexed(f, s);
      assert r == r0 + Found(f(n, s[n]));
      forall i | 0 <= i < |s| && f(i, s[i]).Some?
        ensures f(i, s[i]).value in r
      {
        if i < n {
          assert s[i] == init[i];
        }
      }
    }
  }

  /** When `f` keeps something of every element, the result has one value
      per element. */
  lemma {:induction false} FilterMapIndexedTotal<A, B>(f: (nat, A) -> Option<B>, s: seq<A>)
    requires forall i :: 0 <= i < |s| ==> f(i, s[i]).Some?
    ensures |FilterMapIndexed(f, s)| == |s|
    ensures forall i :: 0 <= i < |s| ==> Some(FilterMapIndexed(f, s)[i]) == f(i, s[i])
  {
    if s != [] {
      var n := |s| - 1;
      var init := s[..n];
      FilterMapIndexedTotal(f, init);
      var r0 := FilterMapIndexed(f, init);
      assert FilterMapIndexed(f, s) == r0 + [f(n, s[n]).value];
      forall i | 0 <= i < n
        ensures Some(FilterMapIndexed(f, s)[i]) == f(i, s[i])
      {
        assert s[i] == init[i];
      }
    }
  }
}

/**
 * `Array.prototype.filter` over sequences, with the facts the list-handling pages rely on:
 * a filter keeps exactly the elements that pass, as often as they occur, in their original
 * order.
 */
module Seqs {
  /** `s.filter(keep)`. */
  function Filter<T>(s: seq<T>, keep: T -> bool): (r: seq<T>)
    ensures |r| <= |s|
    ensures forall i :: 0 <= i < |r| ==> keep(r[i])
  {
    if s == [] then [] else (if keep(s[0]) then [s[0]] else []) + Filter(s[1..], keep)
  }

  /** `a` is `b` with some elements left out and the rest in the same order. */
  ghost predicate IsSubsequence<T>(a: seq<T>, b: seq<T>)
    decreases |b|
  {
    if b == [] then a == []
    else (a != [] && a[0] == b[0] && IsSubsequence(a[1..], b[1..])) || IsSubsequence(a, b[1..])
  }

  lemma {:induction false} FilterIsSubsequence<T>(s: seq<T>, keep: T -> bool)
    ensures IsSubsequence(Filter(s, keep), s)
  {
    if s != [] {
      FilterIsSubsequence(s[1..], keep);
      var rest := Filter(s[1..], keep);
      if keep(s[0]) {
        assert Filter(s, keep) == [s[0]] + rest;
        assert ([s[0]] + rest)[1..] == rest;
      } else {
        assert Filter(s, keep) == rest;
      }
    }
  }

  /** The filter keeps every element that passes, and only those. */
  lemma {:induction false} FilterMembers<T>(s: seq<T>, keep: T -> bool, x: T)
    ensures x in Filter(s, keep) <==> x in s && keep(x)
  {
    if s != [] {
      FilterMembers(s[1..], keep, x);
      assert s == [s[0]] + s[1..];
    }
  }

  /** The filter keeps every occurrence of an element that passes and none of one that fails. */
  lemma {:induction false} FilterMultiset<T>(s: seq<T>, keep: T -> bool, x: T)
    ensures multiset(Filter(s, keep))[x] == if keep(x) then multiset(s)[x] else 0
  {
    if s != [] {
      FilterMultiset(s[1..], keep, x);
      assert s == [s[0]] + s[1..];
    }
  }

  /** Filtering twice with the same test changes nothing the second time. */
  lemma {:induction false} FilterIdempotent<T>(s: seq<T>, keep: T -> bool)
    ensures Filter(Filter(s, keep), keep) == Filter(s, keep)
  {
    if s != [] {
      FilterIdempotent(s[1..], keep);
      var rest := Filter(s[1..], keep);
      if keep(s[0]) {
        var f := [s[0]] + rest;
        assert Filter(s, keep) == f;
        assert f[0] == s[0] && f[1..] == rest;
        assert Filter(f, keep) == [s[0]] + Filter(rest, keep);
      } else {
        assert Filter(s, keep) == rest;
      }
    }
  }

  /** A filter that every element passes keeps the whole sequence. */
  lemma {:induction false} FilterKeepsAll<T>(s: seq<T>, keep: T -> bool)
    requires forall i :: 0 <= i < |s| ==> keep(s[i])
    ensures Filter(s, keep) == s
  {
    if s != [] {
      FilterKeepsAll(s[1..], keep);
      assert s == [s[0]] + s[1..];
    }
  }

  /** A filter that no element passes keeps nothing. */
  lemma {:induction false} FilterDropsAll<T>(s: seq<T>, keep: T -> bool)
    requires forall i :: 0 <= i < |s| ==> !keep(s[i])
    ensures Filter(s, keep) == []
  {
    if s != [] {
      FilterDropsAll(s[1..], keep);
    }
  }

  /** Two tests that agree everywhere filter alike. */
  lemma {:induction false} FilterSameTest<T>(s: seq<T>, f: T -> bool, g: T -> bool)
    requires forall x :: f(x) == g(x)
    ensures Filter(s, f) == Filter(s, g)
  {
    if s != [] {
      FilterSameTest(s[1..], f, g);
    }
  }

  /** One step of two filters in a row: the head stays when it passes both tests. */
  lemma FilterTwiceStep<T>(s: seq<T>, p: T -> bool, q: T -> bool)
    requires s != []
    ensures Filter(Filter(s, p), q) == (if p(s[0]) && q(s[0]) then [s[0]] else []) + Filter(Filter(s[1..], p), q)
  {
    var rest := Filter(s[1..], p);
    if p(s[0]) {
      var f := [s[0]] + rest;
      assert Filter(s, p) == f;
      assert f[0] == s[0] && f[1..] == rest;
    } else {
      assert Filter(s, p) == rest;
    }
  }

  /** Filtering by one test and then another is filtering in the other order. */
  lemma {:induction false} FilterCommutes<T>(s: seq<T>, p: T -> bool, q: T -> bool)
    ensures Filter(Filter(s, p), q) == Filter(Filter(s, q), p)
  {
    if s != [] {
      FilterCommutes(s[1..], p, q);
      FilterTwiceStep(s, p, q);
      FilterTwiceStep(s, q, p);
    }
  }

  lemma {:induction false} FilterAppend<T>(a: seq<T>, b: seq<T>, keep: T -> bool)
    ensures Filter(a + b, keep) == Filter(a, keep) + Filter(b, keep)
  {
    if a == [] {
      assert a + b == b;
    } else {
      assert (a + b)[0] == a[0] && (a + b)[1..] == a[1..] + b;
      FilterAppend(a[1..], b, keep);
    }
  }

  /** How many elements pass `test`. */
  function Count<T>(s: seq<T>, test: T -> bool): (n: nat)
    ensures n <= |s|
  {
    |Filter(s, test)|
  }
}

/**
 * The semantics of JavaScript's `Array.prototype.filter` with a pure
 * predicate, which every derived figure of the application is built from
 * (`neighbors.filter(...)` and `.filter(...).length`).
 *
 * `Filter(s, p)` visits `s` front to back and pushes each element that
 * satisfies `p` at the end of the result; the recursion below peels the
 * last element so that one push is one unfolding.
 */
module Arrays {

  /** The elements of `s` that satisfy `p`, in their original order. */
  function Filter<T>(s: seq<T>, p: T -> bool): (r: seq<T>)
    ensures |r| <= |s|
    ensures forall k :: 0 <= k < |r| ==> p(r[k])
    decreases |s|
  {
    if s == [] then []
    else
      var init := Filter(s[..|s| - 1], p);
      if p(s[|s| - 1]) then init + [s[|s| - 1]] else init
  }

  /** The negation of a predicate, as in `n => !n.isResident`. */
  function Not<T>(p: T -> bool): T -> bool {
    x => !p(x)
  }

  /** The positions of `s` whose element satisfies `p`. */
  ghost function MatchingPositions<T>(s: seq<T>, p: T -> bool): set<int> {
    set j | 0 <= j < |s| && p(s[j])
  }

  /**
   * `idx` lists, in strictly increasing order, exactly the positions of `s`
   * whose element satisfies `p`, and `r` is the element of `s` at each of them:
   * `r` is the order-preserving subsequence of the matching elements.
   */
  ghost predicate IsSelection<T>(idx: seq<int>, r: seq<T>, s: seq<T>, p: T -> bool) {
    && |idx| == |r|
    && (forall k :: 0 <= k < |idx| ==> 0 <= idx[k] < |s| && r[k] == s[idx[k]])
    && (forall k, l :: 0 <= k < l < |idx| ==> idx[k] < idx[l])
    && (forall j :: 0 <= j < |s| ==> (p(s[j]) <==> j in idx))
  }

  /** The positions `Filter` keeps, gathered the same way. */
  ghost function KeptPositions<T>(s: seq<T>, p: T -> bool): (idx: seq<int>)
    ensures forall k :: 0 <= k < |idx| ==> 0 <= idx[k] < |s|
    decreases |s|
  {
    if s == [] then []
    else
      var init := KeptPositions(s[..|s| - 1], p);
      if p(s[|s| - 1]) then init + [|s| - 1] else init
  }

  /** Filtering one more element: the push step of `Array.prototype.filter`. */
  lemma FilterSnoc<T>(s: seq<T>, x: T, p: T -> bool)
    ensures Filter(s + [x], p) == if p(x) then Filter(s, p) + [x] else Filter(s, p)
  {
    assert (s + [x])[..|s|] == s;
  }

  /** One element, kept or dropped. */
  function KeepOne<T>(x: T, p: T -> bool): seq<T> {
    if p(x) then [x] else []
  }

  /** A reference definition of filtering that decides the first element first. */
  function FilterFrontFirst<T>(s: seq<T>, p: T -> bool): seq<T> {
    if s == [] then [] else KeepOne(s[0], p) + FilterFrontFirst(s[1..], p)
  }

  /** Filtering a list with one more element in front. */
  lemma {:induction false} FilterCons<T>(x: T, s: seq<T>, p: T -> bool)
    ensures Filter([x] + s, p) == KeepOne(x, p) + Filter(s, p)
    decreases |s|
  {
    if s == [] {
      assert [x] + s == [] + [x];
      FilterSnoc([], x, p);
    } else {
      var init, last := s[..|s| - 1], s[|s| - 1];
      FilterCons(x, init, p);
      assert [x] + s == ([x] + init) + [last];
      FilterSnoc([x] + init, last, p);
      assert s == init + [last];
      FilterSnoc(init, last, p);
    }
  }

  /** Deciding the elements last to first or first to last gives the same result. */
  lemma {:induction false} FilterIsFilterFrontFirst<T>(s: seq<T>, p: T -> bool)
    ensures Filter(s, p) == FilterFrontFirst(s, p)
    decreases |s|
  {
    if s != [] {
      FilterIsFilterFrontFirst(s[1..], p);
      assert s == [s[0]] + s[1..];
      FilterCons(s[0], s[1..], p);
    }
  }

  /** The result of a filter is the subsequence of the matching elements, in input order. */
  lemma {:induction false} FilterSelects<T>(s: seq<T>, p: T -> bool)
    ensures IsSelection(KeptPositions(s, p), Filter(s, p), s, p)
    decreases |s|
  {
    if s != [] {
      var init := s[..|s| - 1];
      FilterSelects(init, p);
      var idx0, r0 := KeptPositions(init, p), Filter(init, p);
      var idx, r := KeptPositions(s, p), Filter(s, p);
      forall j | 0 <= j < |s|
        ensures p(s[j]) <==> j in idx
      {
        if j < |s| - 1 {
          assert s[j] == init[j];
          assert j in idx <==> j in idx0;
        }
      }
    }
  }

  /** The result of a filter holds exactly the elements of the input that satisfy the predicate. */
  lemma FilterMembership<T>(s: seq<T>, p: T -> bool)
    ensures forall x :: x in Filter(s, p) <==> x in s && p(x)
  {
    FilterSelects(s, p);
    var idx, r := KeptPositions(s, p), Filter(s, p);
    forall x | x in s && p(x)
      ensures x in r
    {
      var j :| 0 <= j < |s| && s[j] == x;
      var k :| 0 <= k < |idx| && idx[k] == j;
      assert r[k] == x;
    }
    forall x | x in r
      ensures x in s
    {
      var k :| 0 <= k < |r| && r[k] == x;
      assert s[idx[k]] == x;
    }
  }

  /** The length of a filter is the number of positions whose element matches. */
  lemma {:induction false} FilterCounts<T>(s: seq<T>, p: T -> bool)
    ensures |Filter(s, p)| == |MatchingPositions(s, p)|
    decreases |s|
  {
    if s != [] {
      var n := |s| - 1;
      var init := s[..n];
      FilterCounts(init, p);
      var before := MatchingPositions(init, p);
      assert before == set j | 0 <= j < n && p(s[j]) by {
        forall j | 0 <= j < n
          ensures init[j] == s[j]
        {
        }
      }
      if p(s[n]) {
        assert MatchingPositions(s, p) == before + {n};
        assert n !in before;
      } else {
        assert MatchingPositions(s, p) == before;
      }
    }
  }

  /** Filtering a sequence whose every element already matches returns it unchanged. */
  lemma {:induction false} FilterAllMatching<T>(s: seq<T>, p: T -> bool)
    requires forall k :: 0 <= k < |s| ==> p(s[k])
    ensures Filter(s, p) == s
    decreases |s|
  {
    if s != [] {
      var init := s[..|s| - 1];
      FilterAllMatching(init, p);
      assert init + [s[|s| - 1]] == s;
    }
  }

  /** Two predicates that agree on every element filter alike. */
  lemma {:induction false} FilterAgreeing<T>(s: seq<T>, p: T -> bool, q: T -> bool)
    requires forall x :: p(x) == q(x)
    ensures Filter(s, p) == Filter(s, q)
    decreases |s|
  {
    if s != [] {
      FilterAgreeing(s[..|s| - 1], p, q);
    }
  }

  /** Applying the same filter twice is the same as applying it once. */
  lemma FilterIdempotent<T>(s: seq<T>, p: T -> bool)
    ensures Filter(Filter(s, p), p) == Filter(s, p)
  {
    FilterAllMatching(Filter(s, p), p);
  }

  /**
   * A predicate and its negation split the input: every element lands in
   * exactly one of the two results, so the lengths add up to the input's.
   */
  lemma {:induction false} FilterPartition<T>(s: seq<T>, p: T -> bool)
    ensures |Filter(s, p)| + |Filter(s, Not(p))| == |s|
    ensures multiset(Filter(s, p)) + multiset(Filter(s, Not(p))) == multiset(s)
    decreases |s|
  {
    if s != [] {
      var init := s[..|s| - 1];
      FilterPartition(init, p);
      assert init + [s[|s| - 1]] == s;
    }
  }
}

/** `Array.prototype.filter` and `Array.prototype.find`, and what the core relies on about them. */
module Seqs {
  import opened Wrappers

  /** The elements of `s` that satisfy `p`, in their order in `s`. */
  function Filter<T>(p: T -> bool, s: seq<T>): (r: seq<T>)
    ensures |r| <= |s|
    ensures forall x :: x in r ==> x in s && p(x)
  {
    if s == [] then [] else if p(s[0]) then [s[0]] + Filter(p, s[1..]) else Filter(p, s[1..])
  }

  /** The positions of `s` whose element satisfies `p`. */
  function IndicesWhere<T>(p: T -> bool, s: seq<T>): set<nat> {
    set i: nat | i < |s| && p(s[i])
  }

  /** Filtering distributes over concatenation, so relative order is kept. */
  lemma {:induction false} FilterConcat<T>(p: T -> bool, a: seq<T>, b: seq<T>)
    ensures Filter(p, a + b) == Filter(p, a) + Filter(p, b)
  {
    if a == [] {
      assert a + b == b;
    } else {
      assert (a + b)[1..] == a[1..] + b;
      FilterConcat(p, a[1..], b);
    }
  }

  /** The positions of a sequence extended by one element. */
  lemma IndicesSnoc<T>(p: T -> bool, init: seq<T>, x: T)
    ensures IndicesWhere(p, init + [x]) == IndicesWhere(p, init) + (if p(x) then {|init|} else {})
  {
    var s := init + [x];
    forall i: nat | i < |init| ensures s[i] == init[i] {
    }
  }

  /** The length of the filtered sequence is the number of positions whose element satisfies `p`. */
  lemma {:induction false} FilterCount<T>(p: T -> bool, s: seq<T>)
    ensures |Filter(p, s)| == |IndicesWhere(p, s)|
  {
    if s != [] {
      var n := |s| - 1;
      var init := s[..n];
      FilterCount(p, init);
      assert s == init + [s[n]];
      FilterConcat(p, init, [s[n]]);
      IndicesSnoc(p, init, s[n]);
      assert n !in IndicesWhere(p, init);
    }
  }

  /** Each value occurs in the filtered sequence as often as in `s` if it satisfies `p`, else never. */
  lemma {:induction false} FilterMultiset<T>(p: T -> bool, s: seq<T>, x: T)
    ensures multiset(Filter(p, s))[x] == if p(x) then multiset(s)[x] else 0
  {
    if s != [] {
      FilterMultiset(p, s[1..], x);
      assert s == [s[0]] + s[1..];
    }
  }

  /** Filtering keeps `s` whole exactly when every element satisfies `p`. */
  lemma {:induction false} FilterKeepsAll<T>(p: T -> bool, s: seq<T>)
    ensures Filter(p, s) == s <==> forall x :: x in s ==> p(x)
  {
    if s != [] {
      FilterKeepsAll(p, s[1..]);
      if !p(s[0]) {
        assert |Filter(p, s)| < |s|;
      }
    }
  }

  /** Nothing survives a filter that no element satisfies. */
  lemma {:induction false} FilterNone<T>(p: T -> bool, s: seq<T>)
    requires forall x :: x in s ==> !p(x)
    ensures Filter(p, s) == []
  {
    if s != [] {
      FilterNone(p, s[1..]);
    }
  }

  /** Filtering by two predicates that never hold together splits the filter by their disjunction. */
  lemma {:induction false} FilterDisjoint<T>(p: T -> bool, q: T -> bool, pq: T -> bool, s: seq<T>)
    requires forall x :: x in s ==> pq(x) == (p(x) || q(x)) && !(p(x) && q(x))
    ensures |Filter(pq, s)| == |Filter(p, s)| + |Filter(q, s)|
  {
    if s != [] {
      FilterDisjoint(p, q, pq, s[1..]);
    }
  }

  /** Filtering a filtered sequence is filtering once by the conjunction. */
  lemma {:induction false} FilterFilter<T>(p: T -> bool, q: T -> bool, pq: T -> bool, s: seq<T>)
    requires forall x :: x in s ==> pq(x) == (q(x) && p(x))
    ensures Filter(p, Filter(q, s)) == Filter(pq, s)
  {
    if s != [] {
      FilterFilter(p, q, pq, s[1..]);
    }
  }

  /** The first element of `s` that satisfies `p` (`s.find(p)`), if any. */
  function Find<T>(p: T -> bool, s: seq<T>): (r: Option<T>)
    ensures r.None? <==> forall x :: x in s ==> !p(x)
    ensures r.Some? ==> exists i :: 0 <= i < |s| && s[i] == r.value && p(s[i])
                                   && forall j :: 0 <= j < i ==> !p(s[j])
  {
    if s == [] then None
    else if p(s[0]) then Some(s[0])
    else
      var r := Find(p, s[1..]);
      assert r.Some? ==> exists i :: 1 <= i < |s| && s[i] == r.value && p(s[i])
                                   && forall j :: 0 <= j < i ==> !p(s[j]) by {
        if r.Some? {
          var i :| 0 <= i < |s[1..]| && s[1..][i] == r.value && p(s[1..][i])
                   && forall j :: 0 <= j < i ==> !p(s[1..][j]);
          assert forall j :: 1 <= j < i + 1 ==> s[j] == s[1..][j - 1];
        }
      }
      r
  }

  /** `s` with every repeat of an element after its first occurrence dropped. */
  function Dedup<T(==)>(s: seq<T>): seq<T>
    decreases |s|
  {
    if s == [] then []
    else
      var init := s[..|s| - 1];
      if s[|s| - 1] in init then Dedup(init) else Dedup(init) + [s[|s| - 1]]
  }

  /** The deduplicated sequence has the same elements, each once. */
  lemma {:induction false} DedupSpec<T>(s: seq<T>)
    ensures forall x :: x in Dedup(s) <==> x in s
    ensures forall i, j :: 0 <= i < j < |Dedup(s)| ==> Dedup(s)[i] != Dedup(s)[j]
    decreases |s|
  {
    if s != [] {
      var init := s[..|s| - 1];
      DedupSpec(init);
      assert s == init + [s[|s| - 1]];
    }
  }
}

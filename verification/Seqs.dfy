/** Filtering of sequences: the rows a query keeps, in the order it keeps them. */
module Seqs {
  function Filter<T>(s: seq<T>, keep: T -> bool): (r: seq<T>)
    ensures |r| <= |s|
  {
    if s == [] then [] else
    Filter(s[..|s| - 1], keep) + if keep(s[|s| - 1]) then [s[|s| - 1]] else []
  }

  lemma FilterAppend<T>(s: seq<T>, x: T, keep: T -> bool)
    ensures Filter(s + [x], keep) == Filter(s, keep) + if keep(x) then [x] else []
  {
    assert (s + [x])[..|s|] == s;
  }

  /** How often a value occurs after filtering depends only on how often it occurred before. */
  lemma {:induction false} FilterCounts<T>(s: seq<T>, keep: T -> bool, x: T)
    ensures multiset(Filter(s, keep))[x] == if keep(x) then multiset(s)[x] else 0
  {
    if s != [] {
      var init, last := s[..|s| - 1], s[|s| - 1];
      FilterCounts(init, keep, x);
      assert s == init + [last];
      assert multiset(s) == multiset(init) + multiset{last};
    }
  }

  /** Filtering commutes with reordering. */
  lemma FilterPermutation<T(!new)>(a: seq<T>, b: seq<T>, keep: T -> bool)
    requires multiset(a) == multiset(b)
    ensures multiset(Filter(a, keep)) == multiset(Filter(b, keep))
    ensures |Filter(a, keep)| == |Filter(b, keep)|
  {
    forall x ensures multiset(Filter(a, keep))[x] == multiset(Filter(b, keep))[x] {
      FilterCounts(a, keep, x);
      FilterCounts(b, keep, x);
    }
    assert multiset(Filter(a, keep)) == multiset(Filter(b, keep));
    assert |Filter(a, keep)| == |multiset(Filter(a, keep))|;
  }

  /** A coarse filter loses nothing that a finer one would have kept. */
  lemma {:induction false} FilterAfterCoarser<T>(s: seq<T>, coarse: T -> bool, fine: T -> bool)
    requires forall i :: 0 <= i < |s| && fine(s[i]) ==> coarse(s[i])
    ensures Filter(Filter(s, coarse), fine) == Filter(s, fine)
  {
    if s != [] {
      var init, last := s[..|s| - 1], s[|s| - 1];
      FilterAfterCoarser(init, coarse, fine);
      if coarse(last) {
        FilterAppend(Filter(init, coarse), last, fine);
      } else {
        assert Filter(s, coarse) == Filter(init, coarse) && Filter(s, fine) == Filter(init, fine);
      }
    }
  }

  /** A stricter filter keeps no more. */
  lemma {:induction false} FilterMonotone<T>(s: seq<T>, strict: T -> bool, lax: T -> bool)
    requires forall i :: 0 <= i < |s| && strict(s[i]) ==> lax(s[i])
    ensures |Filter(s, strict)| <= |Filter(s, lax)|
  {
    if s != [] {
      FilterMonotone(s[..|s| - 1], strict, lax);
    }
  }

  /** Two filters that agree on every element keep the same elements. */
  lemma {:induction false} FilterAgree<T>(s: seq<T>, f: T -> bool, g: T -> bool)
    requires forall i :: 0 <= i < |s| ==> f(s[i]) == g(s[i])
    ensures Filter(s, f) == Filter(s, g)
  {
    if s != [] {
      FilterAgree(s[..|s| - 1], f, g);
    }
  }
}

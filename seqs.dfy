/** Sequence helpers shared by the scraper and the metrics model. */
module Seqs {

  /** No element occurs twice. */
  ghost predicate Distinct<T>(xs: seq<T>) {
    forall i, j :: 0 <= i < j < |xs| ==> xs[i] != xs[j]
  }

  /** The elements of `xs` that do not occur in `excluded`, in their order in `xs`
      (Python's `[x for x in xs if x not in excluded]`). */
  function NotIn(xs: seq<string>, excluded: seq<string>): (r: seq<string>)
    ensures forall x :: x in r <==> x in xs && x !in excluded
    ensures |r| <= |xs|
  {
    if xs == [] then []
    else if xs[0] in excluded then NotIn(xs[1..], excluded)
    else [xs[0]] + NotIn(xs[1..], excluded)
  }

  /** Filtering a duplicate-free sequence keeps it duplicate-free. */
  lemma {:induction false} NotInDistinct(xs: seq<string>, excluded: seq<string>)
    requires Distinct(xs)
    ensures Distinct(NotIn(xs, excluded))
  {
    if xs != [] {
      assert Distinct(xs[1..]) by {
        forall i, j | 0 <= i < j < |xs[1..]| ensures xs[1..][i] != xs[1..][j] {
          assert xs[1..][i] == xs[i + 1] && xs[1..][j] == xs[j + 1];
        }
      }
      NotInDistinct(xs[1..], excluded);
      assert xs[0] !in xs[1..] by {
        forall k | 0 <= k < |xs[1..]| ensures xs[1..][k] != xs[0] {
          assert xs[1..][k] == xs[k + 1];
        }
      }
    }
  }

  /** Appending elements that are new and pairwise different keeps a sequence duplicate-free. */
  lemma AppendDistinct<T>(xs: seq<T>, ys: seq<T>)
    requires Distinct(xs) && Distinct(ys)
    requires forall y :: y in ys ==> y !in xs
    ensures Distinct(xs + ys)
  {
    forall i, j | 0 <= i < j < |xs + ys| ensures (xs + ys)[i] != (xs + ys)[j] {
      if j < |xs| {
      } else if i >= |xs| {
        assert (xs + ys)[i] == ys[i - |xs|] && (xs + ys)[j] == ys[j - |xs|];
      } else {
        assert (xs + ys)[j] == ys[j - |xs|] && (xs + ys)[j] in ys;
      }
    }
  }
}

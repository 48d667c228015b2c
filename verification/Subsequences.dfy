// Sequences with some elements left out.
module Subsequences {

  ghost predicate Subsequence<T(!new)>(xs: seq<T>, ys: seq<T>)
    decreases |ys|
  {
    xs == [] ||
    (ys != [] &&
     ((xs[|xs| - 1] == ys[|ys| - 1] && Subsequence(xs[..|xs| - 1], ys[..|ys| - 1])) ||
      Subsequence(xs, ys[..|ys| - 1])))
  }

  lemma SubsequenceSnoc<T(!new)>(xs: seq<T>, ys: seq<T>, y: T)
    requires Subsequence(xs, ys)
    ensures Subsequence(xs, ys + [y]) && Subsequence(xs + [y], ys + [y])
  {
    assert (ys + [y])[..|ys|] == ys && (xs + [y])[..|xs|] == xs;
  }

  lemma {:induction false} SubsequenceAppend<T(!new)>(xs: seq<T>, ys: seq<T>, zs: seq<T>)
    requires Subsequence(xs, ys)
    ensures Subsequence(xs, ys + zs)
    decreases |zs|
  {
    if zs == [] {
      assert ys + zs == ys;
    } else {
      SubsequenceAppend(xs, ys, zs[..|zs| - 1]);
      SubsequenceSnoc(xs, ys + zs[..|zs| - 1], zs[|zs| - 1]);
      assert ys + zs[..|zs| - 1] + [zs[|zs| - 1]] == ys + zs;
    }
  }

  lemma AppendSnoc<T>(xs: seq<T>, zs: seq<T>)
    requires zs != []
    ensures xs + zs == xs + zs[..|zs| - 1] + [zs[|zs| - 1]]
  {
  }

  lemma {:induction false} SubsequenceAppendBoth<T(!new)>(xs: seq<T>, ys: seq<T>, zs: seq<T>)
    requires Subsequence(xs, ys)
    ensures Subsequence(xs + zs, ys + zs)
    decreases |zs|
  {
    if zs == [] {
      assert ys + zs == ys && xs + zs == xs;
    } else {
      var before := zs[..|zs| - 1];
      SubsequenceAppendBoth(xs, ys, before);
      SubsequenceSnoc(xs + before, ys + before, zs[|zs| - 1]);
      AppendSnoc(xs, zs);
      AppendSnoc(ys, zs);
    }
  }

  lemma {:induction false} SubsequenceSelf<T(!new)>(xs: seq<T>)
    ensures Subsequence(xs, xs)
  {
    if xs != [] {
      SubsequenceSelf(xs[..|xs| - 1]);
    }
  }

  /** Taking out a part in the middle. */
  lemma SubsequenceWithout<T(!new)>(a: seq<T>, b: seq<T>, c: seq<T>)
    ensures Subsequence(a + c, a + b + c)
  {
    SubsequenceSelf(a);
    SubsequenceAppend(a, a, b);
    SubsequenceAppendBoth(a, a + b, c);
  }

  lemma {:induction false} SubsequenceTransitive<T(!new)>(xs: seq<T>, ys: seq<T>, zs: seq<T>)
    requires Subsequence(xs, ys) && Subsequence(ys, zs)
    ensures Subsequence(xs, zs)
    decreases |zs|
  {
    if xs != [] {
      var (ys', zs') := (ys[..|ys| - 1], zs[..|zs| - 1]);
      if Subsequence(ys, zs') {
        SubsequenceTransitive(xs, ys, zs');
      } else if Subsequence(xs, ys') {
        SubsequenceTransitive(xs, ys', zs');
      } else {
        SubsequenceTransitive(xs[..|xs| - 1], ys', zs');
      }
    }
  }
}

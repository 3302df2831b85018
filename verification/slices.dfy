/**
 * Facts about sequence slices used by the session proofs. They are kept in
 * a module of their own so that proving them never involves the session
 * functions.
 */
module Slices {
  lemma TakeOneMore<T>(xs: seq<T>, n: nat)
    requires n < |xs|
    ensures xs[..n + 1] == xs[..n] + [xs[n]]
  {
  }

  lemma TakeAll<T>(xs: seq<T>)
    ensures xs[..|xs|] == xs
  {
  }

  lemma SplitJoin<T>(xs: seq<T>, n: nat)
    requires n <= |xs|
    ensures xs[..n] + xs[n..] == xs
  {
  }

  lemma LastSplit<T>(xs: seq<T>)
    requires xs != []
    ensures xs[..|xs| - 1] + [xs[|xs| - 1]] == xs
  {
  }

  lemma PrefixOfSnoc<T>(xs: seq<T>, x: T)
    ensures (xs + [x])[..|xs|] == xs
  {
  }

  lemma DropLastOfAppend<T>(xs: seq<T>, ys: seq<T>)
    requires ys != []
    ensures (xs + ys)[..|xs + ys| - 1] == xs + ys[..|ys| - 1]
  {
  }

  lemma AppendEmpty<T>(xs: seq<T>, ys: seq<T>)
    requires ys == []
    ensures xs + ys == xs
  {
  }

  lemma TakeOfTake<T>(xs: seq<T>, m: nat, n: nat)
    requires n <= m <= |xs|
    ensures xs[..m][..n] == xs[..n]
  {
  }

  lemma DropOfSnoc<T>(xs: seq<T>, x: T, n: nat)
    requires n <= |xs|
    ensures (xs + [x])[n..] == xs[n..] + [x]
  {
  }

  lemma AppendAssoc<T>(xs: seq<T>, ys: seq<T>, zs: seq<T>)
    ensures xs + (ys + zs) == (xs + ys) + zs
  {
  }
}

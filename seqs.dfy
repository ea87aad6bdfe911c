/** Small facts about sequences, stated once for any element type. Proving
    them generically keeps the solver from unfolding the records they hold. */
module Seqs {
  lemma InAppend<T>(x: T, xs: seq<T>, ys: seq<T>)
    ensures x in xs + ys <==> x in xs || x in ys
  {
  }

  lemma PrefixAt<T>(xs: seq<T>, n: nat, i: nat)
    requires i < n <= |xs|
    ensures xs[..n][i] == xs[i]
  {
  }

  lemma ConsParts<T>(h: T, s: seq<T>)
    ensures ([h] + s)[0] == h && ([h] + s)[1..] == s
  {
  }

  lemma MultisetCons<T>(h: T, s: seq<T>)
    ensures multiset([h] + s) == multiset{h} + multiset(s)
  {
  }

  lemma MultisetHead<T>(s: seq<T>)
    requires s != []
    ensures multiset(s) == multiset{s[0]} + multiset(s[1..])
  {
    assert s == [s[0]] + s[1..];
  }

  lemma SuffixStep<T>(xs: seq<T>, i: nat)
    requires i < |xs|
    ensures xs[i..][0] == xs[i] && xs[i..][1..] == xs[i + 1..]
  {
  }

  lemma AppendEmpty<T>(a: seq<T>)
    ensures a + [] == a
  {
  }

  lemma AppendAssoc<T>(a: seq<T>, b: seq<T>, c: seq<T>)
    ensures a + (b + c) == (a + b) + c
  {
  }
}

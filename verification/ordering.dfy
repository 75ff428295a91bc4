/** The output ordering: `sort((a, b) => b.cached - a.cached)` when randomisation is off,
    `sort(() => Math.random() - 0.5)` when it is on. `Array.prototype.sort` is stable
    (ECMAScript 2019, section 22.1.3.27), so the first is the stable partition that puts the
    cached streams first. */
module Ordering {
  import opened Wrappers
  import opened Streams

  /** `cached` is true (the comparator reads `true` as 1 and `false` as 0). */
  predicate IsCached(s: Stream)
  {
    s.cached == Some(true)
  }

  /** The cached streams of `xs`, in their order in `xs`. */
  function CachedPart(xs: seq<Stream>): seq<Stream>
    decreases |xs|
  {
    if xs == [] then []
    else CachedPart(xs[..|xs| - 1]) + (if IsCached(xs[|xs| - 1]) then [xs[|xs| - 1]] else [])
  }

  /** The other streams of `xs`, in their order in `xs`. */
  function UncachedPart(xs: seq<Stream>): seq<Stream>
    decreases |xs|
  {
    if xs == [] then []
    else UncachedPart(xs[..|xs| - 1]) + (if IsCached(xs[|xs| - 1]) then [] else [xs[|xs| - 1]])
  }

  /** The stable sort by `cached`, descending. */
  function CachedFirst(xs: seq<Stream>): seq<Stream>
  {
    CachedPart(xs) + UncachedPart(xs)
  }

  /** No stream that is not cached comes before a cached one. */
  ghost predicate CachedBeforeUncached(xs: seq<Stream>)
  {
    forall i, j :: 0 <= i < j < |xs| && IsCached(xs[j]) ==> IsCached(xs[i])
  }

  lemma {:induction false} PartsAreHomogeneous(xs: seq<Stream>)
    ensures forall i :: 0 <= i < |CachedPart(xs)| ==> IsCached(CachedPart(xs)[i])
    ensures forall i :: 0 <= i < |UncachedPart(xs)| ==> !IsCached(UncachedPart(xs)[i])
    ensures |CachedPart(xs)| + |UncachedPart(xs)| == |xs|
    decreases |xs|
  {
    if xs != [] {
      PartsAreHomogeneous(xs[..|xs| - 1]);
    }
  }

  lemma {:induction false} PartsAppend(xs: seq<Stream>, ys: seq<Stream>)
    ensures CachedPart(xs + ys) == CachedPart(xs) + CachedPart(ys)
    ensures UncachedPart(xs + ys) == UncachedPart(xs) + UncachedPart(ys)
    decreases |ys|
  {
    if ys != [] {
      var init := ys[..|ys| - 1];
      assert (xs + ys)[..|xs + ys| - 1] == xs + init;
      PartsAppend(xs, init);
    } else {
      assert xs + ys == xs;
    }
  }

  /** Of a list whose streams are all cached, everything is in the cached part. */
  lemma {:induction false} PartsOfCached(xs: seq<Stream>)
    requires forall i :: 0 <= i < |xs| ==> IsCached(xs[i])
    ensures CachedPart(xs) == xs && UncachedPart(xs) == []
    decreases |xs|
  {
    if xs != [] {
      PartsOfCached(xs[..|xs| - 1]);
    }
  }

  lemma {:induction false} PartsOfUncached(xs: seq<Stream>)
    requires forall i :: 0 <= i < |xs| ==> !IsCached(xs[i])
    ensures CachedPart(xs) == [] && UncachedPart(xs) == xs
    decreases |xs|
  {
    if xs != [] {
      PartsOfUncached(xs[..|xs| - 1]);
    }
  }

  /** The result is a permutation of the input. */
  lemma {:induction false} CachedFirstPermutation(xs: seq<Stream>)
    ensures multiset(CachedFirst(xs)) == multiset(xs)
    decreases |xs|
  {
    if xs != [] {
      var init, last := xs[..|xs| - 1], xs[|xs| - 1];
      CachedFirstPermutation(init);
      assert xs == init + [last];
    }
  }

  /** The result has every cached stream before every other stream. */
  lemma CachedFirstOrdered(xs: seq<Stream>)
    ensures CachedBeforeUncached(CachedFirst(xs))
  {
    PartsAreHomogeneous(xs);
  }

  /** The sort is stable: within each group the streams keep their input order. */
  lemma CachedFirstStable(xs: seq<Stream>)
    ensures CachedPart(CachedFirst(xs)) == CachedPart(xs)
    ensures UncachedPart(CachedFirst(xs)) == UncachedPart(xs)
  {
    PartsAreHomogeneous(xs);
    PartsAppend(CachedPart(xs), UncachedPart(xs));
    PartsOfCached(CachedPart(xs));
    PartsOfUncached(UncachedPart(xs));
  }

  /** A list ordered cached-first is its cached part followed by its other part. */
  lemma {:induction false} OrderedIsSplit(ys: seq<Stream>)
    requires CachedBeforeUncached(ys)
    ensures ys == CachedPart(ys) + UncachedPart(ys)
    decreases |ys|
  {
    if ys != [] {
      var init, last := ys[..|ys| - 1], ys[|ys| - 1];
      OrderedIsSplit(init);
      if IsCached(last) {
        assert forall i :: 0 <= i < |init| ==> IsCached(init[i]) by {
          forall i | 0 <= i < |init| ensures IsCached(init[i]) {
            assert IsCached(ys[i]);
          }
        }
        PartsOfCached(init);
      }
      assert ys == init + [last];
    }
  }

  /** Stability determines the result: any list ordered cached-first whose two groups are
      the input's groups in input order is `CachedFirst` of the input. */
  lemma StableSortUnique(xs: seq<Stream>, ys: seq<Stream>)
    requires CachedBeforeUncached(ys)
    requires CachedPart(ys) == CachedPart(xs) && UncachedPart(ys) == UncachedPart(xs)
    ensures ys == CachedFirst(xs)
  {
    OrderedIsSplit(ys);
  }

  /** The sort runs in place on the array of processed streams. */
  method SortCachedFirst(a: array<Stream>)
    modifies a
    ensures a[..] == CachedFirst(old(a[..]))
  {
    var input := a[..];
    var hot: seq<Stream> := [];
    var cold: seq<Stream> := [];
    var i := 0;
    while i < a.Length
      invariant 0 <= i <= a.Length
      invariant a[..] == input
      invariant hot == CachedPart(input[..i]) && cold == UncachedPart(input[..i])
    {
      assert input[..i + 1][..i] == input[..i];
      if a[i].cached == Some(true) {
        hot := hot + [a[i]];
      } else {
        cold := cold + [a[i]];
      }
      i := i + 1;
    }
    assert input[..i] == input;
    var sorted := hot + cold;
    PartsAreHomogeneous(input);
    var k := 0;
    while k < a.Length
      invariant 0 <= k <= a.Length
      invariant forall j :: 0 <= j < k ==> a[j] == sorted[j]
    {
      a[k] := sorted[k];
      k := k + 1;
    }
    assert a[..] == sorted;
  }

  /** The random order: each draw picks the next element among those not yet placed. */
  function Shuffle(xs: seq<Stream>, draws: seq<nat>): seq<Stream>
    decreases |xs|
  {
    if xs == [] then []
    else
      var k := if draws == [] then 0 else draws[0] % |xs|;
      [xs[k]] + Shuffle(xs[..k] + xs[k + 1..], if draws == [] then [] else draws[1..])
  }

  /** Taking out the element at `k` leaves the rest of the multiset. */
  lemma RemoveAt(xs: seq<Stream>, k: nat)
    requires k < |xs|
    ensures multiset(xs) == multiset([xs[k]]) + multiset(xs[..k] + xs[k + 1..])
  {
    assert xs == xs[..k] + [xs[k]] + xs[k + 1..];
  }

  /** Whatever the draws, the random order is a permutation of the input. */
  lemma {:induction false} ShufflePermutation(xs: seq<Stream>, draws: seq<nat>)
    ensures multiset(Shuffle(xs, draws)) == multiset(xs)
    decreases |xs|
  {
    if xs != [] {
      var k: nat := if draws == [] then 0 else draws[0] % |xs|;
      assert k < |xs|;
      var rest := xs[..k] + xs[k + 1..];
      var more: seq<nat> := if draws == [] then [] else draws[1..];
      ShufflePermutation(rest, more);
      RemoveAt(xs, k);
      assert Shuffle(xs, draws) == [xs[k]] + Shuffle(rest, more);
    }
  }

  /** The configured ordering policy. */
  function Order(randomize: bool, xs: seq<Stream>, draws: seq<nat>): seq<Stream>
  {
    if randomize then Shuffle(xs, draws) else CachedFirst(xs)
  }

  /** Either policy returns a permutation of the processed list; with randomisation off it
      is ordered cached-first and stable. */
  lemma OrderProperties(randomize: bool, xs: seq<Stream>, draws: seq<nat>)
    ensures multiset(Order(randomize, xs, draws)) == multiset(xs)
    ensures !randomize ==> CachedBeforeUncached(Order(randomize, xs, draws))
    ensures !randomize ==> CachedPart(Order(randomize, xs, draws)) == CachedPart(xs)
    ensures !randomize ==> UncachedPart(Order(randomize, xs, draws)) == UncachedPart(xs)
  {
    ShufflePermutation(xs, draws);
    CachedFirstPermutation(xs);
    CachedFirstOrdered(xs);
    CachedFirstStable(xs);
  }
}

/** The stable deduplication of the merged provider results: a `filter` whose callback
    consults and grows a `seen` set of keys. */
module Deduplication {
  import opened Wrappers
  import opened Streams

  /** Reference definition: the element at the end of `xs` is kept exactly when no earlier
      element has its key. */
  function Dedup(xs: seq<Stream>): seq<Stream>
    decreases |xs|
  {
    if xs == [] then []
    else
      var init, last := xs[..|xs| - 1], xs[|xs| - 1];
      if Key(last) in KeySet(init) then Dedup(init) else Dedup(init) + [last]
  }

  /** No two elements share a key. */
  ghost predicate UniqueKeys(xs: seq<Stream>)
  {
    forall i, j :: 0 <= i < j < |xs| ==> Key(xs[i]) != Key(xs[j])
  }

  /** `a` is obtained from `b` by deleting elements (order kept). */
  ghost predicate IsSubsequence(a: seq<Stream>, b: seq<Stream>)
    decreases |b|
  {
    if b == [] then a == []
    else
      (a != [] && a[|a| - 1] == b[|b| - 1] && IsSubsequence(a[..|a| - 1], b[..|b| - 1]))
      || IsSubsequence(a, b[..|b| - 1])
  }

  /** The position of the first element of `xs` with key `k`. */
  function FirstIndex(xs: seq<Stream>, k: string): (i: nat)
    requires k in KeySet(xs)
    ensures i < |xs| && Key(xs[i]) == k
    ensures forall j :: 0 <= j < i ==> Key(xs[j]) != k
    decreases |xs|
  {
    var init := xs[..|xs| - 1];
    assert xs == init + [xs[|xs| - 1]];
    KeySetSnoc(init, xs[|xs| - 1]);
    if k in KeySet(init) then FirstIndex(init, k) else |xs| - 1
  }

  /** The loop of the source: one pass, a set of keys seen so far, and the kept elements. */
  method DedupStreams(all: seq<Stream>) returns (kept: seq<Stream>)
    ensures kept == Dedup(all)
  {
    var seen: set<string> := {};
    kept := [];
    var i := 0;
    while i < |all|
      invariant 0 <= i <= |all|
      invariant seen == KeySet(all[..i])
      invariant kept == Dedup(all[..i])
    {
      var key := Key(all[i]);
      assert all[..i + 1] == all[..i] + [all[i]];
      KeySetSnoc(all[..i], all[i]);
      if key !in seen {
        seen := seen + {key};
        kept := kept + [all[i]];
      }
      i := i + 1;
    }
    assert all[..i] == all;
  }

  /** The output has exactly the input's keys, and each of them once. */
  lemma {:induction false} DedupKeys(xs: seq<Stream>)
    ensures KeySet(Dedup(xs)) == KeySet(xs)
    ensures UniqueKeys(Dedup(xs))
    decreases |xs|
  {
    if xs != [] {
      var init, last := xs[..|xs| - 1], xs[|xs| - 1];
      assert xs == init + [last];
      KeySetSnoc(init, last);
      DedupKeys(init);
      var d := Dedup(init);
      if Key(last) !in KeySet(init) {
        KeySetSnoc(d, last);
        var r := d + [last];
        forall i, j | 0 <= i < j < |r| ensures Key(r[i]) != Key(r[j]) {
          if j == |d| {
            assert Key(r[i]) == Key(d[i]) && Key(d[i]) in KeySet(d);
          }
        }
      }
    }
  }

  /** The output is the input with some elements deleted. */
  lemma {:induction false} DedupSubsequence(xs: seq<Stream>)
    ensures IsSubsequence(Dedup(xs), xs)
    decreases |xs|
  {
    if xs != [] {
      var init, last := xs[..|xs| - 1], xs[|xs| - 1];
      DedupSubsequence(init);
      var d := Dedup(init);
      if Key(last) !in KeySet(init) {
        assert (d + [last])[..|d + [last]| - 1] == d;
      }
    }
  }

  /** Every kept element is the first element of the input with its key. */
  lemma {:induction false} DedupKeepsFirst(xs: seq<Stream>)
    ensures forall j :: 0 <= j < |Dedup(xs)| ==>
              Key(Dedup(xs)[j]) in KeySet(xs) && Dedup(xs)[j] == xs[FirstIndex(xs, Key(Dedup(xs)[j]))]
    decreases |xs|
  {
    if xs != [] {
      var init, last := xs[..|xs| - 1], xs[|xs| - 1];
      assert xs == init + [last];
      KeySetSnoc(init, last);
      DedupKeepsFirst(init);
      var d := Dedup(init);
      var r := Dedup(xs);
      forall j | 0 <= j < |r|
        ensures Key(r[j]) in KeySet(xs) && r[j] == xs[FirstIndex(xs, Key(r[j]))]
      {
        if j < |d| {
          assert r[j] == d[j];
          var k := Key(d[j]);
          assert FirstIndex(xs, k) == FirstIndex(init, k);
        } else {
          assert r[j] == last && Key(last) !in KeySet(init);
        }
      }
    }
  }

  /** A list whose keys are already distinct is left as it is. */
  lemma {:induction false} DedupOfUnique(ys: seq<Stream>)
    requires UniqueKeys(ys)
    ensures Dedup(ys) == ys
    decreases |ys|
  {
    if ys != [] {
      var init, last := ys[..|ys| - 1], ys[|ys| - 1];
      assert UniqueKeys(init);
      DedupOfUnique(init);
      assert ys == init + [last];
    }
  }

  /** Deduplicating twice gives the same result as deduplicating once. */
  lemma DedupIdempotent(xs: seq<Stream>)
    ensures Dedup(Dedup(xs)) == Dedup(xs)
  {
    DedupKeys(xs);
    DedupOfUnique(Dedup(xs));
  }

  /** Of two colliding streams only the first survives, although their (url, title) pairs differ. */
  lemma DedupDropsCollidingPair(extra: map<string, string>)
    ensures var a := Stream(Some("a-b"), Some("c"), None, extra);
            var b := Stream(Some("a"), Some("b-c"), None, extra);
            Dedup([a, b]) == [a]
  {
    var a := Stream(Some("a-b"), Some("c"), None, extra);
    var b := Stream(Some("a"), Some("b-c"), None, extra);
    KeyCollision(extra);
    assert [a, b][..1] == [a];
    assert [a][..0] == [];
    assert [a][0] == a && Key(b) == Key([a][0]);
    assert Key(b) in KeySet([a]);
    assert KeySet([]) == {};
    assert Dedup([a]) == [a];
    assert Dedup([a, b]) == Dedup([a]);
  }
}

/** The provider fan-out of a cache miss: one request per (source, id) pair, issued
    source-major as `sourceUrls.flatMap(source => [id, nextEpisodeId, nextSeasonId])`,
    awaited with `Promise.all` and flattened. */
module FanOut {
  import opened Streams

  /** The provider network: the `streams` of the response for a url, or [] on any failure
      (network error, timeout, non-2xx status, missing field). */
  type Network = string -> seq<Stream>

  /** `${sourceUrl}/stream/${type}/${id}.json` */
  function FetchUrl(source: string, kind: string, id: string): string
  {
    source + "/stream/" + kind + "/" + id + ".json"
  }

  /** With source and type fixed, different ids are sent to different urls. */
  lemma FetchUrlInjective(source: string, kind: string, a: string, b: string)
    requires FetchUrl(source, kind, a) == FetchUrl(source, kind, b)
    ensures a == b
  {
    var prefix := source + "/stream/" + kind + "/";
    var u := FetchUrl(source, kind, a);
    assert u == prefix + a + ".json";
    assert FetchUrl(source, kind, b) == prefix + b + ".json";
    assert |a| == |b|;
    assert a == u[|prefix|..|prefix| + |a|];
    assert b == u[|prefix|..|prefix| + |b|];
  }

  /** `fetchFromSource` without its network error handling. */
  function Fetch(net: Network, source: string, kind: string, id: string): seq<Stream>
  {
    net(FetchUrl(source, kind, id))
  }

  /** The request urls, in the order of the promises. */
  function RequestUrls(sources: seq<string>, kind: string, id: string, nextEpisode: string, nextSeason: string): (urls: seq<string>)
    ensures |urls| == 3 * |sources|
    decreases |sources|
  {
    if sources == [] then []
    else
      [FetchUrl(sources[0], kind, id), FetchUrl(sources[0], kind, nextEpisode), FetchUrl(sources[0], kind, nextSeason)]
      + RequestUrls(sources[1..], kind, id, nextEpisode, nextSeason)
  }

  /** Request `3 * i + j` goes to source `i` for the `j`-th of [id, nextEpisode, nextSeason]. */
  lemma {:induction false} RequestUrlsAt(sources: seq<string>, kind: string, id: string, nextEpisode: string, nextSeason: string, i: nat)
    requires i < |sources|
    ensures RequestUrls(sources, kind, id, nextEpisode, nextSeason)[3 * i] == FetchUrl(sources[i], kind, id)
    ensures RequestUrls(sources, kind, id, nextEpisode, nextSeason)[3 * i + 1] == FetchUrl(sources[i], kind, nextEpisode)
    ensures RequestUrls(sources, kind, id, nextEpisode, nextSeason)[3 * i + 2] == FetchUrl(sources[i], kind, nextSeason)
    decreases i
  {
    if i > 0 {
      RequestUrlsAt(sources[1..], kind, id, nextEpisode, nextSeason, i - 1);
    }
  }

  /** `Promise.all(streamPromises)`: the responses, in request order. */
  function Responses(net: Network, urls: seq<string>): (rs: seq<seq<Stream>>)
    ensures |rs| == |urls|
    ensures forall i :: 0 <= i < |urls| ==> rs[i] == net(urls[i])
  {
    seq(|urls|, i requires 0 <= i < |urls| => net(urls[i]))
  }

  /** `streams.flat()` */
  function Flatten(xss: seq<seq<Stream>>): seq<Stream>
    decreases |xss|
  {
    if xss == [] then [] else xss[0] + Flatten(xss[1..])
  }

  lemma {:induction false} FlattenAppend(xss: seq<seq<Stream>>, yss: seq<seq<Stream>>)
    ensures Flatten(xss + yss) == Flatten(xss) + Flatten(yss)
    decreases |xss|
  {
    if xss != [] {
      assert (xss + yss)[1..] == xss[1..] + yss;
      FlattenAppend(xss[1..], yss);
    } else {
      assert xss + yss == yss;
    }
  }

  /** Every stream in the flattened list came from one of the responses, and conversely. */
  lemma {:induction false} FlattenMembership(xss: seq<seq<Stream>>, x: Stream)
    ensures x in Flatten(xss) <==> exists i :: 0 <= i < |xss| && x in xss[i]
    decreases |xss|
  {
    if xss != [] {
      FlattenMembership(xss[1..], x);
      if x in Flatten(xss[1..]) {
        var i :| 0 <= i < |xss[1..]| && x in xss[1..][i];
        assert x in xss[i + 1];
      }
      if exists i :: 0 <= i < |xss| && x in xss[i] {
        var i :| 0 <= i < |xss| && x in xss[i];
        if i > 0 {
          assert x in xss[1..][i - 1];
        }
      }
    }
  }

  /** The merged provider results of a miss. */
  function Merged(net: Network, sources: seq<string>, kind: string, id: string, nextEpisode: string, nextSeason: string): seq<Stream>
  {
    Flatten(Responses(net, RequestUrls(sources, kind, id, nextEpisode, nextSeason)))
  }

  /** The merged list is source-major: the first source's results for id, next episode and
      next season, then the merged list of the remaining sources. */
  lemma MergedBySource(net: Network, sources: seq<string>, kind: string, id: string, nextEpisode: string, nextSeason: string)
    requires sources != []
    ensures Merged(net, sources, kind, id, nextEpisode, nextSeason)
         == Fetch(net, sources[0], kind, id) + Fetch(net, sources[0], kind, nextEpisode) + Fetch(net, sources[0], kind, nextSeason)
            + Merged(net, sources[1..], kind, id, nextEpisode, nextSeason)
  {
    var first := [FetchUrl(sources[0], kind, id), FetchUrl(sources[0], kind, nextEpisode), FetchUrl(sources[0], kind, nextSeason)];
    var rest := RequestUrls(sources[1..], kind, id, nextEpisode, nextSeason);
    assert Responses(net, first + rest) == Responses(net, first) + Responses(net, rest);
    FlattenAppend(Responses(net, first), Responses(net, rest));
    var r := Responses(net, first);
    assert Flatten(r[1..][1..][1..]) == [];
    assert Flatten(r[1..][1..]) == r[2];
    assert Flatten(r[1..]) == r[1] + r[2];
  }

  /** A merge over a concatenation of source lists is the concatenation of the merges. */
  lemma {:induction false} MergedAppend(net: Network, s1: seq<string>, s2: seq<string>, kind: string, id: string, nextEpisode: string, nextSeason: string)
    ensures Merged(net, s1 + s2, kind, id, nextEpisode, nextSeason)
         == Merged(net, s1, kind, id, nextEpisode, nextSeason) + Merged(net, s2, kind, id, nextEpisode, nextSeason)
    decreases |s1|
  {
    if s1 == [] {
      assert s1 + s2 == s2;
    } else {
      assert (s1 + s2)[0] == s1[0] && (s1 + s2)[1..] == s1[1..] + s2;
      MergedBySource(net, s1 + s2, kind, id, nextEpisode, nextSeason);
      MergedBySource(net, s1, kind, id, nextEpisode, nextSeason);
      MergedAppend(net, s1[1..], s2, kind, id, nextEpisode, nextSeason);
    }
  }

  /** A stream is in the merged list exactly when some source returned it for one of the
      three ids. */
  lemma MergedMembership(net: Network, sources: seq<string>, kind: string, id: string, nextEpisode: string, nextSeason: string, x: Stream)
    ensures x in Merged(net, sources, kind, id, nextEpisode, nextSeason) <==>
            exists i :: 0 <= i < |sources| &&
              (x in Fetch(net, sources[i], kind, id) || x in Fetch(net, sources[i], kind, nextEpisode) || x in Fetch(net, sources[i], kind, nextSeason))
  {
    var urls := RequestUrls(sources, kind, id, nextEpisode, nextSeason);
    var rs := Responses(net, urls);
    FlattenMembership(rs, x);
    if x in Merged(net, sources, kind, id, nextEpisode, nextSeason) {
      var k :| 0 <= k < |rs| && x in rs[k];
      var i, j := k / 3, k % 3;
      assert k == 3 * i + j;
      RequestUrlsAt(sources, kind, id, nextEpisode, nextSeason, i);
    }
    if exists i :: 0 <= i < |sources| &&
         (x in Fetch(net, sources[i], kind, id) || x in Fetch(net, sources[i], kind, nextEpisode) || x in Fetch(net, sources[i], kind, nextSeason)) {
      var i :| 0 <= i < |sources| &&
         (x in Fetch(net, sources[i], kind, id) || x in Fetch(net, sources[i], kind, nextEpisode) || x in Fetch(net, sources[i], kind, nextSeason));
      RequestUrlsAt(sources, kind, id, nextEpisode, nextSeason, i);
      if x in Fetch(net, sources[i], kind, id) {
        assert x in rs[3 * i];
      } else if x in Fetch(net, sources[i], kind, nextEpisode) {
        assert x in rs[3 * i + 1];
      } else {
        assert x in rs[3 * i + 2];
      }
    }
  }
}

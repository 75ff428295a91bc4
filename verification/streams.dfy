/** A stream object as the providers return it and as the cache stores it. */
module Streams {
  import opened Wrappers

  /** `url` and `title` may be absent; `cached` is absent until the affinity step sets it;
      every other property of the provider's object (name, infoHash, hints, ...) is kept
      untouched in `extra`. */
  datatype Stream = Stream(url: Option<string>, title: Option<string>, cached: Option<bool>, extra: map<string, string>)

  /** `field || ""`: a missing field reads as the empty string. */
  function OrEmpty(field: Option<string>): string
  {
    match field
    case Some(v) => v
    case None => ""
  }

  /** The dedup key `${stream.url || ""}-${stream.title || ""}`. */
  function Key(s: Stream): string
  {
    OrEmpty(s.url) + "-" + OrEmpty(s.title)
  }

  /** The keys of all elements of `xs`. */
  function KeySet(xs: seq<Stream>): set<string>
  {
    set i | 0 <= i < |xs| :: Key(xs[i])
  }

  lemma KeySetSnoc(xs: seq<Stream>, x: Stream)
    ensures KeySet(xs + [x]) == KeySet(xs) + {Key(x)}
  {
    var ys := xs + [x];
    forall k | k in KeySet(xs) ensures k in KeySet(ys) {
      var i :| 0 <= i < |xs| && Key(xs[i]) == k;
      assert ys[i] == xs[i];
    }
    assert ys[|xs|] == x;
  }

  /** The key is injective on streams whose urls contain no '-': the key then determines
      url and title (each up to "missing counts as empty"). */
  lemma KeyDeterminesFieldsWithoutDash(a: Stream, b: Stream)
    requires '-' !in OrEmpty(a.url) && '-' !in OrEmpty(b.url)
    requires Key(a) == Key(b)
    ensures OrEmpty(a.url) == OrEmpty(b.url) && OrEmpty(a.title) == OrEmpty(b.title)
  {
    var ua, ub := OrEmpty(a.url), OrEmpty(b.url);
    // the first '-' of each key sits right after its url
    assert Key(a)[|ua|] == '-' && Key(b)[|ub|] == '-';
    assert forall i :: 0 <= i < |ua| ==> Key(a)[i] == ua[i] != '-';
    assert forall i :: 0 <= i < |ub| ==> Key(b)[i] == ub[i] != '-';
    assert |ua| == |ub|;
    assert Key(a)[..|ua|] == ua && Key(b)[..|ub|] == ub;
    assert Key(a)[|ua| + 1..] == OrEmpty(a.title);
    assert Key(b)[|ub| + 1..] == OrEmpty(b.title);
  }

  /** Symmetrically, the key is injective on streams whose titles contain no '-': the last
      '-' of the key is then the separator. */
  lemma KeyDeterminesFieldsWithoutDashInTitle(a: Stream, b: Stream)
    requires '-' !in OrEmpty(a.title) && '-' !in OrEmpty(b.title)
    requires Key(a) == Key(b)
    ensures OrEmpty(a.url) == OrEmpty(b.url) && OrEmpty(a.title) == OrEmpty(b.title)
  {
    var ta, tb := OrEmpty(a.title), OrEmpty(b.title);
    var k := Key(a);
    var na, nb := |k| - |ta| - 1, |k| - |tb| - 1;
    // the last '-' of the key sits right before its title
    assert k[na] == '-' && k[nb] == '-';
    assert forall i :: na < i < |k| ==> k[i] == ta[i - na - 1] != '-';
    assert forall i :: nb < i < |k| ==> k[i] == tb[i - nb - 1] != '-';
    assert na == nb;
    assert k[na + 1..] == ta && k[nb + 1..] == tb;
    assert k[..na] == OrEmpty(a.url) && k[..nb] == OrEmpty(b.url);
  }

  /** Because the key is a plain concatenation, two streams whose (url, title) pairs differ
      can share a key when a '-' moves between the fields. */
  lemma KeyCollision(extra: map<string, string>)
    ensures var a := Stream(Some("a-b"), Some("c"), None, extra);
            var b := Stream(Some("a"), Some("b-c"), None, extra);
            a.url != b.url && a.title != b.title && Key(a) == Key(b)
  {
  }
}

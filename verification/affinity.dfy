/** `processStreams`: every stream is tagged with a `cached` flag; a magnet stream that the
    affinity resolver knows is rewritten to the resolver's direct url. */
module Affinity {
  import opened Wrappers
  import opened Text
  import opened Streams

  /** The affinity resolver (`getCachedStreamUrl`): a direct url for a magnet url, or nothing. */
  type Resolver = string -> Option<string>

  /** JavaScript truthiness of an optional string: present and not empty. */
  predicate Truthy(v: Option<string>)
  {
    v.Some? && v.value != ""
  }

  /** `stream.url && stream.url.includes("magnet:")` */
  predicate IsMagnet(s: Stream)
  {
    Truthy(s.url) && Contains(s.url.value, "magnet:")
  }

  /** The callback of the `map` for one stream. */
  function ProcessOne(resolve: Resolver, s: Stream): (r: Stream)
    ensures r.cached.Some?
    ensures r.title == s.title && r.extra == s.extra
    ensures r.cached == Some(true) <==> IsMagnet(s) && Truthy(resolve(s.url.value))
    ensures r.cached == Some(true) ==> r.url == resolve(s.url.value)
    ensures r.cached == Some(false) ==> r.url == s.url
  {
    if IsMagnet(s) && Truthy(resolve(s.url.value)) then
      s.(url := resolve(s.url.value), cached := Some(true))
    else
      s.(cached := Some(false))
  }

  /** `Promise.all(streams.map(...))`: the same callback applied to every stream, in order. */
  function ProcessStreams(resolve: Resolver, xs: seq<Stream>): (r: seq<Stream>)
    ensures |r| == |xs|
    ensures forall i :: 0 <= i < |xs| ==> r[i] == ProcessOne(resolve, xs[i])
    decreases |xs|
  {
    if xs == [] then [] else [ProcessOne(resolve, xs[0])] + ProcessStreams(resolve, xs[1..])
  }

  /** Processing keeps length and order and gives every stream a boolean `cached`; a stream
      that is not a magnet keeps its url and is marked not cached. */
  lemma ProcessStreamsTags(resolve: Resolver, xs: seq<Stream>)
    ensures forall i :: 0 <= i < |xs| ==>
              ProcessStreams(resolve, xs)[i].cached.Some? &&
              ProcessStreams(resolve, xs)[i].title == xs[i].title &&
              (!IsMagnet(xs[i]) ==> ProcessStreams(resolve, xs)[i] == xs[i].(cached := Some(false)))
  {
  }

  /** Processing distributes over concatenation: the flag of one stream does not depend on
      the others. */
  lemma {:induction false} ProcessStreamsAppend(resolve: Resolver, xs: seq<Stream>, ys: seq<Stream>)
    ensures ProcessStreams(resolve, xs + ys) == ProcessStreams(resolve, xs) + ProcessStreams(resolve, ys)
  {
    var l, r := ProcessStreams(resolve, xs + ys), ProcessStreams(resolve, xs) + ProcessStreams(resolve, ys);
    assert |l| == |r|;
    forall i | 0 <= i < |l| ensures l[i] == r[i] {
      if i < |xs| {
        assert (xs + ys)[i] == xs[i];
      } else {
        assert (xs + ys)[i] == ys[i - |xs|];
      }
    }
  }

  /** On a cache hit the stored, already processed streams are processed again. A stream
      whose url was rewritten to a direct url without "magnet:" is then no longer a magnet,
      so it comes back with `cached == false`. */
  lemma ReprocessingDropsResolvedFlag(resolve: Resolver, s: Stream)
    requires IsMagnet(s) && Truthy(resolve(s.url.value))
    requires !Contains(resolve(s.url.value).value, "magnet:")
    ensures ProcessOne(resolve, s).cached == Some(true)
    ensures ProcessOne(resolve, ProcessOne(resolve, s)).cached == Some(false)
    ensures ProcessOne(resolve, ProcessOne(resolve, s)).url == resolve(s.url.value)
  {
  }
}

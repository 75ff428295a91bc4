/** The stream handler: a read-through cache over the two tables, with provider fan-out and
    adjacent-id population on a miss and frequency-triggered eviction, under two schedules of
    the eviction relative to the lookup. */
module Handler {
  import opened Wrappers
  import opened Streams
  import opened ContentIds
  import opened Deduplication
  import opened Affinity
  import opened Ordering
  import opened FanOut
  import opened Tables

  /** The deployment's configuration, fixed at start-up: provider base urls in order, the
      ordering policy, and the eviction threshold. */
  datatype Config = Config(sources: seq<string>, randomize: bool, threshold: int)

  /** What a miss stores under all three ids: the merged provider results, deduplicated and
      processed, in pre-sort order. */
  function MissPayload(cfg: Config, net: Network, resolve: Resolver, kind: string, id: string): seq<Stream>
  {
    ProcessStreams(resolve, Dedup(Merged(net, cfg.sources, kind, id, NextEpisodeId(id), NextSeasonId(id))))
  }

  /** The three upserts of a miss, in the order the handler awaits them. */
  function StoreMiss(rows: Rows, kind: string, id: string, payload: seq<Stream>, now: int): Rows
  {
    var withId := Upsert(rows, kind, id, payload, now);
    var withEpisode := Upsert(withId, kind, NextEpisodeId(id), payload, now);
    Upsert(withEpisode, kind, NextSeasonId(id), payload, now)
  }

  /** After a miss the same list can be read back under the requested id and both adjacent
      ids, and no other row has changed. */
  lemma StoreMissRows(rows: Rows, kind: string, id: string, payload: seq<Stream>, now: int)
    ensures Lookup(StoreMiss(rows, kind, id, payload, now), kind, id) == Some(payload)
    ensures Lookup(StoreMiss(rows, kind, id, payload, now), kind, NextEpisodeId(id)) == Some(payload)
    ensures Lookup(StoreMiss(rows, kind, id, payload, now), kind, NextSeasonId(id)) == Some(payload)
    ensures StoreMiss(rows, kind, id, payload, now).Keys == rows.Keys + {id, NextEpisodeId(id), NextSeasonId(id)}
    ensures forall k :: k in rows && k != id && k != NextEpisodeId(id) && k != NextSeasonId(id) ==>
              StoreMiss(rows, kind, id, payload, now)[k] == rows[k]
  {
    var ep, sn := NextEpisodeId(id), NextSeasonId(id);
    var m1 := Upsert(rows, kind, id, payload, now);
    var m2 := Upsert(m1, kind, ep, payload, now);
    LookupAfterUpsert(rows, kind, id, payload, now, kind, ep);
    LookupAfterUpsert(m1, kind, ep, payload, now, kind, id);
    LookupAfterUpsert(m2, kind, sn, payload, now, kind, id);
    LookupAfterUpsert(m2, kind, sn, payload, now, kind, ep);
  }

  /** A miss on `<t>:<s>:<e>` fills `<t>:<s>:<e+1>` and `<t>:<s+1>:1` with the same list. */
  lemma MissPopulatesAdjacentEpisodes(rows: Rows, kind: string, t: string, s: int, e: int, payload: seq<Stream>, now: int)
    requires ':' !in t
    ensures Lookup(StoreMiss(rows, kind, EpisodeId(t, s, e), payload, now), kind, EpisodeId(t, s, e + 1)) == Some(payload)
    ensures Lookup(StoreMiss(rows, kind, EpisodeId(t, s, e), payload, now), kind, EpisodeId(t, s + 1, 1)) == Some(payload)
  {
    AdjacentOfEpisode(t, s, e);
    StoreMissRows(rows, kind, EpisodeId(t, s, e), payload, now);
  }

  /** The ordering step: a shuffle, or the in-place stable sort on a fresh array. */
  method Arrange(randomize: bool, processed: seq<Stream>, draws: seq<nat>) returns (arranged: seq<Stream>)
    ensures arranged == Order(randomize, processed, draws)
  {
    if randomize {
      arranged := Shuffle(processed, draws);
    } else {
      var a := new Stream[|processed|](i requires 0 <= i < |processed| => processed[i]);
      assert a[..] == processed;
      SortCachedFirst(a);
      arranged := a[..];
    }
  }

  /** The two tables, as the database holds them. */
  class StreamStore {
    var rows: Rows
    var log: seq<LogEntry>

    /** A fresh database file: both tables start empty. */
    constructor ()
      ensures rows == map[] && log == []
    {
      rows := map[];
      log := [];
    }

    /** An existing database file: `CREATE TABLE IF NOT EXISTS` keeps every row it holds. */
    constructor Open(cached: Rows, requests: seq<LogEntry>)
      ensures rows == cached && log == requests
    {
      rows := cached;
      log := requests;
    }

    /** `checkCache` */
    method CheckCache(kind: string, id: string) returns (found: Option<seq<Stream>>)
      ensures found == Lookup(rows, kind, id)
    {
      if id in rows && rows[id].kind == kind {
        found := Some(rows[id].streams);
      } else {
        found := None;
      }
    }

    /** `storeCache` */
    method StoreCache(kind: string, id: string, streams: seq<Stream>, now: int)
      modifies this
      ensures rows == Upsert(old(rows), kind, id, streams, now)
      ensures log == old(log)
    {
      rows := rows[id := Row(kind, streams, now)];
    }

    /** `logRequest` */
    method LogRequest(titleId: string, now: int)
      modifies this
      ensures log == old(log) + [LogEntry(titleId, now)]
      ensures rows == old(rows)
    {
      log := log + [LogEntry(titleId, now)];
    }

    /** `checkAndDelete`: the frequency gate, the existence check, the type-dependent delete,
        then the purge of the title's log rows. Nothing changes when the gate stays shut. */
    method CheckAndDelete(kind: string, id: string, now: int, threshold: int)
      modifies this
      ensures EvictionFires(old(rows), old(log), id, now, threshold) ==>
                rows == EvictRows(old(rows), kind, id) && log == Purge(old(log), TitleId(id))
      ensures !EvictionFires(old(rows), old(log), id, now, threshold) ==>
                rows == old(rows) && log == old(log)
    {
      var imdbId := TitleId(id);
      var oneHourAgo := now - WindowMs;
      if RecentCount(log, imdbId, oneHourAgo) >= threshold {
        if id in rows {
          if kind == "series" {
            rows := DeleteId(rows, id);
          } else {
            rows := DeleteContaining(rows, imdbId);
          }
          log := Purge(log, imdbId);
        }
      }
    }

    /** What the handler does with the lookup's answer: on a hit reprocess and order the
        stored list; on a miss fetch, deduplicate, process, store under the three ids and
        order. The log is not touched. */
    method Respond(cfg: Config, kind: string, id: string, cachedResult: Option<seq<Stream>>, now: int,
                   net: Network, resolve: Resolver, draws: seq<nat>)
      returns (out: seq<Stream>)
      modifies this
      ensures log == old(log)
      ensures cachedResult.Some? ==>
                rows == old(rows) && out == Order(cfg.randomize, ProcessStreams(resolve, cachedResult.value), draws)
      ensures cachedResult.None? ==>
                rows == StoreMiss(old(rows), kind, id, MissPayload(cfg, net, resolve, kind, id), now) &&
                out == Order(cfg.randomize, MissPayload(cfg, net, resolve, kind, id), draws)
    {
      if cachedResult.Some? {
        var processed := ProcessStreams(resolve, cachedResult.value);
        out := Arrange(cfg.randomize, processed, draws);
      } else {
        var nextEpisodeId := NextEpisodeId(id);
        var nextSeasonId := NextSeasonId(id);
        var allStreams := Merged(net, cfg.sources, kind, id, nextEpisodeId, nextSeasonId);
        var deduplicated := DedupStreams(allStreams);
        var processed := ProcessStreams(resolve, deduplicated);
        StoreCache(kind, id, processed, now);
        StoreCache(kind, nextEpisodeId, processed, now);
        StoreCache(kind, nextSeasonId, processed, now);
        out := Arrange(cfg.randomize, processed, draws);
      }
    }

    /** The awaited part of the handler: the lookup, then the response to it. */
    method Serve(cfg: Config, kind: string, id: string, now: int, net: Network, resolve: Resolver, draws: seq<nat>)
      returns (out: seq<Stream>)
      modifies this
      ensures log == old(log)
      ensures Lookup(old(rows), kind, id).Some? ==>
                rows == old(rows) &&
                out == Order(cfg.randomize, ProcessStreams(resolve, Lookup(old(rows), kind, id).value), draws)
      ensures Lookup(old(rows), kind, id).None? ==>
                rows == StoreMiss(old(rows), kind, id, MissPayload(cfg, net, resolve, kind, id), now) &&
                out == Order(cfg.randomize, MissPayload(cfg, net, resolve, kind, id), draws)
    {
      var cachedResult := CheckCache(kind, id);
      out := Respond(cfg, kind, id, cachedResult, now, net, resolve, draws);
    }

    /** The whole handler, with the eviction completing before the lookup: log the request,
        run the eviction check, serve. */
    method Handle(cfg: Config, kind: string, id: string, now: int, net: Network, resolve: Resolver, draws: seq<nat>)
      returns (out: seq<Stream>)
      modifies this
      ensures var logged := old(log) + [LogEntry(TitleId(id), now)];
              var fires := EvictionFires(old(rows), logged, id, now, cfg.threshold);
              var checked := if fires then EvictRows(old(rows), kind, id) else old(rows);
              && log == (if fires then Purge(logged, TitleId(id)) else logged)
              && (Lookup(checked, kind, id).Some? ==>
                    rows == checked &&
                    out == Order(cfg.randomize, ProcessStreams(resolve, Lookup(checked, kind, id).value), draws))
              && (Lookup(checked, kind, id).None? ==>
                    rows == StoreMiss(checked, kind, id, MissPayload(cfg, net, resolve, kind, id), now) &&
                    out == Order(cfg.randomize, MissPayload(cfg, net, resolve, kind, id), draws))
    {
      var imdbId := TitleId(id);
      LogRequest(imdbId, now);
      CheckAndDelete(kind, id, now, cfg.threshold);
      out := Serve(cfg, kind, id, now, net, resolve, draws);
    }

    /** The whole handler in the order the database ordinarily runs its statements: the log
        insert, the frequency query and the lookup are queued in the same turn, the eviction's
        deletes only after two callbacks, and a miss's stores only after the network answers.
        So the lookup sees the cache as it was before the request, and the eviction runs on
        that cache before the miss's stores. */
    method HandleLookupFirst(cfg: Config, kind: string, id: string, now: int, net: Network, resolve: Resolver, draws: seq<nat>)
      returns (out: seq<Stream>)
      modifies this
      ensures var logged := old(log) + [LogEntry(TitleId(id), now)];
              var fires := EvictionFires(old(rows), logged, id, now, cfg.threshold);
              var checked := if fires then EvictRows(old(rows), kind, id) else old(rows);
              && log == (if fires then Purge(logged, TitleId(id)) else logged)
              && (Lookup(old(rows), kind, id).Some? ==>
                    rows == checked &&
                    out == Order(cfg.randomize, ProcessStreams(resolve, Lookup(old(rows), kind, id).value), draws))
              && (Lookup(old(rows), kind, id).None? ==>
                    rows == StoreMiss(checked, kind, id, MissPayload(cfg, net, resolve, kind, id), now) &&
                    out == Order(cfg.randomize, MissPayload(cfg, net, resolve, kind, id), draws))
    {
      var imdbId := TitleId(id);
      LogRequest(imdbId, now);
      var cachedResult := CheckCache(kind, id);
      CheckAndDelete(kind, id, now, cfg.threshold);
      out := Respond(cfg, kind, id, cachedResult, now, net, resolve, draws);
    }
  }

  /** Two requests for the same id on an empty store, below the eviction threshold: the first
      misses and returns the ordered fetched list; the second hits and returns that list
      reprocessed and ordered, whatever the network would now answer. */
  method MissThenHit(cfg: Config, kind: string, id: string, first: int, second: int,
                     net: Network, later: Network, resolve: Resolver, draws: seq<nat>)
    returns (firstOut: seq<Stream>, secondOut: seq<Stream>)
    requires cfg.threshold > 2
    ensures firstOut == Order(cfg.randomize, MissPayload(cfg, net, resolve, kind, id), draws)
    ensures secondOut == Order(cfg.randomize, ProcessStreams(resolve, MissPayload(cfg, net, resolve, kind, id)), draws)
  {
    var store := new StreamStore();
    firstOut := store.Handle(cfg, kind, id, first, net, resolve, draws);
    StoreMissRows(map[], kind, id, MissPayload(cfg, net, resolve, kind, id), first);
    assert |store.log| == 1;
    secondOut := store.Handle(cfg, kind, id, second, later, resolve, draws);
  }

  /** The same two requests under the ordinary schedule, for any threshold: the second
      request is served from the stored row even when it trips the eviction, which then
      removes the row, so only a third request would miss. */
  method MissThenHitLookupFirst(cfg: Config, kind: string, id: string, first: int, second: int,
                                net: Network, later: Network, resolve: Resolver, draws: seq<nat>)
    returns (firstOut: seq<Stream>, secondOut: seq<Stream>)
    ensures firstOut == Order(cfg.randomize, MissPayload(cfg, net, resolve, kind, id), draws)
    ensures secondOut == Order(cfg.randomize, ProcessStreams(resolve, MissPayload(cfg, net, resolve, kind, id)), draws)
  {
    var store := new StreamStore();
    firstOut := store.HandleLookupFirst(cfg, kind, id, first, net, resolve, draws);
    StoreMissRows(map[], kind, id, MissPayload(cfg, net, resolve, kind, id), first);
    secondOut := store.HandleLookupFirst(cfg, kind, id, second, later, resolve, draws);
  }
}

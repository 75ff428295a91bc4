/** The two persisted tables as values: `stream_cache` as a map from id to row (the id is the
    primary key) and `request_log` as the sequence of its rows in insertion order, with the
    queries and deletes the handler runs on them. */
module Tables {
  import opened Wrappers
  import opened Text
  import opened Streams
  import opened ContentIds

  /** A `stream_cache` row without its key: type, streams, write time. */
  datatype Row = Row(kind: string, streams: seq<Stream>, timestamp: int)

  /** A `request_log` row. */
  datatype LogEntry = LogEntry(titleId: string, timestamp: int)

  type Rows = map<string, Row>

  /** The frequency window: one hour in milliseconds. */
  const WindowMs: int := 60 * 60 * 1000

  // ---------------------------------------------------------------------------------------
  // stream_cache
  // ---------------------------------------------------------------------------------------

  /** `SELECT * FROM stream_cache WHERE id = ? AND type = ?`: the stored streams when the row
      for `id` exists and was stored with this type. */
  function Lookup(rows: Rows, kind: string, id: string): (r: Option<seq<Stream>>)
  {
    if id in rows && rows[id].kind == kind then Some(rows[id].streams) else None
  }

  /** `INSERT OR REPLACE INTO stream_cache (id, type, streams, timestamp)` */
  function Upsert(rows: Rows, kind: string, id: string, streams: seq<Stream>, now: int): Rows
  {
    rows[id := Row(kind, streams, now)]
  }

  /** A put replaces the row for `id` whatever its type, a get with the same type then returns
      exactly the stored list, a get with another type finds nothing, and other ids are
      untouched. */
  lemma LookupAfterUpsert(rows: Rows, kind: string, id: string, streams: seq<Stream>, now: int, otherKind: string, otherId: string)
    ensures Upsert(rows, kind, id, streams, now).Keys == rows.Keys + {id}
    ensures Lookup(Upsert(rows, kind, id, streams, now), kind, id) == Some(streams)
    ensures otherKind != kind ==> Lookup(Upsert(rows, kind, id, streams, now), otherKind, id) == None
    ensures otherId != id ==> Lookup(Upsert(rows, kind, id, streams, now), otherKind, otherId) == Lookup(rows, otherKind, otherId)
  {
  }

  /** `DELETE FROM stream_cache WHERE id = ?` */
  function DeleteId(rows: Rows, id: string): Rows
  {
    rows - {id}
  }

  /** `DELETE FROM stream_cache WHERE id LIKE '%fragment%'`, read as a case-sensitive substring test. */
  function DeleteContaining(rows: Rows, fragment: string): Rows
  {
    map k | k in rows && !Contains(k, fragment) :: rows[k]
  }

  /** The eviction of `checkAndDelete`: only the requested row for a series, every row whose
      id contains the title id otherwise. */
  function EvictRows(rows: Rows, kind: string, id: string): Rows
  {
    if kind == "series" then DeleteId(rows, id) else DeleteContaining(rows, TitleId(id))
  }

  /** A series eviction removes exactly the requested id. */
  lemma EvictSeriesExact(rows: Rows, id: string)
    ensures forall k :: k in EvictRows(rows, "series", id) <==> k in rows && k != id
    ensures forall k :: k in EvictRows(rows, "series", id) ==> EvictRows(rows, "series", id)[k] == rows[k]
  {
  }

  /** Any other eviction removes exactly the ids that contain the title id. */
  lemma EvictByTitle(rows: Rows, kind: string, id: string)
    requires kind != "series"
    ensures forall k :: k in EvictRows(rows, kind, id) <==> k in rows && !Contains(k, TitleId(id))
    ensures forall k :: k in EvictRows(rows, kind, id) ==> EvictRows(rows, kind, id)[k] == rows[k]
  {
  }

  /** Whatever the type, an eviction removes the requested id, so a get right after it
      finds nothing. */
  lemma EvictRemovesRequested(rows: Rows, kind: string, id: string, anyKind: string)
    ensures id !in EvictRows(rows, kind, id)
    ensures Lookup(EvictRows(rows, kind, id), anyKind, id) == None
  {
    PrefixIsContained(id, TitleId(id));
  }

  /** A non-series eviction also removes the rows stored under the adjacent ids, which share
      the title id; a series eviction keeps them. */
  lemma EvictAndAdjacentRows(rows: Rows, kind: string, id: string)
    ensures kind != "series" ==> NextEpisodeId(id) !in EvictRows(rows, kind, id)
    ensures kind != "series" ==> NextSeasonId(id) !in EvictRows(rows, kind, id)
    ensures kind == "series" && NextEpisodeId(id) in rows && NextEpisodeId(id) != id ==>
              EvictRows(rows, kind, id)[NextEpisodeId(id)] == rows[NextEpisodeId(id)]
  {
    var t := TitleId(id);
    var ep, sn := NextEpisodeId(id), NextSeasonId(id);
    assert ep[..|t|] == (t + ":")[..|t|] == t;
    assert sn[..|t|] == (t + ":")[..|t|] == t;
    PrefixIsContained(ep, t);
    PrefixIsContained(sn, t);
  }

  // ---------------------------------------------------------------------------------------
  // request_log
  // ---------------------------------------------------------------------------------------

  /** `SELECT * FROM request_log WHERE imdb_id = ? AND timestamp >= ?`, counted. */
  function RecentCount(log: seq<LogEntry>, titleId: string, since: int): (n: nat)
    ensures n <= |log|
    decreases |log|
  {
    if log == [] then 0
    else
      var e := log[|log| - 1];
      RecentCount(log[..|log| - 1], titleId, since) + (if e.titleId == titleId && e.timestamp >= since then 1 else 0)
  }

  /** `DELETE FROM request_log WHERE imdb_id = ?` */
  function Purge(log: seq<LogEntry>, titleId: string): seq<LogEntry>
    decreases |log|
  {
    if log == [] then []
    else
      var e := log[|log| - 1];
      Purge(log[..|log| - 1], titleId) + (if e.titleId == titleId then [] else [e])
  }

  /** Purging removes exactly the title's rows and keeps every other row. */
  lemma {:induction false} PurgeMembership(log: seq<LogEntry>, titleId: string, e: LogEntry)
    ensures e in Purge(log, titleId) <==> e in log && e.titleId != titleId
    decreases |log|
  {
    if log != [] {
      PurgeMembership(log[..|log| - 1], titleId, e);
      assert log == log[..|log| - 1] + [log[|log| - 1]];
    }
  }

  /** After a purge the title has no recent requests, and other titles keep their counts. */
  lemma {:induction false} PurgeCounts(log: seq<LogEntry>, titleId: string, other: string, since: int)
    ensures RecentCount(Purge(log, titleId), titleId, since) == 0
    ensures other != titleId ==> RecentCount(Purge(log, titleId), other, since) == RecentCount(log, other, since)
    decreases |log|
  {
    if log != [] {
      var init, e := log[..|log| - 1], log[|log| - 1];
      PurgeCounts(init, titleId, other, since);
      var p := Purge(init, titleId);
      if e.titleId != titleId {
        assert (p + [e])[..|p + [e]| - 1] == p;
      } else {
        assert p + [] == p;
      }
    }
  }

  /** The eviction gate: at least `threshold` requests for the title in the last hour, and a
      cache row with exactly this id, of any type. */
  predicate EvictionFires(rows: Rows, log: seq<LogEntry>, id: string, now: int, threshold: int)
  {
    RecentCount(log, TitleId(id), now - WindowMs) >= threshold && id in rows
  }

  /** Four requests within the hour stay under a threshold of five, a fifth within the hour
      reaches it, and a fifth more than an hour after the others does not. */
  lemma FrequencyThreshold(t: string, now: int)
    ensures var four := [LogEntry(t, now), LogEntry(t, now), LogEntry(t, now), LogEntry(t, now)];
            && RecentCount(four, t, now - WindowMs) < 5
            && RecentCount(four + [LogEntry(t, now)], t, now - WindowMs) >= 5
            && RecentCount(four + [LogEntry(t, now + WindowMs + 1)], t, now + 1) < 5
  {
    var e := LogEntry(t, now);
    var four := [e, e, e, e];
    assert four[..3] == [e, e, e] && [e, e, e][..2] == [e, e] && [e, e][..1] == [e] && [e][..0] == [];
    assert RecentCount([e], t, now - WindowMs) == 1 && RecentCount([e], t, now + 1) == 0;
    assert RecentCount([e, e], t, now - WindowMs) == 2 && RecentCount([e, e], t, now + 1) == 0;
    assert RecentCount([e, e, e], t, now - WindowMs) == 3 && RecentCount([e, e, e], t, now + 1) == 0;
    assert RecentCount(four, t, now - WindowMs) == 4 && RecentCount(four, t, now + 1) == 0;
    assert (four + [e])[..4] == four;
    assert (four + [LogEntry(t, now + WindowMs + 1)])[..4] == four;
  }
}

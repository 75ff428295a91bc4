# Stream cache add-on: a Dafny model

This project models the core of `index.js`, a Stremio add-on that sits in front of several
upstream stream providers. For each `(type, id)` request the stream handler does these steps:

1. It logs the request under the id's title id (`id.split(':')[0]`).
2. It runs a frequency check. If the title was requested at least `DELETION_THRESHOLD` times in the
   last hour and the id has a cache row, it evicts cached rows and clears the title's log:
   - for a series it deletes only the exact id;
   - for anything else it deletes every id containing the title id.
3. It looks the id up in the `stream_cache` table.
   - **Hit:** the stored list goes through `processStreams` again and is ordered.
   - **Miss:**
     - The handler derives the next-episode and next-season ids.
     - It asks every provider for all three ids, source-major, and flattens the answers.
     - It deduplicates them on the key `url-title`, keeping the first of each key, and runs
       them through `processStreams`.
     - It stores the result under all three ids and returns it ordered.

`processStreams` tags every stream with a boolean `cached`. A magnet url that the affinity resolver
knows is replaced by the resolver's url. The ordering is either a stable sort that puts cached
streams first, or a random shuffle.

Modules, in dependency order:

- `Wrappers`: `Option`.
- `Text`: substring containment, used for `includes` and for `LIKE '%…%'`.
- `ContentIds`: splitting on `:`, the title id, JavaScript `Number` on id pieces, and the adjacent
  ids (including the `undefined`/`NaN` strings a movie id produces).
- `Streams`: the stream record and its dedup key.
- `Deduplication`:
  - the reference definition `Dedup`;
  - the source's one-pass loop with a `seen` set (`DedupStreams`), proved equal to it.
- `Affinity`: `processStreams` over an abstract resolver.
- `Ordering`:
  - the cached-first stable order as a function;
  - the in-place sort on an array, proved against it;
  - the shuffle, driven by a sequence of random draws.
- `FanOut`: request urls, request order and the flattened merge.
- `Tables`: the `stream_cache` table as a map from id to row and `request_log` as a sequence,
  with the handler's queries and deletes.
- `Handler`:
  - the class `StreamStore`, whose two fields are the two tables and whose methods are
    `checkCache`, `storeCache`, `logRequest` and `checkAndDelete`;
  - the handler itself under two schedules. In `Handle` the eviction completes before the
    lookup. In `HandleLookupFirst` the lookup sees the cache as it was before the request, which
    is the order the database ordinarily runs the statements in;
  - the miss payload, and two-request clients (`MissThenHit`, `MissThenHitLookupFirst`).

Two behaviours of the code that the model keeps:

- **Adjacent ids for movies.** For a movie id the handler still computes, fetches and stores both
  adjacent ids. For a movie id `t` these are `t:undefined:NaN` and `t:NaN:1`
  (`ContentIds.AdjacentOfMovie`).
- **Eviction window.** The frequency window has only a lower bound (`timestamp >= now - 1h`).

Facts about the code that the model establishes:

- **Dedup key collisions.** The dedup key is a plain concatenation, so two streams with different
  `(url, title)` pairs can collide (`Streams.KeyCollision`, `Deduplication.DedupDropsCollidingPair`). It is
  injective when no url contains `-` (`Streams.KeyDeterminesFieldsWithoutDash`), and likewise
  when no title does (`Streams.KeyDeterminesFieldsWithoutDashInTitle`).
- **Flag lost on a hit.** On a hit, already-processed streams are processed again. A stream whose
  magnet url was replaced by a direct url is then no longer a magnet and comes back with
  `cached == false` (`Affinity.ReprocessingDropsResolvedFlag`).

## Model

| member | source | states |
|---|---|---|
| ContentIds.Split | index.js:138 | `split(':')` returns at least one piece, every piece is colon-free, and joining the pieces with ':' gives back the id |
| ContentIds.SplitJoin | index.js:138 | splitting undoes joining colon-free pieces |
| ContentIds.TitleId | index.js:138 | the title id is colon-free and a prefix of the id; it is the whole id when there is no colon, otherwise a colon follows it |
| ContentIds.TitleIdOf | index.js:190 | for a colon-free `t`, the title id of `t:rest` is `t` whatever `rest` is |
| ContentIds.IntToString | index.js:214-215 | the printed integer contains no ':' |
| ContentIds.DecimalRoundTrip | index.js:213 | reading back the decimal digits of a natural number gives that number |
| ContentIds.NumberRoundTrip | index.js:213-215 | `Number` of a printed integer is that integer |
| ContentIds.NextEpisodeId | index.js:214 | the next-episode id starts with the title id followed by ':' |
| ContentIds.NextSeasonId | index.js:215 | the next-season id starts with the title id followed by ':' |
| ContentIds.AdjacentIdsShareTitle | index.js:213-215 | both adjacent ids have the requested id's title id |
| ContentIds.SplitEpisodeId | index.js:213 | `t:s:e` splits into `[t, s, e]` |
| ContentIds.AdjacentOfEpisode | index.js:213-215 | for `t:s:e` the adjacent ids are `t:s:e+1` and `t:s+1:1` |
| ContentIds.AdjacentOfMovie | index.js:213-215 | for a colon-free id the adjacent ids are `id:undefined:NaN` and `id:NaN:1` |
| ContentIds.AdjacentOfSeasonOnly | index.js:213-215 | for `t:s` the adjacent ids are `t:s:NaN` and `t:s+1:1` |
| ContentIds.ToNumber | index.js:213 | definition of `Number` on an id piece; properties in `NumberRoundTrip` and `AdjacentOfInfiniteSeason` |
| ContentIds.Show | index.js:214-215 | definition of template-literal printing; properties in `NumberRoundTrip`, `AdjacentOfMovie` and `AdjacentOfInfiniteSeason` |
| ContentIds.PlusOne | index.js:214-215 | definition of `+ 1` on a JavaScript value; properties in `AdjacentOfEpisode`, `AdjacentOfSeasonOnly` and `AdjacentOfInfiniteSeason` |
| ContentIds.Piece | index.js:213 | definition of the destructured season and episode; properties in `AdjacentOfEpisode` and `AdjacentOfMovie` |
| ContentIds.SplitThree | index.js:213 | three colon-free pieces joined with ':' split back into those pieces |
| ContentIds.AdjacentOfInfiniteSeason | index.js:213-215 | a season written "Infinity", "+Infinity" or "-Infinity" is printed back as `Infinity` or `-Infinity` in both adjacent ids, and the episode still moves on by one |
| Text.ContainsIffOccurs | index.js:111 | `includes` holds exactly when the fragment occurs at some position |
| Streams.Key | index.js:231 | definition of the dedup key; properties in `KeyDeterminesFieldsWithoutDash` and `KeyCollision` |
| Streams.KeyDeterminesFieldsWithoutDash | index.js:231 | when neither url contains '-', equal keys mean equal url and title (missing read as empty) |
| Streams.KeyDeterminesFieldsWithoutDashInTitle | index.js:231 | when neither title contains '-', equal keys mean equal url and title (missing read as empty) |
| Streams.KeyCollision | index.js:231 | two streams whose url and title both differ can have the same key |
| Deduplication.Dedup | index.js:229-235 | reference definition of the dedup filter; properties in `DedupKeys`, `DedupSubsequence`, `DedupKeepsFirst`, `DedupOfUnique` and `DedupIdempotent` |
| Deduplication.DedupStreams | index.js:229-235 | the one-pass filter with a `seen` set computes exactly `Dedup` of its input |
| Deduplication.DedupKeys | index.js:229-235 | the output has exactly the input's keys, each of them once |
| Deduplication.DedupSubsequence | index.js:229-235 | the output is the input with elements deleted, order kept |
| Deduplication.DedupKeepsFirst | index.js:229-235 | every kept element is the first input element with its key |
| Deduplication.DedupOfUnique | index.js:229-235 | a list whose keys are distinct is unchanged |
| Deduplication.DedupIdempotent | index.js:229-235 | deduplicating twice equals deduplicating once |
| Deduplication.DedupDropsCollidingPair | index.js:229-235 | of two colliding streams with different url and title only the first is kept |
| Affinity.IsMagnet | index.js:111 | definition of the magnet test; properties in `ProcessOne` |
| Affinity.ProcessOne | index.js:110-118 | the result always has a boolean `cached`; title and other fields are kept; `cached` is true iff the url is a truthy string containing "magnet:" and the resolver gives a truthy url; then the url is the resolver's, otherwise it is unchanged |
| Affinity.ProcessStreams | index.js:108-120 | same length, and each output element is the callback applied to the input element at the same index |
| Affinity.ProcessStreamsTags | index.js:108-120 | every output element has a boolean flag and the input's title; a non-magnet stream comes out as itself with `cached == false` |
| Affinity.ProcessStreamsAppend | index.js:108-120 | processing distributes over concatenation |
| Affinity.ReprocessingDropsResolvedFlag | index.js:197-201 | a resolved magnet stream is flagged cached once, and on a hit it is reprocessed to `cached == false` with the resolved url kept |
| Ordering.CachedFirst | index.js:206 | definition of the stable cached-first order; properties in `CachedFirstPermutation`, `CachedFirstOrdered`, `CachedFirstStable` and `StableSortUnique` |
| Ordering.CachedFirstPermutation | index.js:206 | the cached-first order is a permutation of its input |
| Ordering.CachedFirstOrdered | index.js:206 | in the cached-first order no non-cached stream precedes a cached one |
| Ordering.CachedFirstStable | index.js:206 | within the cached and the non-cached groups the input order is kept |
| Ordering.StableSortUnique | index.js:206 | any cached-first list whose two groups equal the input's groups in input order is the cached-first order of the input |
| Ordering.SortCachedFirst | index.js:206 | the in-place sort leaves the array holding the cached-first order of its old contents |
| Ordering.Shuffle | index.js:205 | definition of the random order driven by draws; properties in `ShufflePermutation` |
| Ordering.ShufflePermutation | index.js:205 | whatever the random draws, the shuffle is a permutation of its input |
| Ordering.Order | index.js:204-206 | definition of the ordering policy; properties in `OrderProperties` |
| Ordering.OrderProperties | index.js:204-206 | either policy gives a permutation; with randomisation off the result is cached-first and stable |
| FanOut.FetchUrl | index.js:66 | definition of the request url; properties in `FetchUrlInjective` and `RequestUrlsAt` |
| FanOut.Fetch | index.js:65-74 | definition of one provider call as the network function at its url; properties in `MergedBySource` and `MergedMembership` |
| FanOut.FetchUrlInjective | index.js:66 | with source and type fixed, different ids go to different urls |
| FanOut.RequestUrls | index.js:217-221 | three requests per source |
| FanOut.RequestUrlsAt | index.js:217-221 | request `3i`, `3i+1`, `3i+2` goes to source `i` for the id, the next episode and the next season |
| FanOut.Responses | index.js:223 | `Promise.all` keeps request order: response `i` is the answer to url `i` |
| FanOut.Flatten | index.js:226 | definition of `flat()`; properties in `FlattenAppend` and `FlattenMembership` |
| FanOut.FlattenAppend | index.js:226 | flattening distributes over concatenation |
| FanOut.FlattenMembership | index.js:226 | a stream is in the flattened list iff it is in one of the responses |
| FanOut.Merged | index.js:217-226 | definition of the merged provider results; properties in `MergedBySource`, `MergedAppend` and `MergedMembership` |
| FanOut.MergedBySource | index.js:217-226 | the merge is source-major: the first source's three answers, then the merge of the remaining sources |
| FanOut.MergedAppend | index.js:217-226 | merging over concatenated source lists concatenates the merges |
| FanOut.MergedMembership | index.js:217-226 | a stream is in the merge iff some source returned it for one of the three ids |
| Tables.Lookup | index.js:79 | definition of the `id = ? AND type = ?` query; properties in `LookupAfterUpsert` and `EvictRemovesRequested` |
| Tables.Upsert | index.js:94 | definition of `INSERT OR REPLACE`; properties in `LookupAfterUpsert` |
| Tables.LookupAfterUpsert | index.js:79-94 | after a put, a get with the same type returns the stored list, a get with another type finds nothing, other ids are unaffected, and the id set grows by the id |
| Tables.DeleteId | index.js:156 | definition of the exact delete; properties in `EvictSeriesExact` |
| Tables.DeleteContaining | index.js:169 | definition of the `LIKE '%t%'` delete; properties in `EvictByTitle` |
| Tables.EvictRows | index.js:154-169 | definition of the type-dependent eviction; properties in `EvictSeriesExact`, `EvictByTitle`, `EvictRemovesRequested` and `EvictAndAdjacentRows` |
| Tables.EvictSeriesExact | index.js:154-156 | a series eviction removes exactly the requested id and keeps every other row unchanged |
| Tables.EvictByTitle | index.js:167-169 | any other eviction removes exactly the ids containing the title id and keeps every other row unchanged |
| Tables.EvictRemovesRequested | index.js:149-169 | after an eviction the requested id is gone, so a get finds nothing |
| Tables.EvictAndAdjacentRows | index.js:154-169 | a non-series eviction also removes both adjacent ids' rows; a series eviction keeps the next-episode row |
| Tables.RecentCount | index.js:141-143 | the number of recent requests is at most the log's length |
| Tables.Purge | index.js:161 | definition of the log delete; properties in `PurgeMembership` and `PurgeCounts` |
| Tables.PurgeMembership | index.js:161 | a log row survives the purge iff it belongs to another title |
| Tables.PurgeCounts | index.js:161 | after a purge the title has no recent requests and other titles keep their counts |
| Tables.EvictionFires | index.js:147-152 | definition of the eviction gate; properties in `FrequencyThreshold` and `StreamStore.CheckAndDelete` |
| Tables.FrequencyThreshold | index.js:137-147 | four requests in the hour stay under a threshold of five, a fifth within the hour reaches it, a fifth more than an hour later does not |
| Handler.MissPayload | index.js:226-238 | definition of the list a miss stores; properties in `MergedMembership`, `DedupKeys` and `ProcessStreams` |
| Handler.StoreMiss | index.js:241-243 | definition of the three puts of a miss; properties in `StoreMissRows` |
| Handler.StoreMissRows | index.js:240-243 | after a miss's three puts the list can be read back under the id and both adjacent ids; the id set grows by those three, every other row is unchanged |
| Handler.MissPopulatesAdjacentEpisodes | index.js:213-243 | a miss on `t:s:e` fills `t:s:e+1` and `t:s+1:1` with the same list |
| Handler.Arrange | index.js:204-206 | the ordering step (shuffle, or in-place sort on a fresh array) returns the configured order of the processed list |
| Handler.StreamStore.constructor | index.js:38-62 | a fresh database file: both tables start empty |
| Handler.StreamStore.Open | index.js:38-62 | an existing database file: both tables hold exactly the rows already in it |
| Handler.StreamStore.CheckCache | index.js:77-87 | returns `Lookup` of the cache: a list iff the id has a row stored with this type, and then that row's list |
| Handler.StreamStore.StoreCache | index.js:90-105 | the cache table gets the row for the id replaced or inserted; the log is unchanged |
| Handler.StreamStore.LogRequest | index.js:123-134 | appends one log row for the title at the current time; the cache is unchanged |
| Handler.StreamStore.CheckAndDelete | index.js:137-186 | if the title has at least `threshold` requests since an hour ago and the id has a row, the type-dependent eviction and the log purge happen; otherwise nothing changes |
| Handler.StreamStore.Respond | index.js:197-251 | hit: the cache is unchanged and the result is the looked-up list reprocessed and ordered; miss: the three puts of the miss payload happen and the result is that payload ordered; the log is unchanged in both |
| Handler.StreamStore.Serve | index.js:194-251 | hit: the cache is unchanged and the result is the stored list reprocessed and ordered; miss: the three puts of the miss payload happen and the result is that payload ordered; the log is unchanged in both |
| Handler.StreamStore.Handle | index.js:189-251 | the whole request with the eviction completing first: logged, then evicted if the gate fires (judged on the log that includes this request), then served as in `Serve` from the post-eviction cache |
| Handler.StreamStore.HandleLookupFirst | index.js:189-251 | the whole request in the ordinary statement order: logged; the answer comes from the cache as it was before the request; the eviction (judged on the log that includes this request) applies to that cache, and a miss's three puts come after it |
| Handler.MissThenHit | index.js:189-251 | on an empty store with a threshold above two, a first request misses and returns the ordered fetched payload; a second request for the same id hits and returns that payload reprocessed and ordered, whatever the network answers by then |
| Handler.MissThenHitLookupFirst | index.js:189-251 | under the ordinary statement order and for any threshold, the first request on an empty store misses and returns the ordered fetched payload, and the second hits with that payload reprocessed and ordered, even when it trips the eviction |

## Left out

- The add-on SDK, the manifest, `serveHTTP` and the port are outside the model.
- Environment parsing is outside the model. The source list, `RANDOMIZE_STREAMS` and the threshold arrive in `Handler.Config`.
  - The threshold is taken as given. `parseInt(...) || 5` never yields 0, but the model accepts any integer.
  - `TIMEOUT_MS` is not modelled.
- SQLite I/O is modelled as in-memory tables:
  - database errors, the rejected promises of `checkCache`/`storeCache`, and the log-only error branches of `logRequest`/`checkAndDelete` are not modelled;
  - the JSON encoding of stored streams is assumed to round-trip.
- Tables.DeleteContaining: `LIKE '%t%'` is modelled as a case-sensitive substring test. SQLite's `LIKE` ignores ASCII case, and `%`/`_` inside the title id act as wildcards.
- FanOut.Fetch: the network is a function from url to the `streams` of the response, with `[]` for any error, timeout or missing field. Axios, the timeout and concurrency are not modelled.
- Affinity.ProcessOne: the resolver `getCachedStreamUrl` is not defined anywhere in the source. It is a parameter of the model, so the failure of calling an undefined function is not modelled.
- Ordering.Shuffle: `sort(() => Math.random() - 0.5)` is modelled as a permutation chosen by a sequence of random draws. The distribution and the engine's sort algorithm are not modelled; only the permutation property is claimed.
- Handler.StreamStore.Handle: in the source, `logRequest` and `checkAndDelete` are not awaited and race with `checkCache`. The model gives two schedules.
  - `Handle` lets the eviction finish before the lookup. That is not the usual order. Under it, the request that trips the gate on its own row misses, refetches and stores again.
  - `HandleLookupFirst` follows the usual order: the insert, the frequency query and the lookup are queued in one turn, and the deletes come two callbacks later. The request that trips the gate is served the stored row, and only the next request misses.
  - Other interleavings are not modelled, for example a miss's stores landing before the eviction's deletes when the providers answer faster than the database.
- Handler.StreamStore.Handle: one `now` stands for every `Date.now()` call within one request.
- ContentIds.ToNumber: `Number` is modelled on these forms of an id piece: "" gives 0, an optionally signed "Infinity" gives an infinity, optionally signed decimal digits give the integer. Every other string is taken as NaN, which is wrong for some of them:
  - surrounding whitespace, which `Number` trims;
  - fractions and exponents (`1.5`, `1e3`), which give other numbers;
  - the prefixed literals `0x…`, `0b…` and `0o…`, which give their hexadecimal, binary or octal value.
  - Integers are unbounded, so the 2^53 precision limit of JavaScript numbers is not modelled.
- Streams.Stream: the provider objects' other properties are an uninterpreted string map. Non-string `url` or `title` values are not modelled.
- Logging to the console is not modelled.
- Handler.StreamStore.constructor: models a fresh `streams.db`. Persistence across restarts is modelled only as a store opened on given tables (`StreamStore.Open`), not as a file. Only this constructor and the `MissThenHit`/`MissThenHitLookupFirst` clients assume a fresh file; every method contract holds from any state.

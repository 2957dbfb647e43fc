# Ceph cache tiering and gateway start-up, modelled in Dafny

This project models three parts of Ceph:

- **The per-placement-group tiering agent state** (`src/osd/TierAgentState.h`):
  its flush and evict modes, their names, idleness, and the temperature of
  an object. The temperature is the number of archived hit sets that
  contain the object.
- **The core of the RADOS gateway process** (`src/rgw/rgw_main.cc`):
  - the front-end configuration (`RGWFrontendConfig::parse_config`, `init` and
    both `get_val` lookups);
  - the FIFO request queue behind the worker queue (`RGWWQ::_enqueue`,
    `_dequeue`, `_empty`);
  - the 64-bit request-id counter of `RGWProcess::run`;
  - the fixed stage order of `process_request`: each stage may abort the
    request, and execute and complete run only when all stages pass;
  - the front-end start-up of `main`. With no front end configured it starts
    fastcgi. It initialises one configuration per entry and stops with
    `EINVAL` at the first failure. It fills a `multimap` keyed by framework
    name, then walks it in key order and starts FastCGI, mongoose (port from
    `port`, default 80) or nothing.
- **The librados cache-tiering tests** (`src/test/librados/tier.cc`):
  - A `Cluster` class holds the two pools of a test, the tier configuration
    (tier, overlay, writeback mode), the user-version counter, the snapshot
    sequence and the hit-set archive.
  - Each librados request is a method of the class. Its postcondition ties
    the new state to a pure transition function (`ReadStep`, `OperateStep`,
    `FlushStep`, `EvictStep`, ...).
  - The transition functions carry the semantics the tests exercise:
    - the overlay redirects base-pool requests to the cache;
    - a miss in a writeback cache promotes a clean copy, or records a whiteout
      when the object is absent;
    - writes mark the head dirty and clone it under a newer snapshot context;
    - remove leaves a dirty whiteout in a cache tier;
    - flush writes a dirty revision back (or deletes it for a whiteout) and
      marks it clean;
    - evict drops a clean revision only, and never a head while one of its
      clones is cached.
  - Each of the tests Dirty, Overlay, Promote, PromoteSnap, Whiteout, Evict,
    EvictSnap, TryFlush, Flush and HitSetNone is one method. It replays the
    test's requests in order, and its postcondition states the values the
    test asserts.

The OSD code behind the tiering requests is not part of this model. The
behaviour modelled is the one the tests observe. Where a test does not pin a
case down, the model chooses:

- flush or evict on a pool that is not an active cache tier returns `-EINVAL`;
- a snapshot read falls back to the head only when the head was last written
  before that snapshot;
- a listing returns the names of all heads, whiteouts included, and is never
  redirected.

Three further choices:

- **Head eviction.** `EvictStep` refuses to evict a head while a clone of it
  is cached, as the EvictSnap test (tier.cc:819-831) expects with `-EBUSY`.
- **Integer `get_val`.** It returns the C++ conversion of `0` / `-EINVAL`
  (see Findings).
- **Promotion never overwrites.** A miss promotes only into a key the cache
  does not hold. A cached head or whiteout is never replaced by the base
  pool's copy, so no read undoes a dirty write or a removal. A snapshot
  read behind a newer cached head copies the base head in as that
  snapshot's clone, and a cached whiteout older than the snapshot stops the
  promotion.

The calls into code outside the source are parameters:

- `get_str_list`: the tokens, or the front-end entries, are given.
- `parse_key_value` and `strict_strtol`: passed in as functions.

## Model

| member | source | states |
|---|---|---|
| TierAgentState.FlushModeName | src/osd/TierAgentState.h:34-40 | the name is "idle" exactly for FLUSH_MODE_IDLE and "active" exactly for FLUSH_MODE_ACTIVE |
| TierAgentState.EvictModeName | src/osd/TierAgentState.h:50-57 | the name is "idle", "some" or "full" exactly for the matching evict mode |
| TierAgentState.CurrentFlushModeName | src/osd/TierAgentState.h:41-43 | the member getter names the agent's current flush mode, in both directions |
| TierAgentState.CurrentEvictModeName | src/osd/TierAgentState.h:58-60 | the member getter names the agent's current evict mode, in both directions |
| TierAgentState.NewAgentState | src/osd/TierAgentState.h:62-65 | a new agent starts with both modes idle, no hit sets, no recent clean objects, an empty histogram and the default position |
| TierAgentState.IsIdle | src/osd/TierAgentState.h:67-72 | idle exactly when both mode names are "idle"; an active flush mode or a some/full evict mode means work to do |
| TierAgentState.NewAgentStateIsIdle | src/osd/TierAgentState.h:62-72 | a freshly constructed agent has no work to do |
| TierAgentState.Temperature | src/osd/TierAgentState.h:74-81 | the temperature never exceeds the number of archived hit sets |
| TierAgentState.TemperatureCountsHits | src/osd/TierAgentState.h:78 | the temperature is exactly the number of positions of hit sets that contain the object |
| TierAgentState.TemperatureAppend | src/osd/TierAgentState.h:24-25 | sealing a new hit set into the archive raises the temperature by one exactly when that set holds the object |
| TierAgentState.TemperatureTrimOldest | src/osd/TierAgentState.h:24-25 | trimming the oldest hit set lowers the temperature by one exactly when that set held the object |
| TierAgentState.TemperatureFull | src/osd/TierAgentState.h:78 | the temperature equals the archive length iff every archived hit set holds the object |
| TierAgentState.EstimateTemperature | src/osd/TierAgentState.h:74-81 | the agent's estimate is bounded by its hit-set count and is zero iff no past hit set holds the object |
| FrontendConfig.EntryOf | src/rgw/rgw_main.cc:597-611 | a token without '=' sets itself to ""; a `key=val` token yields a setting exactly when parse_key_value succeeds |
| FrontendConfig.ParseTokens | src/rgw/rgw_main.cc:580-615 | the loop returns 0 or a negative code, and never replaces a framework already known |
| FrontendConfig.FirstTokenIsFramework | src/rgw/rgw_main.cc:591-595 | the first token of a fresh configuration becomes the framework and adds no setting |
| FrontendConfig.ParseSucceedsIff | src/rgw/rgw_main.cc:597-614 | once the framework is known, parsing returns 0 iff every token parses |
| FrontendConfig.ParseStopsAtFirstError | src/rgw/rgw_main.cc:604-608 | a failing parse returns the code parse_key_value gave for the first bad token |
| FrontendConfig.UntouchedKey | src/rgw/rgw_main.cc:586-612 | a key no token sets keeps its presence and value |
| FrontendConfig.LastSettingWins | src/rgw/rgw_main.cc:598-611 | the last token that sets a key decides its value |
| FrontendConfig.Config.constructor | src/rgw/rgw_main.cc:136 | a configuration starts with its text, no settings and no framework |
| FrontendConfig.Config.ParseConfig | src/rgw/rgw_main.cc:580-615 | the loop leaves the return code, framework and settings the token loop defines, updating them in place also on failure; the text is unchanged |
| FrontendConfig.Config.Init | src/rgw/rgw_main.cc:137-142 | init returns parse_config's negative code, or 0, with the state parse_config leaves |
| FrontendConfig.Config.GetVal | src/rgw/rgw_main.cc:618-628 | found iff the key is set; the stored value when found, the default otherwise |
| FrontendConfig.Config.GetIntVal | src/rgw/rgw_main.cc:631-646 | as written: false and the default for a missing key; otherwise the converted value, and true exactly when conversion reported an error |
| FrontendConfig.Config.GetIntValIntended | src/rgw/rgw_main.cc:631-646 | corrected: true iff the key is set and converts without error; the converted value, or the default for a missing key |
| FrontendConfig.Config.Framework | src/rgw/rgw_main.cc:146 | get_framework returns the parsed framework |
| FrontendConfig.IntLookupReportsFalseOnSuccess | src/rgw/rgw_main.cc:631-646 | for `mongoose port=8080` the written lookup returns false with port 8080 while the corrected one returns true |
| RgwProcess.IdAfter | src/rgw/rgw_main.cc:294 | without wrap-around the id after i increments is start + i (the counter wraps at 2^64) |
| RgwProcess.IdsStrictlyIncrease | src/rgw/rgw_main.cc:292-294 | without wrap-around, later requests get strictly larger ids |
| RgwProcess.Allocated | src/rgw/rgw_main.cc:292-306 | the k queued requests carry the ids start+1, ..., start+k in order |
| RgwProcess.Process.Enqueue | src/rgw/rgw_main.cc:178-184 | _enqueue appends the request at the back and succeeds |
| RgwProcess.Process.Dequeue | src/rgw/rgw_main.cc:191-200 | _dequeue gives nothing on an empty queue, else removes and returns the front |
| RgwProcess.Process.IsEmpty | src/rgw/rgw_main.cc:188-190 | _empty iff the queue has no request |
| RgwProcess.Process.AllocateRequest | src/rgw/rgw_main.cc:293-294 | the counter is pre-incremented and the new request carries the new value |
| RgwProcess.Process.RunLoop | src/rgw/rgw_main.cc:292-307 | after `accepted` accepts and one failing accept, the queue gained exactly the requests numbered in order and the counter advanced by accepted + 1 |
| RgwProcess.QueueIsFifo | src/rgw/rgw_main.cc:178-200 | two queued requests come out in order, then nothing, and the queue is empty |
| RequestPipeline.ProcessRequest | src/rgw/rgw_main.cc:377-496 | one to nine stages run; execute runs iff nothing aborted, and then after all nine stages, returning verify_params' value; the op is logged iff the manager asks and a handler was found; a stage error carries a non-zero code |
| RequestPipeline.RunFrom | src/rgw/rgw_main.cc:402-475 | the reference run executes iff it does not abort, and then all nine stages ran |
| RequestPipeline.RunExecutesIffAllPass | src/rgw/rgw_main.cc:402-475 | the reference run executes iff every remaining stage passes |
| RequestPipeline.RunAbortsAtFirstFailure | src/rgw/rgw_main.cc:402-468 | an aborted reference run stops at its first failing stage, with that stage's error |
| RequestPipeline.StagesRunArePrefix | src/rgw/rgw_main.cc:377-476 | the stages process_request runs are always a non-empty prefix of the stage order |
| RequestPipeline.ProcessRequestMatchesRun | src/rgw/rgw_main.cc:377-496 | process_request stops where the reference run stops, with the same abort, execution and return value |
| RequestPipeline.ProcessRequestFollowsStageOrder | src/rgw/rgw_main.cc:377-496 | process_request is the reference run of the stage order, and logs iff the manager asks for logging and a handler was found |
| RequestPipeline.ExecutesIffEveryStagePasses | src/rgw/rgw_main.cc:402-475 | execute and complete run iff every check passes, a failing permission check being overridden for system requests |
| RequestPipeline.AbortIsFirstFailure | src/rgw/rgw_main.cc:402-468 | an aborted request was aborted by its first failing stage and no later stage ran |
| RequestPipeline.HandlerErrorIsNotLogged | src/rgw/rgw_main.cc:402-406 | a handler error aborts at once with that error, is not logged and returns 0 |
| RequestPipeline.MissingOpIsMethodNotAllowed | src/rgw/rgw_main.cc:411-415 | no op means ERR_METHOD_NOT_ALLOWED before authorisation, with return value 0 |
| RequestPipeline.SuspendedUserIsRefused | src/rgw/rgw_main.cc:426-430 | a suspended user is refused with ERR_USER_SUSPENDED after authorisation, returning authorize's value |
| RequestPipeline.PermissionFailureIgnoredOnlyForSystem | src/rgw/rgw_main.cc:452-468 | a failing verify_permission aborts unless the request is a system request, which goes on to verify_params |
| Frontends.LexLeRefl | src/rgw/rgw_main.cc:880 | the std::string order is reflexive |
| Frontends.LexLeTotal | src/rgw/rgw_main.cc:880 | the std::string order is total |
| Frontends.LexLeAntisym | src/rgw/rgw_main.cc:880 | the std::string order is antisymmetric |
| Frontends.LexLeTrans | src/rgw/rgw_main.cc:880 | the std::string order is transitive |
| Frontends.UpperBound | src/rgw/rgw_main.cc:898 | the insertion point follows every key not greater than the new one and precedes the first greater one |
| Frontends.Insert | src/rgw/rgw_main.cc:898 | multimap::insert places the new entry at the upper bound of its key, growing the multimap by one |
| Frontends.InsertSorted | src/rgw/rgw_main.cc:898 | multimap::insert keeps the entries sorted by key |
| Frontends.InsertAdds | src/rgw/rgw_main.cc:898 | multimap::insert adds exactly the one entry |
| Frontends.BuildMap | src/rgw/rgw_main.cc:885-899 | the multimap holds one entry per configuration |
| Frontends.BuildMapSortedPermutation | src/rgw/rgw_main.cc:885-899 | the multimap holds exactly the inserted entries, sorted by framework |
| Frontends.BuildMapStable | src/rgw/rgw_main.cc:885-899 | entries under one framework stay in insertion order |
| Frontends.DefaultFrontends | src/rgw/rgw_main.cc:882-884 | an empty list becomes fastcgi alone; otherwise the list is kept |
| Frontends.Keyed | src/rgw/rgw_main.cc:885-899 | entry i is keyed by the framework of configuration i |
| Frontends.Dispatch | src/rgw/rgw_main.cc:904-923 | a front end starts iff the framework is fastcgi, fcgi or mongoose, and under that framework |
| Frontends.PortOf | src/rgw/rgw_main.cc:913-915 | the mongoose port is the parsed `port` setting, or 80 when it is unset |
| Frontends.DispatchEntry | src/rgw/rgw_main.cc:904-923 | an entry starts a front end iff its configuration's framework is fastcgi, fcgi or mongoose, and that front end carries the configuration and its framework |
| Frontends.DispatchAll | src/rgw/rgw_main.cc:903-928 | the walk starts at most one front end per entry, each of framework fastcgi, fcgi or mongoose |
| Frontends.BuildMapIndices | src/rgw/rgw_main.cc:885-899 | every multimap entry points at a configuration, keyed by that configuration's framework |
| Frontends.DispatchAllFrom | src/rgw/rgw_main.cc:903-928 | every started front end comes from a walked entry |
| Frontends.DispatchAllHas | src/rgw/rgw_main.cc:903-928 | every walked entry with a known framework starts its front end |
| Frontends.DispatchAllSorted | src/rgw/rgw_main.cc:903-928 | walking a key-sorted multimap starts front ends in framework order |
| Frontends.SameFrameworkInConfigOrder | src/rgw/rgw_main.cc:880-899 | configurations with the same framework are walked in configuration order |
| Frontends.StartedBound | src/rgw/rgw_main.cc:874-928 | main starts no more front ends than there are configurations |
| Frontends.Started | src/rgw/rgw_main.cc:874-928 | main starts at most one front end per configuration, each of a known framework |
| Frontends.StartedInFrameworkOrder | src/rgw/rgw_main.cc:903-928 | main starts its front ends in framework-name order |
| Frontends.StartedExactlyKnown | src/rgw/rgw_main.cc:903-928 | a front end is started iff some configuration dispatches to it; unknown frameworks are skipped |
| Frontends.DefaultStartsFastcgi | src/rgw/rgw_main.cc:882-925 | with nothing configured, exactly one FastCGI front end starts |
| Frontends.InitConfigs | src/rgw/rgw_main.cc:885-899 | the loop succeeds iff every configuration initialises, and then holds each parsed configuration and the filled multimap |
| Frontends.StartEntries | src/rgw/rgw_main.cc:903-928 | the second loop starts exactly the front ends of the multimap walk |
| Frontends.StartFrontends | src/rgw/rgw_main.cc:874-928 | main returns EINVAL with nothing started iff some configuration fails, else starts the front ends of the defaulted list |
| TierStore.ReadRange | src/test/librados/tier.cc:139-148 | a read returns the bytes from the offset, of the requested length or to the end, and nothing past the end |
| TierStore.Splice | src/test/librados/tier.cc:563 | a write places its bytes at the offset, zero-filling a gap and keeping the bytes around it |
| TierStore.Resize | src/test/librados/tier.cc:78-82 | truncate keeps the first `size` bytes, or zero-extends |
| TierStore.Route | src/test/librados/tier.cc:138-163 | a base-pool request goes to the cache exactly under the overlay without IGNORE_OVERLAY; cache-pool requests stay |
| TierStore.Resolve | src/test/librados/tier.cc:364-394 | a head request addresses the head exactly when it exists; a snapshot request addresses that snapshot's clone when present, otherwise the head when it is live and was last written before the snapshot, otherwise nothing |
| TierStore.Promote | src/test/librados/tier.cc:220-231 | promotion changes only the cache, keeps every cached entry unchanged, and adds only revisions of the requested object |
| TierStore.Prepare | src/test/librados/tier.cc:220-231 | the store a request sees differs only in its cache, keeps every cached entry, and is unchanged outside a writeback tier or when the cache already resolves the request |
| TierStore.ReadStep | src/test/librados/tier.cc:139-148 | a read changes only the cache and keeps every cached entry; it returns -ENOENT with no bytes, or the count of the bytes read, at most `len` when a length is given |
| TierStore.IsDirtyStep | src/test/librados/tier.cc:50-58 | is_dirty changes only the cache, keeping its entries, and returns 0 or -ENOENT, with clean and version 0 on -ENOENT |
| TierStore.CloneForWrite | src/test/librados/tier.cc:302-331 | a write adds at most the clone for its snapshot context, keeps every other entry, and that clone holds the old head when the head was last written before the context |
| TierStore.PutHead | src/test/librados/tier.cc:40-91 | a data write changes only the serving pool and advances the version; the head then holds the written bytes, dirty, at the new version |
| TierStore.RemoveHead | src/test/librados/tier.cc:464-468 | remove succeeds iff a live head exists, otherwise -ENOENT with nothing changed; a success leaves a dirty whiteout in a cache tier and no head in the base pool |
| TierStore.ApplyWrite | src/test/librados/tier.cc:40-91 | a write op returns 0, -ENOENT (remove only) or -EEXIST (exclusive create only); an error changes nothing; only the serving pool and the version change |
| TierStore.OperateStep | src/test/librados/tier.cc:40-91 | operate returns 0, -ENOENT or -EEXIST, an error leaving only the promotion; through the cache the base pool is untouched; the tier configuration never changes |
| TierStore.FlushStep | src/test/librados/tier.cc:1089-1100 | flush returns 0, -EINVAL or -ENOENT, an error changing nothing; it never adds or drops a cached key, and a success leaves the revision clean |
| TierStore.EvictStep | src/test/librados/tier.cc:577-610 | evict returns 0, -EINVAL, -ENOENT or -EBUSY, an error changing nothing; a success drops exactly one clean cached revision |
| TierStore.ListNames | src/test/librados/tier.cc:233-242 | a name is listed iff the pool holds its head, a whiteout included |
| TierStore.HitSetWindows | src/test/librados/tier.cc:1629-1637 | hit_set_list gives one window per archived hit set, in order |
| TierStore.HitSetAt | src/test/librados/tier.cc:1638-1645 | hit_set_get finds an archived hit set covering the stamp, and none exactly when no window covers it |
| TierStore.EmptyStoreValid | src/test/librados/tier.cc:36-38 | fresh pools satisfy the store invariant |
| TierStore.PrepareValid | src/test/librados/tier.cc:220-231 | promotion keeps the store invariant |
| TierStore.ReadsPreserveValid | src/test/librados/tier.cc:139-148 | reads and is_dirty keep the store invariant |
| TierStore.OperatePreservesValid | src/test/librados/tier.cc:40-91 | every write operation keeps the store invariant |
| TierStore.CacheOpsPreserveValid | src/test/librados/tier.cc:577-610 | flush and evict keep the store invariant |
| TierStore.ReadYourWrite | src/test/librados/tier.cc:483-495 | a read after write_full returns exactly the written bytes at the write's version |
| TierStore.WritesMarkDirty | src/test/librados/tier.cc:45-58 | every successful data write leaves the head dirty at the newest version |
| TierStore.RemoveHidesObject | src/test/librados/tier.cc:464-481 | remove succeeds iff the head exists, otherwise -ENOENT with nothing changed; a read after a successful remove is -ENOENT |
| TierStore.ExclusiveCreate | src/test/librados/tier.cc:45-49 | an exclusive create fails with -EEXIST iff the head exists and changes nothing then; otherwise it succeeds |
| TierStore.UndirtyCleans | src/test/librados/tier.cc:40-77 | undirty always returns 0, leaves an existing head clean with its version, and a second undirty changes nothing |
| TierStore.OverlayWritesLeaveBase | src/test/librados/tier.cc:918-940 | writes through the overlay leave the base pool as it was |
| TierStore.IgnoreOverlayReadsBase | src/test/librados/tier.cc:150-163 | with IGNORE_OVERLAY a base-pool read returns the base pool's own bytes and changes nothing |
| TierStore.ReadMissPromotes | src/test/librados/tier.cc:220-224 | a miss in a writeback cache copies the base revision in clean and returns its bytes and version |
| TierStore.ReadMissRecordsWhiteout | src/test/librados/tier.cc:226-242 | a miss in both pools returns -ENOENT, records a clean whiteout and lists the name in the cache |
| TierStore.ReadsKeepCachedHead | src/test/librados/tier.cc:364-407 | a read at any snapshot leaves a cached head as it was, so a later head read returns what it returned before |
| TierStore.WhiteoutHidesLaterSnapshots | src/test/librados/tier.cc:464-481 | with a cached whiteout older than a snapshot, a read at that snapshot returns -ENOENT and changes nothing |
| TierStore.SnapshotReadBehindCachedHead | src/test/librados/tier.cc:364-371 | a snapshot read behind a newer cached head promotes the base head, clean, as that snapshot's clone and returns its bytes and version |
| TierStore.SnapshotKeepsOldBytes | src/test/librados/tier.cc:302-331 | a write under a newer snapshot context keeps the old bytes readable at that snapshot |
| TierStore.FlushWritesBack | src/test/librados/tier.cc:1089-1120 | a successful flush cleans the revision and puts its bytes in the base pool, or deletes it there for a whiteout, touching no other key |
| TierStore.CacheOpErrors | src/test/librados/tier.cc:589-599 | flush and evict return -EINVAL outside a cache tier and -ENOENT iff the revision is not cached; an error changes nothing |
| TierStore.EvictKeepsDirty | src/test/librados/tier.cc:600-610 | evict never drops a dirty revision or a head with a cached clone, never touches the base pool, and on success removes exactly one revision |
| TierStore.FlushEvictRead | src/test/librados/tier.cc:1089-1145 | after a flush the head can be evicted, and a read then promotes it back with the same bytes and version |
| TierStore.HitSetGetAgreesWithList | src/test/librados/tier.cc:1629-1645 | hit_set_get finds a hit set iff one of the listed windows covers the stamp |
| TierStore.Cluster.constructor | src/test/librados/tier.cc:98-106 | two fresh, untiered, empty pools |
| TierStore.Cluster.TierAdd | src/test/librados/tier.cc:126-129 | `osd tier add` makes the cache pool a tier and changes nothing else |
| TierStore.Cluster.SetOverlay | src/test/librados/tier.cc:130-133 | `osd tier set-overlay` turns the overlay on and changes nothing else |
| TierStore.Cluster.SetCacheModeWriteback | src/test/librados/tier.cc:212-215 | `osd tier cache-mode writeback` turns writeback on and changes nothing else |
| TierStore.Cluster.RemoveOverlay | src/test/librados/tier.cc:166-169 | `osd tier remove-overlay` turns the overlay off and changes nothing else |
| TierStore.Cluster.TierRemove | src/test/librados/tier.cc:170-173 | `osd tier remove` ends the tiering and its cache mode and changes nothing else |
| TierStore.Cluster.SnapCreate | src/test/librados/tier.cc:304 | selfmanaged_snap_create returns the next snapshot id |
| TierStore.Cluster.PrepareFor | src/test/librados/tier.cc:220-231 | the in-place promotion produces the promoted store, so it keeps every cached entry |
| TierStore.Cluster.Read | src/test/librados/tier.cc:139-148 | read updates the pools in place to the promoted store and returns the read's result, bytes and version |
| TierStore.Cluster.IsDirty | src/test/librados/tier.cc:50-58 | is_dirty reports the head's dirty flag and version, or -ENOENT |
| TierStore.Cluster.Operate | src/test/librados/tier.cc:40-91 | operate applies the write in place, with promotion, as the write transition states |
| TierStore.Cluster.ApplyWriteIn | src/test/librados/tier.cc:40-91 | the write op applied in place to the serving pool |
| TierStore.Cluster.UndirtyIn | src/test/librados/tier.cc:59-68 | undirty clears the head's dirty flag in place |
| TierStore.Cluster.RemoveIn | src/test/librados/tier.cc:464-468 | remove in place: a dirty whiteout in a cache tier, a deletion in the base pool |
| TierStore.Cluster.PutHeadIn | src/test/librados/tier.cc:108-122 | a new dirty head in place, cloning the old one under a newer snapshot context |
| TierStore.Cluster.Flush | src/test/librados/tier.cc:1089-1100 | cache_flush in place, as the flush transition states |
| TierStore.Cluster.Evict | src/test/librados/tier.cc:577-610 | cache_evict in place, as the evict transition states |
| TierStore.Cluster.List | src/test/librados/tier.cc:233-242 | the listing is the set of head names of the pool |
| TierStore.Cluster.HitSetList | src/test/librados/tier.cc:1629-1637 | hit_set_list succeeds with the archive's windows |
| TierStore.Cluster.HitSetGet | src/test/librados/tier.cc:1638-1645 | hit_set_get returns 0 with the covering hit set, or -ENOENT when none covers the stamp |
| TierScenarios.AioResult | src/test/librados/tier.cc:156-160 | aio_operate of a read completes with 0 on success, else with the error |
| TierScenarios.ListsExactly | src/test/librados/tier.cc:233-242 | a listing returns exactly the names that are heads in the pool |
| TierScenarios.Dirty | src/test/librados/tier.cc:33-95 | every request returns 0; the object is dirty after create, clean after undirty, dirty after a no-op truncate |
| TierScenarios.Overlay | src/test/librados/tier.cc:97-180 | reads of one byte return 1 and 'c' through the overlay and from the cache, and 'b' with IGNORE_OVERLAY |
| TierScenarios.Promote | src/test/librados/tier.cc:182-259 | the read promotes foo (1 byte), two reads of bar return -ENOENT, and the cache lists exactly foo and bar |
| TierScenarios.WriteFourObjects | src/test/librados/tier.cc:272-300 | four write_fulls of "hi there" succeed |
| TierScenarios.SnapshotAndRewrite | src/test/librados/tier.cc:302-320 | a snapshot, then foo and bar rewritten with "ciao!", cloning the old bytes under snapshot 1 |
| TierScenarios.RemoveAndRewrite | src/test/librados/tier.cc:321-332 | baz removed (its clone kept) and bam rewritten |
| TierScenarios.SnapshotSetUp | src/test/librados/tier.cc:272-350 | the snapshot tests' prefix leaves that base pool and a writeback cache tier over an empty cache |
| TierScenarios.PromoteSnapHeads | src/test/librados/tier.cc:352-371 | reads of the foo and bam heads promote them and return 'c'; the snapshot read of foo promotes its clone and returns 'h' |
| TierScenarios.PromoteSnapClones | src/test/librados/tier.cc:373-394 | snapshot reads of bar and baz promote their clones and return 'h'; the head read of foo is served from the cache and returns 'c' |
| TierScenarios.PromoteSnap | src/test/librados/tier.cc:261-424 | the whole test: every return code and byte it asserts, ending with bar's head promoted and read as 'c' and baz's head -ENOENT |
| TierScenarios.WhiteoutRemovals | src/test/librados/tier.cc:436-467 | after writing foo and setting up the tier, removing foo through the cache succeeds and leaves a dirty whiteout; the first remove of bar, never written, returns -ENOENT and records a clean whiteout |
| TierScenarios.Whiteout | src/test/librados/tier.cc:426-512 | the removes of foo, bar and bar again return 0, -ENOENT and -ENOENT; the cache lists {foo, bar}; a second remove of foo is -ENOENT; after the rewrite a read returns 'h' |
| TierScenarios.EvictPrepare | src/test/librados/tier.cc:525-564 | foo promoted clean, bar read twice as missing and then written dirty |
| TierScenarios.Evict | src/test/librados/tier.cc:514-627 | the listing {foo, bar}; evicting foo 0, a missing object -ENOENT and dirty bar -EBUSY |
| TierScenarios.EvictSnapHeads | src/test/librados/tier.cc:720-755 | the heads of foo and bam read 'c'; bam evicted, then a read ignoring the cache is -ENOENT |
| TierScenarios.EvictSnapFooClone | src/test/librados/tier.cc:757-803 | foo's clone reads 'h' and is evicted; a clone read ignoring the cache is then -ENOENT while the head still reads |
| TierScenarios.EvictSnapBar | src/test/librados/tier.cc:805-831 | bar's head reads 'c' and clone 'h'; evicting the head is -EBUSY |
| TierScenarios.EvictSnapBarAgain | src/test/librados/tier.cc:833-870 | bar's clone evicts, the head reads ignoring the cache, then the head evicts |
| TierScenarios.EvictSnap | src/test/librados/tier.cc:629-887 | the whole test: every return code and byte it asserts |
| TierScenarios.WriteThroughOverlay | src/test/librados/tier.cc:918-951 | a write through the overlay lands dirty in the cache only: the cache lists foo, the base pool nothing |
| TierScenarios.FlushAndEvict | src/test/librados/tier.cc:953-1003 | the flush succeeds, foo is clean and listed in the base pool, then evicts and the cache lists nothing |
| TierScenarios.TryFlush | src/test/librados/tier.cc:889-1020 | the whole test: codes, dirty before and clean after try-flush, and both listings at each point |
| TierScenarios.FlushWhiteout | src/test/librados/tier.cc:1140-1188 | the re-read returns 1 byte at the flushed version; remove, whiteout flush and evict succeed and both pools list nothing |
| TierScenarios.Flush | src/test/librados/tier.cc:1022-1205 | the whole test: codes, dirty then clean, the re-read's version equal to the version before the flush, and both listings |
| TierScenarios.HitSetNone | src/test/librados/tier.cc:1622-1649 | hit_set_list returns 0 with no windows and hit_set_get returns -ENOENT |

## Findings

| source | as written | input that shows it | evidently intended | confidence | as-written member | corrected member |
|---|---|---|---|---|---|---|
| src/rgw/rgw_main.cc:631-646 | the `bool` get_val returns `0` (false) when the value was found and parsed, and `-EINVAL` (true) on a parse error | configuration `mongoose port=8080`, lookup of `port`: value 8080, result false | true exactly when the key was found and parsed, like the string overload | not executed | FrontendConfig.Config.GetIntVal (witness FrontendConfig.IntLookupReportsFalseOnSuccess) | FrontendConfig.Config.GetIntValIntended |

The start-up of `main` models the value actually used. It only reads the port
(rgw_main.cc:915) and never the flag, so `StartEntries` calls the as-written
lookup.

## Left out

- agent_estimate_age: only the temperature is modelled. The access age
  needs the clock and per-object timestamps, and its body is not part of
  this model. It is declared at TierAgentState.h:79-81.
- The tier agent's watermark-based mode selection and its sweep over the
  pool: their code is not part of this model.
- HitSet representations other than the exact object set (hash buckets,
  bloom filters), and hit-set encoding.
- The race tests (FlushWriteRaces, FlushTryFlushRaces, TryFlushReadRace,
  tier.cc:1207-1620) and the outcome of try_flush returning -EBUSY against
  a concurrent operation. Requests here are sequential.
- HitSetRead, HitSetWrite and HitSetTrim (tier.cc:1665-1917). They depend on
  the hit-set period, timers, object hashing and pool configuration.
- mon_command: the JSON commands become the Cluster setter methods, and
  waiting for the latest OSD map is a no-op.
- Pool creation and deletion, ioctx handles, and completions. An
  aio_operate of a read is folded into `AioResult`.
- TierStore.Cluster.HitSetList and TierStore.Cluster.HitSetGet: the
  placement-group hash argument is ignored, because the archive is modelled
  as one list for the pool.
- TierStore.HitSetAt: a hit set's window is taken as closed, `[start, end]`. The OSD lookup is not part of this model, and the tests only query an empty archive.
- TierStore.Cluster.Flush: cache_flush and cache_try_flush share one
  transition. Without concurrency they agree.
- TierStore.Cluster.IsDirty and TierStore.Cluster.Operate: the undirty
  operation does not bump the user version. Version bumps on other
  operations follow the tests' version checks only.
- TierStore.Resolve: a clone answers only a read at its own snapshot id,
  the snapshot context it was cloned under. An older snapshot that the
  clone also covers finds no revision. The tests take a single snapshot, so
  this does not arise there.
- SnapshotKeepsOldBytes: it states the old bytes at the snapshot the write
  was made under, and not at older snapshots the clone also covers, for the
  reason given for TierStore.Resolve.
- TierStore.Promote: a clone promoted into the cache is the base copy made
  clean. The version of the `ABSENT` whiteout is 0.
- TierStore.FlushStep and TierStore.EvictStep never promote, and they act on
  the exact revision named.
- The scenario step methods (WriteNewBase, ReadPromoting, EvictRefused, and
  so on in TierScenarios) are specialisations of the Cluster methods to the
  situations the tests create. They call the Cluster method and add nothing
  to the behaviour.
- Sockets and FastCGI (FCGX_Accept_r, FCGX_InitRequest): the number of
  successful accepts before the failing one is a parameter of `RunLoop`.
- The thread pool, the request throttle, signal handling, curl, logging and
  perf counters.
- The front ends' own `run`, and everything after start-up: the shutdown
  loop and the mongoose and FastCGI front-end classes. src/rgw/rgw_fcgi.cc is
  not part of this model.
- The stages' own work in process_request: handler lookup, authorisation,
  permission checks and op execution are inputs. The numeric values of
  ERR_METHOD_NOT_ALLOWED and ERR_USER_SUSPENDED are not given, so they are
  symbolic abort reasons.
- Other parts of process_request:
  - `expect_cont`/`dump_continue`;
  - the result of `complete_request` (it only logs);
  - `put_op`/`put_handler` and context destruction;
  - the HTTP status.
- get_str_list, parse_key_value and strict_strtol: their results are
  parameters.
- Frontends.LexLe compares Dafny characters, where std::string compares
  bytes as unsigned chars. The two orders agree for ASCII framework names,
  and UTF-8 keeps code-point order.
- The erasure-coded backend (src/osd/ECBackend.cc, src/osd/ECBackend.h): it
  is context and not part of this model.

// The librados cache-tiering tests, each replayed against the cluster model:
// every test method performs the test's requests in order and its
// postcondition states the values the test asserts.
//
// The requests go through the step methods below. Each one calls a single
// Cluster method in one of the situations the tests create and states the
// outcome for that situation, proved from the Cluster method's general
// contract.

module TierScenarios {
  import opened Wrappers
  import opened Objects
  import opened TierStore

  const IgnoreOverlay := OpFlags(true, false, false)
  const IgnoreCache := OpFlags(false, true, false)
  const IgnoreOverlaySkipLocks := OpFlags(true, false, true)

  /** What aio_operate reports for a read operation: 0 on success, else the error. */
  function AioResult(r: int): (a: int)
    ensures r >= 0 ==> a == 0
    ensures r < 0 ==> a == r
  {
    if r < 0 then r else 0
  }

  /** `m` holds a head of `name` that is not a whiteout. */
  predicate LiveHead(m: map<ObjKey, Obj>, name: string)
  {
    ObjectKey(name) in m && !m[ObjectKey(name)].whiteout
  }

  /** A request to `pool` with `flags` is served by the cache pool. */
  predicate ViaCache(overlay: bool, pool: Pool, flags: OpFlags)
  {
    pool == CachePool || (overlay && !flags.ignoreOverlay)
  }

  /** A miss in the cache pool promotes: a writeback cache tier, not told to ignore the cache. */
  predicate PromotesOnMiss(c: Cluster, flags: OpFlags)
    reads c
  {
    c.tiered && c.writeback && !flags.ignoreCache
  }

  /** The tier configuration, the snapshot sequence and the hit sets are as they were. */
  twostate predicate SameSetup(c: Cluster)
    reads c
  {
    && c.tiered == old(c.tiered) && c.overlay == old(c.overlay) && c.writeback == old(c.writeback)
    && c.snapSeq == old(c.snapSeq) && c.hitSetArchive == old(c.hitSetArchive)
  }

  /** Nothing in the cluster changed. */
  twostate predicate Untouched(c: Cluster)
    reads c
  {
    c.base == old(c.base) && c.cache == old(c.cache) && c.lastVersion == old(c.lastVersion) && SameSetup(c)
  }

  // ---- Steps: one request each, in a situation the tests create ----

  /** A data write served by the base pool where the object does not exist: a new dirty head. */
  method WriteNewBase(c: Cluster, name: string, op: WriteOp, snapc: nat, flags: OpFlags) returns (r: int)
    modifies c
    requires op.OpWriteFull? || op.OpWrite? || op.OpTruncate? || op.OpCreate?
    requires !ViaCache(c.overlay, BasePool, flags) && ObjectKey(name) !in c.base
    ensures r == 0
    ensures c.base == old(c.base)[ObjectKey(name) := Obj(NewBytes(op, []), old(c.lastVersion) + 1, snapc, true, false)]
    ensures c.cache == old(c.cache) && c.lastVersion == old(c.lastVersion) + 1 && SameSetup(c)
  {
    r := c.Operate(BasePool, name, op, snapc, flags);
  }

  /**
   * A data write served by the cache pool where it holds no live head, and
   * none is promoted from the base pool: a new dirty head in the cache.
   */
  method WriteNewCached(c: Cluster, pool: Pool, name: string, op: WriteOp, snapc: nat, flags: OpFlags) returns (r: int)
    modifies c
    requires op.OpWriteFull? || op.OpWrite? || op.OpTruncate? || op.OpCreate?
    requires ViaCache(c.overlay, pool, flags) && !LiveHead(c.cache, name)
    requires PromotesOnMiss(c, flags) && ObjectKey(name) !in c.cache ==> ObjectKey(name) !in c.base
    ensures r == 0
    ensures c.cache == old(c.cache)[ObjectKey(name) := Obj(NewBytes(op, []), old(c.lastVersion) + 1, snapc, true, false)]
    ensures c.base == old(c.base) && c.lastVersion == old(c.lastVersion) + 1 && SameSetup(c)
  {
    ghost var s := c.State();
    ghost var hk := ObjectKey(name);
    r := c.Operate(pool, name, op, snapc, flags);
    ghost var m := Prepare(s, pool, name, Head, flags).cache;
    assert m == s.cache || m == s.cache[hk := ABSENT];
    assert m[hk := Obj(NewBytes(op, []), s.lastVersion + 1, snapc, true, false)]
        == s.cache[hk := Obj(NewBytes(op, []), s.lastVersion + 1, snapc, true, false)];
  }

  /** A data write over a live head in an unredirected base pool, cloning it for a newer snapshot context. */
  method OverwriteBase(c: Cluster, name: string, op: WriteOp, snapc: nat) returns (r: int)
    modifies c
    requires op.OpWriteFull? || op.OpWrite? || op.OpTruncate?
    requires !c.overlay && LiveHead(c.base, name)
    ensures r == 0
    ensures var o := old(c.base)[ObjectKey(name)];
            var kept := if snapc > o.writeSeq then old(c.base)[ObjectKey(name, SnapId(snapc)) := o] else old(c.base);
            c.base == kept[ObjectKey(name) := Obj(NewBytes(op, o.data), old(c.lastVersion) + 1, Max(o.writeSeq, snapc), true, false)]
    ensures c.cache == old(c.cache) && c.lastVersion == old(c.lastVersion) + 1 && SameSetup(c)
  {
    r := c.Operate(BasePool, name, op, snapc, NoFlags);
  }

  /** remove of a live head in an unredirected base pool: deleted, after cloning it for a newer snapshot context. */
  method RemoveBase(c: Cluster, name: string, snapc: nat) returns (r: int)
    modifies c
    requires !c.overlay && LiveHead(c.base, name)
    ensures r == 0
    ensures var o := old(c.base)[ObjectKey(name)];
            var kept := if snapc > o.writeSeq then old(c.base)[ObjectKey(name, SnapId(snapc)) := o] else old(c.base);
            c.base == kept - {ObjectKey(name)}
    ensures c.cache == old(c.cache) && c.lastVersion == old(c.lastVersion) + 1 && SameSetup(c)
  {
    r := c.Operate(BasePool, name, OpRemove, snapc, NoFlags);
  }

  /**
   * remove served by the cache tier of a head that is live there, or live in
   * the base pool and promoted first: a dirty whiteout takes its place.
   */
  method RemoveCached(c: Cluster, pool: Pool, name: string, snapc: nat, flags: OpFlags) returns (r: int)
    modifies c
    requires ViaCache(c.overlay, pool, flags) && c.tiered
    requires LiveHead(c.cache, name) || (PromotesOnMiss(c, flags) && ObjectKey(name) !in c.cache && LiveHead(c.base, name))
    requires var o := if ObjectKey(name) in c.cache then c.cache[ObjectKey(name)] else c.base[ObjectKey(name)];
             snapc <= o.writeSeq
    ensures r == 0
    ensures var o := if ObjectKey(name) in old(c.cache) then old(c.cache)[ObjectKey(name)] else old(c.base)[ObjectKey(name)];
            c.cache == old(c.cache)[ObjectKey(name) := Obj([], old(c.lastVersion) + 1, o.writeSeq, true, true)]
    ensures c.base == old(c.base) && c.lastVersion == old(c.lastVersion) + 1 && SameSetup(c)
  {
    ghost var s := c.State();
    ghost var hk := ObjectKey(name);
    r := c.Operate(pool, name, OpRemove, snapc, flags);
    ghost var m := Prepare(s, pool, name, Head, flags).cache;
    ghost var o := m[hk];
    assert m == s.cache || m == s.cache[hk := s.base[hk].(dirty := false)];
    assert m[hk := Obj([], s.lastVersion + 1, o.writeSeq, true, true)]
        == s.cache[hk := Obj([], s.lastVersion + 1, o.writeSeq, true, true)];
  }

  /** remove served by the cache pool where it holds a whiteout: -ENOENT, nothing changed. */
  method RemoveWhiteout(c: Cluster, pool: Pool, name: string, snapc: nat, flags: OpFlags) returns (r: int)
    modifies c
    requires ViaCache(c.overlay, pool, flags)
    requires ObjectKey(name) in c.cache && c.cache[ObjectKey(name)].whiteout
    ensures r == -ENOENT && Untouched(c)
  {
    r := c.Operate(pool, name, OpRemove, snapc, flags);
  }

  /** remove of an object in neither pool, through a writeback cache tier: -ENOENT, and a whiteout recorded. */
  method RemoveAbsent(c: Cluster, pool: Pool, name: string, snapc: nat, flags: OpFlags) returns (r: int)
    modifies c
    requires ViaCache(c.overlay, pool, flags) && PromotesOnMiss(c, flags)
    requires ObjectKey(name) !in c.cache && ObjectKey(name) !in c.base
    ensures r == -ENOENT
    ensures c.cache == old(c.cache)[ObjectKey(name) := ABSENT]
    ensures c.base == old(c.base) && c.lastVersion == old(c.lastVersion) && SameSetup(c)
  {
    r := c.Operate(pool, name, OpRemove, snapc, flags);
  }

  /** undirty in an unredirected base pool: the head, if any, becomes clean. */
  method UndirtyBase(c: Cluster, name: string) returns (r: int)
    modifies c
    requires !c.overlay
    ensures r == 0
    ensures var hk := ObjectKey(name);
            c.base == if hk in old(c.base) then old(c.base)[hk := old(c.base)[hk].(dirty := false)] else old(c.base)
    ensures c.cache == old(c.cache) && c.lastVersion == old(c.lastVersion) && SameSetup(c)
  {
    r := c.Operate(BasePool, name, OpUndirty, 0, NoFlags);
  }

  /** is_dirty of a live head in an unredirected base pool: its flag and version, nothing changed. */
  method IsDirtyBase(c: Cluster, name: string) returns (r: int, dirty: bool, version: nat)
    modifies c
    requires !c.overlay && LiveHead(c.base, name)
    ensures r == 0 && dirty == old(c.base)[ObjectKey(name)].dirty && version == old(c.base)[ObjectKey(name)].version
    ensures Untouched(c)
  {
    r, dirty, version := c.IsDirty(BasePool, name, NoFlags);
  }

  /** is_dirty served by the cache pool of a head live there: its flag and version, nothing changed. */
  method IsDirtyCached(c: Cluster, pool: Pool, name: string, flags: OpFlags) returns (r: int, dirty: bool, version: nat)
    modifies c
    requires ViaCache(c.overlay, pool, flags) && LiveHead(c.cache, name)
    ensures r == 0 && dirty == old(c.cache)[ObjectKey(name)].dirty && version == old(c.cache)[ObjectKey(name)].version
    ensures Untouched(c)
  {
    r, dirty, version := c.IsDirty(pool, name, flags);
  }

  /** A read served by the base pool of a head live there: its bytes, nothing changed. */
  method ReadBase(c: Cluster, name: string, off: nat, len: nat, flags: OpFlags) returns (r: int, bytes: seq<char>, version: nat)
    modifies c
    requires !ViaCache(c.overlay, BasePool, flags) && LiveHead(c.base, name)
    ensures var o := old(c.base)[ObjectKey(name)];
            bytes == ReadRange(o.data, off, len) && r == |bytes| && version == o.version
    ensures Untouched(c)
  {
    r, bytes, version := c.Read(BasePool, name, Head, off, len, flags);
  }

  /** A read served by the cache pool of a head live there: its bytes, nothing changed. */
  method ReadCached(c: Cluster, pool: Pool, name: string, off: nat, len: nat, flags: OpFlags) returns (r: int, bytes: seq<char>, version: nat)
    modifies c
    requires ViaCache(c.overlay, pool, flags) && LiveHead(c.cache, name)
    ensures var o := old(c.cache)[ObjectKey(name)];
            bytes == ReadRange(o.data, off, len) && r == |bytes| && version == o.version
    ensures Untouched(c)
  {
    r, bytes, version := c.Read(pool, name, Head, off, len, flags);
  }

  /** A read that misses in a writeback cache tier and finds the revision in the base pool: promoted clean. */
  method ReadPromoting(c: Cluster, pool: Pool, name: string, snap: Snap, off: nat, len: nat, flags: OpFlags)
    returns (r: int, bytes: seq<char>, version: nat)
    modifies c
    requires ViaCache(c.overlay, pool, flags) && PromotesOnMiss(c, flags)
    requires Resolve(c.cache, name, snap).None?
    requires ObjectKey(name, snap) in c.base && !c.base[ObjectKey(name, snap)].whiteout
    ensures var o := old(c.base)[ObjectKey(name, snap)];
            bytes == ReadRange(o.data, off, len) && r == |bytes| && version == o.version
    ensures c.cache == old(c.cache)[ObjectKey(name, snap) := old(c.base)[ObjectKey(name, snap)].(dirty := false)]
    ensures c.base == old(c.base) && c.lastVersion == old(c.lastVersion) && SameSetup(c)
  {
    r, bytes, version := c.Read(pool, name, snap, off, len, flags);
  }

  /** A read of a head in neither pool, through a writeback cache tier: -ENOENT, and a whiteout recorded. */
  method ReadAbsent(c: Cluster, pool: Pool, name: string, off: nat, len: nat, flags: OpFlags) returns (r: int)
    modifies c
    requires ViaCache(c.overlay, pool, flags) && PromotesOnMiss(c, flags)
    requires ObjectKey(name) !in c.cache && ObjectKey(name) !in c.base
    ensures r == -ENOENT
    ensures c.cache == old(c.cache)[ObjectKey(name) := ABSENT]
    ensures c.base == old(c.base) && c.lastVersion == old(c.lastVersion) && SameSetup(c)
  {
    var bytes, version;
    r, bytes, version := c.Read(pool, name, Head, off, len, flags);
  }

  /** A read served by the cache pool that finds a whiteout, or nothing while not promoting: -ENOENT, nothing changed. */
  method ReadMissing(c: Cluster, pool: Pool, name: string, snap: Snap, off: nat, len: nat, flags: OpFlags) returns (r: int)
    modifies c
    requires ViaCache(c.overlay, pool, flags)
    requires var k := Resolve(c.cache, name, snap);
             (k.Some? && c.cache[k.value].whiteout) || (k.None? && !PromotesOnMiss(c, flags))
    ensures r == -ENOENT && Untouched(c)
  {
    var bytes, version;
    r, bytes, version := c.Read(pool, name, snap, off, len, flags);
  }

  /** Evicting a clean revision (for a head, with no clone cached): removed from the cache. */
  method EvictClean(c: Cluster, pool: Pool, name: string, snap: Snap, flags: OpFlags) returns (r: int)
    modifies c
    requires ViaCache(c.overlay, pool, flags) && c.tiered
    requires ObjectKey(name, snap) in c.cache && !c.cache[ObjectKey(name, snap)].dirty
    requires snap == Head ==> forall k :: k in c.cache && k.name == name ==> k.snap == Head
    ensures r == 0
    ensures c.cache == old(c.cache) - {ObjectKey(name, snap)}
    ensures c.base == old(c.base) && c.lastVersion == old(c.lastVersion) && SameSetup(c)
  {
    r := c.Evict(pool, name, snap, flags);
  }

  /** Evicting what is not cached (-ENOENT), or is dirty, or a head with a cached clone (-EBUSY): nothing changes. */
  method EvictRefused(c: Cluster, pool: Pool, name: string, snap: Snap, flags: OpFlags) returns (r: int)
    modifies c
    requires ViaCache(c.overlay, pool, flags) && c.tiered
    requires var k := ObjectKey(name, snap);
             k !in c.cache || c.cache[k].dirty || (snap == Head && exists j :: j in c.cache && j.name == name && j.snap != Head)
    ensures r == if ObjectKey(name, snap) in old(c.cache) then -EBUSY else -ENOENT
    ensures Untouched(c)
  {
    r := c.Evict(pool, name, snap, flags);
  }

  /** Flushing a dirty head: written back (deleted for a whiteout) and marked clean. */
  method FlushDirty(c: Cluster, pool: Pool, name: string, flags: OpFlags) returns (r: int)
    modifies c
    requires ViaCache(c.overlay, pool, flags) && c.tiered
    requires ObjectKey(name) in c.cache && c.cache[ObjectKey(name)].dirty
    ensures r == 0
    ensures var hk := ObjectKey(name);
            var o := old(c.cache)[hk].(dirty := false);
            && c.cache == old(c.cache)[hk := o]
            && c.base == if o.whiteout then old(c.base) - {hk} else old(c.base)[hk := o]
    ensures c.lastVersion == old(c.lastVersion) && SameSetup(c)
  {
    r := c.Flush(pool, name, Head, flags);
  }

  /** Tier configuration as the tests do it, with or without the writeback cache mode. */
  method SetUpTier(c: Cluster, writeback: bool)
    modifies c
    ensures c.tiered && c.overlay && c.writeback == (writeback || old(c.writeback))
    ensures c.base == old(c.base) && c.cache == old(c.cache) && c.lastVersion == old(c.lastVersion)
    ensures c.snapSeq == old(c.snapSeq) && c.hitSetArchive == old(c.hitSetArchive)
  {
    var r0 := c.TierAdd();
    var r1 := c.SetOverlay();
    if writeback {
      var r2 := c.SetCacheModeWriteback();
    }
  }

  /** Tier teardown: remove-overlay, then tier remove. */
  method TearDownTier(c: Cluster)
    modifies c
    ensures !c.tiered && !c.overlay && !c.writeback
    ensures c.base == old(c.base) && c.cache == old(c.cache) && c.lastVersion == old(c.lastVersion)
    ensures c.snapSeq == old(c.snapSeq) && c.hitSetArchive == old(c.hitSetArchive)
  {
    var r0 := c.RemoveOverlay();
    var r1 := c.TierRemove();
  }

  // ---- The tests ----
  //
  // A long test is cut into phases; each phase states the cluster it starts
  // from and the one it leaves, so that its proof covers a few requests only.

  /** The writeback cache tier the tests set up. */
  predicate TierUp(c: Cluster)
    reads c
  {
    c.tiered && c.overlay && c.writeback
  }

  /** A listing returns exactly `names` when each is a head in the pool and every head is named there. */
  lemma ListsExactly(s: Store, pool: Pool, names: set<string>)
    requires forall k :: k in PoolMap(s, pool) && k.snap == Head ==> k.name in names
    requires forall n :: n in names ==> ObjectKey(n) in PoolMap(s, pool)
    ensures ListNames(s, pool) == names
  {
    forall n | n in names
      ensures n in ListNames(s, pool)
    {
      assert ObjectKey(n) in PoolMap(s, pool);
    }
  }

  /** Dirty: undirty on a missing object, create, and the dirty flag across undirty and truncate. */
  method Dirty() returns (rs: seq<int>, dirty: seq<bool>)
    ensures rs == [0, 0, 0, 0, 0, 0, 0, 0]
    ensures dirty == [true, false, true]
  {
    var c := new Cluster();
    var r0 := UndirtyBase(c, "foo");
    var r1 := WriteNewBase(c, "foo", OpCreate(true), 0, NoFlags);
    var r2, d0, v0 := IsDirtyBase(c, "foo");
    var r3 := UndirtyBase(c, "foo");
    var r4 := UndirtyBase(c, "foo");
    var r5, d1, v1 := IsDirtyBase(c, "foo");
    var r6 := OverwriteBase(c, "foo", OpTruncate(0), 0);
    var r7, d2, v2 := IsDirtyBase(c, "foo");
    rs := [r0, r1, r2, r3, r4, r5, r6, r7];
    dirty := [d0, d1, d2];
  }

  /** Overlay: reads through the base pool see the cache's object unless told to ignore the overlay. */
  method Overlay() returns (rs: seq<int>, viaBase: seq<char>, viaCache: seq<char>, ignoringOverlay: seq<char>)
    ensures rs == [0, 0, 1, 1, 0]
    ensures viaBase == "c" && viaCache == "c" && ignoringOverlay == "b"
  {
    var c := new Cluster();
    var r0 := WriteNewBase(c, "foo", OpWriteFull("base"), 0, NoFlags);
    var r1 := WriteNewCached(c, CachePool, "foo", OpWriteFull("cache"), 0, NoFlags);
    SetUpTier(c, false);
    var r2, b2, v2 := ReadCached(c, BasePool, "foo", 0, 1, NoFlags);
    var r3, b3, v3 := ReadCached(c, CachePool, "foo", 0, 1, NoFlags);
    var r4, b4, v4 := ReadBase(c, "foo", 0, 1, IgnoreOverlay);
    rs := [r0, r1, r2, r3, AioResult(r4)];
    viaBase, viaCache, ignoringOverlay := b2, b3, b4;
    TearDownTier(c);
  }

  /** Promote: a read through the overlay promotes the object, a read of a missing one leaves a whiteout. */
  method Promote() returns (rs: seq<int>, listed: set<string>)
    ensures rs == [0, 1, -ENOENT, -ENOENT]
    ensures listed == {"foo", "bar"}
  {
    var c := new Cluster();
    var r0 := WriteNewBase(c, "foo", OpWriteFull("hi there"), 0, NoFlags);
    SetUpTier(c, true);
    var r1, b1, v1 := ReadPromoting(c, BasePool, "foo", Head, 0, 1, NoFlags);
    var r2 := ReadAbsent(c, BasePool, "bar", 0, 1, NoFlags);
    var r3 := ReadMissing(c, BasePool, "bar", Head, 0, 1, NoFlags);
    ListsExactly(c.State(), CachePool, {"foo", "bar"});
    listed := c.List(CachePool);
    rs := [r0, r1, r2, r3];
    TearDownTier(c);
  }

  /** The base pool the snapshot tests build: three heads rewritten after snapshot 1, one removed, and four clones. */
  const SnapBase: map<ObjKey, Obj> := map[
    ObjectKey("foo") := Obj("ciao!", 5, 1, true, false),
    ObjectKey("bar") := Obj("ciao!", 6, 1, true, false),
    ObjectKey("bam") := Obj("ciao!", 8, 1, true, false),
    ObjectKey("foo", SnapId(1)) := Obj("hi there", 1, 0, true, false),
    ObjectKey("bar", SnapId(1)) := Obj("hi there", 2, 0, true, false),
    ObjectKey("baz", SnapId(1)) := Obj("hi there", 3, 0, true, false),
    ObjectKey("bam", SnapId(1)) := Obj("hi there", 4, 0, true, false)]

  /** Snapshot tests, first part: four objects written. */
  method WriteFourObjects(c: Cluster) returns (rs: seq<int>)
    modifies c
    requires c.State() == EmptyStore()
    ensures rs == [0, 0, 0, 0]
    ensures c.base == map[
      ObjectKey("foo") := Obj("hi there", 1, 0, true, false),
      ObjectKey("bar") := Obj("hi there", 2, 0, true, false),
      ObjectKey("baz") := Obj("hi there", 3, 0, true, false),
      ObjectKey("bam") := Obj("hi there", 4, 0, true, false)]
    ensures c.cache == map[] && c.lastVersion == 4 && c.snapSeq == 0
    ensures !c.tiered && !c.overlay && !c.writeback
  {
    var r0 := WriteNewBase(c, "foo", OpWriteFull("hi there"), 0, NoFlags);
    var r1 := WriteNewBase(c, "bar", OpWriteFull("hi there"), 0, NoFlags);
    var r2 := WriteNewBase(c, "baz", OpWriteFull("hi there"), 0, NoFlags);
    var r3 := WriteNewBase(c, "bam", OpWriteFull("hi there"), 0, NoFlags);
    rs := [r0, r1, r2, r3];
  }

  /** Snapshot tests, second part: snapshot 1 is taken and foo and bar are rewritten under it. */
  method SnapshotAndRewrite(c: Cluster) returns (rs: seq<int>, snap: nat)
    modifies c
    requires c.base == map[
      ObjectKey("foo") := Obj("hi there", 1, 0, true, false),
      ObjectKey("bar") := Obj("hi there", 2, 0, true, false),
      ObjectKey("baz") := Obj("hi there", 3, 0, true, false),
      ObjectKey("bam") := Obj("hi there", 4, 0, true, false)]
    requires c.cache == map[] && c.lastVersion == 4 && c.snapSeq == 0
    requires !c.tiered && !c.overlay && !c.writeback
    ensures rs == [0, 0, 0] && snap == 1
    ensures c.base == map[
      ObjectKey("foo") := Obj("ciao!", 5, 1, true, false),
      ObjectKey("bar") := Obj("ciao!", 6, 1, true, false),
      ObjectKey("baz") := Obj("hi there", 3, 0, true, false),
      ObjectKey("bam") := Obj("hi there", 4, 0, true, false),
      ObjectKey("foo", SnapId(1)) := Obj("hi there", 1, 0, true, false),
      ObjectKey("bar", SnapId(1)) := Obj("hi there", 2, 0, true, false)]
    ensures c.cache == map[] && c.lastVersion == 6 && c.snapSeq == 1
    ensures !c.tiered && !c.overlay && !c.writeback
  {
    var r0;
    r0, snap := c.SnapCreate();
    var r1 := OverwriteBase(c, "foo", OpWriteFull("ciao!"), snap);
    var r2 := OverwriteBase(c, "bar", OpWriteFull("ciao!"), snap);
    rs := [r0, r1, r2];
  }

  /** Snapshot tests, third part: under snapshot 1, baz is removed and bam rewritten. */
  method RemoveAndRewrite(c: Cluster) returns (rs: seq<int>)
    modifies c
    requires c.base == map[
      ObjectKey("foo") := Obj("ciao!", 5, 1, true, false),
      ObjectKey("bar") := Obj("ciao!", 6, 1, true, false),
      ObjectKey("baz") := Obj("hi there", 3, 0, true, false),
      ObjectKey("bam") := Obj("hi there", 4, 0, true, false),
      ObjectKey("foo", SnapId(1)) := Obj("hi there", 1, 0, true, false),
      ObjectKey("bar", SnapId(1)) := Obj("hi there", 2, 0, true, false)]
    requires c.cache == map[] && c.lastVersion == 6 && c.snapSeq == 1
    requires !c.tiered && !c.overlay && !c.writeback
    ensures rs == [0, 0]
    ensures c.base == SnapBase && c.cache == map[] && c.lastVersion == 8
    ensures !c.tiered && !c.overlay && !c.writeback
  {
    var r0 := RemoveBase(c, "baz", 1);
    var r1 := OverwriteBase(c, "bam", OpWriteFull("ciao!"), 1);
    rs := [r0, r1];
  }

  /** The common start of PromoteSnap and EvictSnap, then the writeback tier set up. */
  method SnapshotSetUp(c: Cluster) returns (rs: seq<int>)
    modifies c
    requires c.State() == EmptyStore()
    ensures rs == [0, 0, 0, 0, 0, 0, 0, 0, 0]
    ensures c.base == SnapBase && c.cache == map[] && c.lastVersion == 8 && TierUp(c)
  {
    var rs0 := WriteFourObjects(c);
    var rs1, snap := SnapshotAndRewrite(c);
    var rs2 := RemoveAndRewrite(c);
    SetUpTier(c, true);
    rs := rs0 + rs1 + rs2;
  }

  /** PromoteSnap, first reads: the heads of foo and bam, then foo's clone. */
  method PromoteSnapHeads(c: Cluster) returns (rs: seq<int>, bytes: seq<seq<char>>)
    modifies c
    requires c.base == SnapBase && c.cache == map[] && TierUp(c)
    ensures rs == [1, 1, 1] && bytes == ["c", "c", "h"]
    ensures c.base == SnapBase && TierUp(c)
    ensures c.cache == map[
      ObjectKey("foo") := Obj("ciao!", 5, 1, false, false),
      ObjectKey("bam") := Obj("ciao!", 8, 1, false, false),
      ObjectKey("foo", SnapId(1)) := Obj("hi there", 1, 0, false, false)]
  {
    var r0, b0, v0 := ReadPromoting(c, BasePool, "foo", Head, 0, 1, NoFlags);
    var r1, b1, v1 := ReadPromoting(c, BasePool, "bam", Head, 0, 1, NoFlags);
    var r2, b2, v2 := ReadPromoting(c, BasePool, "foo", SnapId(1), 0, 1, NoFlags);
    assert b0 == "c" && b1 == "c" && b2 == "h";
    rs, bytes := [r0, r1, r2], [b0, b1, b2];
  }

  /** PromoteSnap, then: the clones of bar and baz, and foo's head again. */
  method PromoteSnapClones(c: Cluster) returns (rs: seq<int>, bytes: seq<seq<char>>)
    modifies c
    requires c.base == SnapBase && TierUp(c)
    requires c.cache == map[
      ObjectKey("foo") := Obj("ciao!", 5, 1, false, false),
      ObjectKey("bam") := Obj("ciao!", 8, 1, false, false),
      ObjectKey("foo", SnapId(1)) := Obj("hi there", 1, 0, false, false)]
    ensures rs == [1, 1, 1] && bytes == ["h", "h", "c"]
    ensures c.base == SnapBase && TierUp(c)
    ensures ObjectKey("bar") !in c.cache && ObjectKey("baz") !in c.cache
  {
    var r0, b0, v0 := ReadPromoting(c, BasePool, "bar", SnapId(1), 0, 1, NoFlags);
    var r1, b1, v1 := ReadPromoting(c, BasePool, "baz", SnapId(1), 0, 1, NoFlags);
    var r2, b2, v2 := ReadCached(c, BasePool, "foo", 0, 1, NoFlags);
    assert b0 == "h" && b1 == "h" && b2 == "c";
    rs, bytes := [r0, r1, r2], [b0, b1, b2];
  }

  /** PromoteSnap: heads and snapshot clones are promoted separately; a removed head reads as missing. */
  method PromoteSnap() returns (rs: seq<int>, bytes: seq<seq<char>>)
    ensures rs == [0, 0, 0, 0, 0, 0, 0, 0, 0, 1, 1, 1, 1, 1, 1, 1, -ENOENT]
    ensures bytes == ["c", "c", "h", "h", "h", "c", "c"]
  {
    var c := new Cluster();
    var setup := SnapshotSetUp(c);
    var rs0, bs0 := PromoteSnapHeads(c);
    var rs1, bs1 := PromoteSnapClones(c);
    var r6, b6, v6 := ReadPromoting(c, BasePool, "bar", Head, 0, 1, NoFlags);
    var r7 := ReadAbsent(c, BasePool, "baz", 0, 1, NoFlags);
    assert b6 == "c";
    rs := setup + rs0 + rs1 + [r6, r7];
    bytes := bs0 + bs1 + [b6];
    TearDownTier(c);
  }

  /** Whiteout, first part: foo is removed through the cache and bar, never written, too. */
  method WhiteoutRemovals(c: Cluster) returns (rs: seq<int>)
    modifies c
    requires c.State() == EmptyStore()
    ensures rs == [0, 0, -ENOENT]
    ensures TierUp(c) && c.lastVersion == 2
    ensures c.cache == map[ObjectKey("foo") := Obj([], 2, 0, true, true), ObjectKey("bar") := ABSENT]
  {
    var r0 := WriteNewBase(c, "foo", OpWriteFull("hi there"), 0, NoFlags);
    SetUpTier(c, true);
    var r1 := RemoveCached(c, BasePool, "foo", 0, NoFlags);
    var r2 := RemoveAbsent(c, BasePool, "bar", 0, NoFlags);
    rs := [r0, r1, r2];
  }

  /** Whiteout: removing through the cache leaves whiteouts, and a rewrite replaces one. */
  method Whiteout() returns (rs: seq<int>, listed: set<string>, bytes: seq<char>)
    ensures rs == [0, 0, -ENOENT, -ENOENT, -ENOENT, 0, 1]
    ensures listed == {"foo", "bar"}
    ensures bytes == "h"
  {
    var c := new Cluster();
    var rs0 := WhiteoutRemovals(c);
    var r3 := RemoveWhiteout(c, BasePool, "bar", 0, NoFlags);
    ListsExactly(c.State(), CachePool, {"foo", "bar"});
    listed := c.List(CachePool);
    var r4 := RemoveWhiteout(c, BasePool, "foo", 0, NoFlags);
    var r5 := WriteNewCached(c, BasePool, "foo", OpWriteFull("hi there"), 0, NoFlags);
    var r6, b6, v6 := ReadCached(c, BasePool, "foo", 0, 1, NoFlags);
    bytes := b6;
    rs := rs0 + [r3, r4, r5, r6];
    TearDownTier(c);
  }

  /** Evict, first part: foo is promoted and bar, missing, read twice and then written. */
  method EvictPrepare(c: Cluster) returns (rs: seq<int>)
    modifies c
    requires c.State() == EmptyStore()
    ensures rs == [0, 1, -ENOENT, -ENOENT, 0]
    ensures TierUp(c)
    ensures c.cache == map[ObjectKey("foo") := Obj("hi there", 1, 0, false, false), ObjectKey("bar") := Obj([], 2, 0, true, false)]
  {
    var r0 := WriteNewBase(c, "foo", OpWriteFull("hi there"), 0, NoFlags);
    SetUpTier(c, true);
    var r1, b1, v1 := ReadPromoting(c, BasePool, "foo", Head, 0, 1, NoFlags);
    var r2 := ReadAbsent(c, BasePool, "bar", 0, 1, NoFlags);
    var r3 := ReadMissing(c, BasePool, "bar", Head, 0, 1, NoFlags);
    var r4 := WriteNewCached(c, BasePool, "bar", OpWrite(0, []), 0, NoFlags);
    rs := [r0, r1, r2, r3, r4];
  }

  /** Evict: a clean object can be evicted, a missing one cannot be found, a dirty one is busy. */
  method Evict() returns (rs: seq<int>, listed: set<string>)
    ensures rs == [0, 1, -ENOENT, -ENOENT, 0, 0, -ENOENT, -EBUSY]
    ensures listed == {"foo", "bar"}
  {
    var c := new Cluster();
    var rs0 := EvictPrepare(c);
    ListsExactly(c.State(), CachePool, {"foo", "bar"});
    listed := c.List(CachePool);
    var r5 := EvictClean(c, CachePool, "foo", Head, IgnoreCache);
    var r6 := EvictRefused(c, CachePool, "fooberdoodle", Head, IgnoreCache);
    var r7 := EvictRefused(c, CachePool, "bar", Head, IgnoreCache);
    rs := rs0 + [r5, r6, r7];
    TearDownTier(c);
  }

  /** EvictSnap, first part: the heads of foo and bam promoted, bam's evicted and then not found ignoring the cache. */
  method EvictSnapHeads(c: Cluster) returns (rs: seq<int>, bytes: seq<seq<char>>)
    modifies c
    requires c.base == SnapBase && c.cache == map[] && TierUp(c)
    ensures rs == [1, 1, 0, -ENOENT] && bytes == ["c", "c"]
    ensures c.base == SnapBase && TierUp(c)
    ensures c.cache == map[ObjectKey("foo") := Obj("ciao!", 5, 1, false, false)]
  {
    var r0, b0, v0 := ReadPromoting(c, BasePool, "foo", Head, 0, 1, NoFlags);
    var r1, b1, v1 := ReadPromoting(c, BasePool, "bam", Head, 0, 1, NoFlags);
    var r2 := EvictClean(c, CachePool, "bam", Head, IgnoreCache);
    var r3 := ReadMissing(c, CachePool, "bam", Head, 1, 0, IgnoreCache);
    assert b0 == "c" && b1 == "c";
    rs, bytes := [r0, r1, r2, AioResult(r3)], [b0, b1];
  }

  /** EvictSnap, then: foo's clone promoted and evicted again, while foo's head stays readable. */
  method EvictSnapFooClone(c: Cluster) returns (rs: seq<int>, bytes: seq<seq<char>>)
    modifies c
    requires c.base == SnapBase && TierUp(c)
    requires c.cache == map[ObjectKey("foo") := Obj("ciao!", 5, 1, false, false)]
    ensures rs == [1, 0, -ENOENT, 0] && bytes == ["h"]
    ensures c.base == SnapBase && TierUp(c)
    ensures c.cache == map[ObjectKey("foo") := Obj("ciao!", 5, 1, false, false)]
  {
    var r4, b2, v2 := ReadPromoting(c, BasePool, "foo", SnapId(1), 0, 1, NoFlags);
    var r5 := EvictClean(c, BasePool, "foo", SnapId(1), IgnoreCache);
    var r6 := ReadMissing(c, BasePool, "foo", SnapId(1), 1, 0, IgnoreCache);
    var r7, b7, v7 := ReadCached(c, BasePool, "foo", 1, 0, IgnoreCache);
    assert b2 == "h";
    rs, bytes := [r4, r5, AioResult(r6), AioResult(r7)], [b2];
  }

  /** EvictSnap, then: bar's head and clone promoted; the head is busy while the clone is cached. */
  method EvictSnapBar(c: Cluster) returns (rs: seq<int>, bytes: seq<seq<char>>)
    modifies c
    requires c.base == SnapBase && TierUp(c)
    requires c.cache == map[ObjectKey("foo") := Obj("ciao!", 5, 1, false, false)]
    ensures rs == [1, 1, -EBUSY] && bytes == ["c", "h"]
    ensures c.base == SnapBase && TierUp(c)
    ensures c.cache == map[
      ObjectKey("foo") := Obj("ciao!", 5, 1, false, false),
      ObjectKey("bar") := Obj("ciao!", 6, 1, false, false),
      ObjectKey("bar", SnapId(1)) := Obj("hi there", 2, 0, false, false)]
  {
    var r8, b3, v3 := ReadPromoting(c, BasePool, "bar", Head, 0, 1, NoFlags);
    var r9, b4, v4 := ReadPromoting(c, BasePool, "bar", SnapId(1), 0, 1, NoFlags);
    assert ObjectKey("bar", SnapId(1)) in c.cache;
    var r10 := EvictRefused(c, BasePool, "bar", Head, IgnoreCache);
    assert b3 == "c" && b4 == "h";
    rs, bytes := [r8, r9, r10], [b3, b4];
  }

  /** EvictSnap, last part: bar's clone evicted, then its head. */
  method EvictSnapBarAgain(c: Cluster) returns (rs: seq<int>)
    modifies c
    requires c.base == SnapBase && TierUp(c)
    requires c.cache == map[
      ObjectKey("foo") := Obj("ciao!", 5, 1, false, false),
      ObjectKey("bar") := Obj("ciao!", 6, 1, false, false),
      ObjectKey("bar", SnapId(1)) := Obj("hi there", 2, 0, false, false)]
    ensures rs == [0, 0, 0]
    ensures TierUp(c)
  {
    var r11 := EvictClean(c, BasePool, "bar", SnapId(1), IgnoreCache);
    var r12, b12, v12 := ReadCached(c, BasePool, "bar", 1, 0, IgnoreCache);
    var r13 := EvictClean(c, BasePool, "bar", Head, IgnoreCache);
    rs := [r11, AioResult(r12), r13];
  }

  /** EvictSnap: clones are evicted one by one, and a head cannot go while one of its clones is cached. */
  method EvictSnap() returns (rs: seq<int>, bytes: seq<seq<char>>)
    ensures rs == [0, 0, 0, 0, 0, 0, 0, 0, 0, 1, 1, 0, -ENOENT, 1, 0, -ENOENT, 0, 1, 1, -EBUSY, 0, 0, 0]
    ensures bytes == ["c", "c", "h", "c", "h"]
  {
    var c := new Cluster();
    var setup := SnapshotSetUp(c);
    var rs0, bs0 := EvictSnapHeads(c);
    var rs1, bs1 := EvictSnapFooClone(c);
    var rs2, bs2 := EvictSnapBar(c);
    var rs3 := EvictSnapBarAgain(c);
    rs := setup + rs0 + rs1 + rs2 + rs3;
    bytes := bs0 + bs1 + bs2;
    TearDownTier(c);
  }

  /** TryFlush and Flush, first part: foo written through the overlay, dirty in the cache only. */
  method WriteThroughOverlay(c: Cluster) returns (r: int, cacheListed: set<string>, baseListed: set<string>,
                                                 rd: int, dirty: bool, version: nat)
    modifies c
    requires c.State() == EmptyStore()
    ensures r == 0 && rd == 0 && dirty && version == 1
    ensures cacheListed == {"foo"} && baseListed == {}
    ensures TierUp(c) && c.base == map[] && c.cache == map[ObjectKey("foo") := Obj("hi there", 1, 0, true, false)]
  {
    SetUpTier(c, true);
    r := WriteNewCached(c, BasePool, "foo", OpWriteFull("hi there"), 0, NoFlags);
    ListsExactly(c.State(), CachePool, {"foo"});
    cacheListed := c.List(CachePool);
    ListsExactly(c.State(), BasePool, {});
    baseListed := c.List(BasePool);
    rd, dirty, version := IsDirtyCached(c, CachePool, "foo", NoFlags);
  }

  /** TryFlush and Flush, second part: foo flushed into the base pool, clean, then evicted from the cache. */
  method FlushAndEvict(c: Cluster, flags: OpFlags) returns (rs: seq<int>, dirty: bool, baseListed: set<string>, cacheListed: set<string>)
    modifies c
    requires TierUp(c) && c.base == map[] && c.cache == map[ObjectKey("foo") := Obj("hi there", 1, 0, true, false)]
    requires flags.ignoreOverlay
    ensures rs == [0, 0, 0] && !dirty && baseListed == {"foo"} && cacheListed == {}
    ensures TierUp(c) && c.base == map[ObjectKey("foo") := Obj("hi there", 1, 0, false, false)] && c.cache == map[]
  {
    var r0 := FlushDirty(c, CachePool, "foo", flags);
    var r1, v1;
    r1, dirty, v1 := IsDirtyCached(c, CachePool, "foo", NoFlags);
    ListsExactly(c.State(), BasePool, {"foo"});
    baseListed := c.List(BasePool);
    var r2 := EvictClean(c, CachePool, "foo", Head, IgnoreCache);
    ListsExactly(c.State(), CachePool, {});
    cacheListed := c.List(CachePool);
    rs := [r0, r1, r2];
  }

  /** TryFlush: a write through the overlay stays dirty in the cache until try-flushed into the base pool. */
  method TryFlush() returns (rs: seq<int>, dirty: seq<bool>, cacheListed: seq<set<string>>, baseListed: seq<set<string>>)
    ensures rs == [0, 0, 0, 0, 0]
    ensures dirty == [true, false]
    ensures cacheListed == [{"foo"}, {}] && baseListed == [{}, {"foo"}]
  {
    var c := new Cluster();
    var r0, l0, l1, r1, d0, v0 := WriteThroughOverlay(c);
    var rs1, d1, l2, l3 := FlushAndEvict(c, IgnoreOverlaySkipLocks);
    rs := [r0, r1] + rs1;
    dirty := [d0, d1];
    cacheListed, baseListed := [l0, l3], [l1, l2];
    TearDownTier(c);
  }

  /** Flush, last part: foo promoted again at its version, removed, and the whiteout flushed and evicted. */
  method FlushWhiteout(c: Cluster) returns (rs: seq<int>, version: nat, cacheListed: set<string>, baseListed: set<string>)
    modifies c
    requires TierUp(c) && c.base == map[ObjectKey("foo") := Obj("hi there", 1, 0, false, false)] && c.cache == map[]
    ensures rs == [1, 0, 0, 0] && version == 1
    ensures cacheListed == {} && baseListed == {}
    ensures TierUp(c)
  {
    var r0, b0;
    r0, b0, version := ReadPromoting(c, CachePool, "foo", Head, 0, 1, NoFlags);
    var r1 := RemoveCached(c, BasePool, "foo", 0, NoFlags);
    var r2 := FlushDirty(c, CachePool, "foo", IgnoreOverlay);
    var r3 := EvictClean(c, CachePool, "foo", Head, IgnoreCache);
    ListsExactly(c.State(), CachePool, {});
    cacheListed := c.List(CachePool);
    ListsExactly(c.State(), BasePool, {});
    baseListed := c.List(BasePool);
    rs := [r0, r1, r2, r3];
  }

  /**
   * Flush: flushing writes the object back, evicting and reading promotes it
   * again at the same version, and a flushed whiteout deletes it from the base pool.
   */
  method Flush() returns (rs: seq<int>, dirty: seq<bool>, userVersion: nat, readVersion: nat,
                          cacheListed: seq<set<string>>, baseListed: seq<set<string>>)
    ensures rs == [0, 0, 0, 0, 0, 1, 0, 0, 0]
    ensures dirty == [true, false]
    ensures readVersion == userVersion
    ensures cacheListed == [{"foo"}, {}, {}] && baseListed == [{}, {"foo"}, {}]
  {
    var c := new Cluster();
    var r0, l0, l1, r1, d0;
    r0, l0, l1, r1, d0, userVersion := WriteThroughOverlay(c);
    var rs1, d1, l2, l3 := FlushAndEvict(c, IgnoreOverlay);
    var rs2, l4, l5;
    rs2, readVersion, l4, l5 := FlushWhiteout(c);
    rs := [r0, r1] + rs1 + rs2;
    dirty := [d0, d1];
    cacheListed, baseListed := [l0, l3, l4], [l1, l2, l5];
    TearDownTier(c);
  }

  /** HitSetNone: a pool without hit sets lists none and finds none. */
  method HitSetNone() returns (listR: int, windows: seq<(int, int)>, getR: int)
    ensures listR == 0 && windows == []
    ensures getR == -ENOENT
  {
    var c := new Cluster();
    var h;
    listR, windows := c.HitSetList(BasePool);
    getR, h := c.HitSetGet(BasePool, 12345);
  }
}

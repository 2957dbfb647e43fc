// A base pool with a cache pool on top, as the librados tiering tests see
// them: objects with dirty and whiteout flags, the overlay that redirects
// base-pool requests to the cache, promotion on a cache miss, flush and evict,
// snapshot clones, object listing and the hit-set archive queries.
//
// The OSD code behind these operations is not part of this model; the
// behaviour is the one the tests observe (see README.md for the choices).

module TierStore {
  import opened Wrappers
  import opened Objects

  const ENOENT: int := 2
  const EBUSY: int := 16
  const EEXIST: int := 17
  const EINVAL: int := 22

  /** The two pools of a test: the base pool and the pool set up as its cache tier. */
  datatype Pool = BasePool | CachePool

  /** The key of the head of `name`, or of its revision at `snap`. */
  function ObjectKey(name: string, snap: Snap := Head): ObjKey
  {
    ObjKey(name, snap)
  }

  /** The librados operation flags the tests use. */
  datatype OpFlags = OpFlags(ignoreOverlay: bool, ignoreCache: bool, skipRwLocks: bool)

  const NoFlags := OpFlags(false, false, false)

  /**
   * One stored object revision: its bytes, its user version, the snapshot
   * sequence it was last written under, and its dirty and whiteout flags.
   */
  datatype Obj = Obj(data: seq<char>, version: nat, writeSeq: nat, dirty: bool, whiteout: bool)

  /** The single-op write operations handed to operate(). */
  datatype WriteOp =
    | OpCreate(exclusive: bool)
    | OpWriteFull(bytes: seq<char>)
    | OpWrite(off: nat, bytes: seq<char>)
    | OpTruncate(size: nat)
    | OpRemove
    | OpUndirty

  /** Everything the cluster holds, as a value. */
  datatype Store = Store(
    base: map<ObjKey, Obj>,
    cache: map<ObjKey, Obj>,
    tiered: bool,
    overlay: bool,
    writeback: bool,
    lastVersion: nat,
    snapSeq: nat,
    hitSetArchive: seq<HitSet>)

  // ---- Byte helpers ----

  function Zeros(n: nat): (z: seq<char>)
    ensures |z| == n
  {
    seq(n, _ => '\0')
  }

  /** The bytes a read of `len` bytes at `off` returns (len 0: to the end). */
  function ReadRange(d: seq<char>, off: nat, len: nat): (r: seq<char>)
    ensures |r| == if off >= |d| then 0 else if len == 0 || off + len > |d| then |d| - off else len
    ensures forall i :: 0 <= i < |r| ==> r[i] == d[off + i]
    ensures off < |d| && len == 0 ==> r == d[off..]
  {
    if off >= |d| then []
    else if len == 0 || off + len > |d| then d[off..]
    else d[off..off + len]
  }

  /** Writing `b` at `off` into `d`, zero-filling any gap. */
  function Splice(d: seq<char>, off: nat, b: seq<char>): (r: seq<char>)
    ensures |r| == if off + |b| > |d| then off + |b| else |d|
    ensures r[off..off + |b|] == b
    ensures off <= |d| ==> r[..off] == d[..off]
    ensures off + |b| < |d| ==> r[off + |b|..] == d[off + |b|..]
  {
    var padded := if off <= |d| then d else d + Zeros(off - |d|);
    padded[..off] + b + (if off + |b| < |padded| then padded[off + |b|..] else [])
  }

  /** Truncating or zero-extending `d` to `size` bytes. */
  function Resize(d: seq<char>, size: nat): (r: seq<char>)
    ensures |r| == size
    ensures size <= |d| ==> r == d[..size]
    ensures size > |d| ==> r[..|d|] == d
  {
    if size <= |d| then d[..size] else d + Zeros(size - |d|)
  }

  function Max(a: nat, b: nat): nat
  {
    if a < b then b else a
  }

  // ---- The pure model of the tiering behaviour ----

  /** The empty cluster: two empty pools, no tiering, no hit sets. */
  function EmptyStore(): Store
  {
    Store(map[], map[], false, false, false, 0, 0, [])
  }

  /** The shape every reachable store keeps. */
  predicate Valid(s: Store)
  {
    && (forall k :: k in s.base ==> !s.base[k].whiteout && s.base[k].version <= s.lastVersion)
    && (forall k :: k in s.cache ==> s.cache[k].version <= s.lastVersion)
    && (forall k :: k in s.cache && s.cache[k].whiteout ==> s.cache[k].data == [] && k.snap == Head)
  }

  lemma EmptyStoreValid()
    ensures Valid(EmptyStore())
  {
  }

  /** The pool a request addressed to `pool` is served by: the overlay sends base requests to the cache. */
  function Route(s: Store, pool: Pool, flags: OpFlags): (t: Pool)
    ensures pool == CachePool ==> t == CachePool
    ensures pool == BasePool ==> (t == CachePool <==> s.overlay && !flags.ignoreOverlay)
  {
    if pool == BasePool && s.overlay && !flags.ignoreOverlay then CachePool else pool
  }

  function PoolMap(s: Store, p: Pool): map<ObjKey, Obj>
  {
    if p == BasePool then s.base else s.cache
  }

  function WithPool(s: Store, p: Pool, m: map<ObjKey, Obj>): (s': Store)
    ensures PoolMap(s', p) == m
    ensures p == BasePool ==> s'.cache == s.cache
    ensures p == CachePool ==> s'.base == s.base
  {
    if p == BasePool then s.(base := m) else s.(cache := m)
  }

  /** Whether a request served by `target` promotes on a miss: a writeback cache tier, not told to ignore the cache. */
  predicate Promotes(s: Store, target: Pool, flags: OpFlags)
  {
    target == CachePool && s.tiered && s.writeback && !flags.ignoreCache
  }

  /**
   * The revision a request for `name` at `snap` addresses in `m`: the head,
   * or for a snapshot its clone, or the head when the head was last written
   * before that snapshot.
   */
  function Resolve(m: map<ObjKey, Obj>, name: string, snap: Snap): (r: Option<ObjKey>)
    ensures r.Some? ==> r.value in m && (r.value == ObjKey(name, snap) || r.value == ObjKey(name, Head))
    ensures ObjKey(name, snap) in m ==> r == Some(ObjKey(name, snap))
    ensures snap.SnapId? && ObjKey(name, snap) !in m ==>
              (r.Some? <==> ObjKey(name, Head) in m && !m[ObjKey(name, Head)].whiteout
                            && m[ObjKey(name, Head)].writeSeq < snap.id)
    ensures snap == Head ==> (r.Some? <==> ObjKey(name, Head) in m)
  {
    var head := ObjKey(name, Head);
    match snap
    case Head => if head in m then Some(head) else None
    case SnapId(id) =>
      if ObjKey(name, snap) in m then Some(ObjKey(name, snap))
      else if head in m && !m[head].whiteout && m[head].writeSeq < id then Some(head)
      else None
  }

  /** A clean whiteout: the cache's record that the object does not exist. */
  const ABSENT: Obj := Obj([], 0, 0, false, true)

  /** Every entry of `m` is still in `m'`, unchanged. */
  predicate Keeps(m: map<ObjKey, Obj>, m': map<ObjKey, Obj>)
  {
    forall k :: k in m ==> k in m' && m'[k] == m[k]
  }

  /**
   * Promotion: copy the addressed revision from the base pool into the cache,
   * clean, under a key the cache does not hold yet; a head missing from the
   * base pool is recorded as a whiteout. When the base pool answers a
   * snapshot with its head but the cache holds a head written at or after
   * that snapshot, the base head is what the snapshot saw, and it becomes
   * that snapshot's clone in the cache; a cached whiteout older than the
   * snapshot (the object was removed before it) stops the promotion.
   */
  function Promote(s: Store, name: string, snap: Snap): (s': Store)
    ensures s' == s.(cache := s'.cache)
    ensures Keeps(s.cache, s'.cache)
    ensures forall k :: k in s'.cache && k !in s.cache ==> k.name == name
  {
    var head := ObjKey(name, Head);
    var r := Resolve(s.base, name, snap);
    if r.None? then
      if snap == Head && head !in s.cache then s.(cache := s.cache[head := ABSENT]) else s
    else if r.value !in s.cache then s.(cache := s.cache[r.value := s.base[r.value].(dirty := false)])
    else match snap
      case Head => s
      case SnapId(id) =>
        if ObjKey(name, snap) !in s.cache && s.cache[head].writeSeq >= id
        then s.(cache := s.cache[ObjKey(name, snap) := s.base[r.value].(dirty := false)])
        else s
  }

  /** The store a request for `name` at `snap` sees once any promotion is done. */
  function Prepare(s: Store, pool: Pool, name: string, snap: Snap, flags: OpFlags): (s': Store)
    ensures s' == s.(cache := s'.cache)
    ensures Keeps(s.cache, s'.cache)
    ensures !Promotes(s, Route(s, pool, flags), flags) || Resolve(s.cache, name, snap).Some? ==> s' == s
  {
    var t := Route(s, pool, flags);
    if Promotes(s, t, flags) && Resolve(s.cache, name, snap).None? then Promote(s, name, snap) else s
  }

  /** A read: the store after it, the byte count or -ENOENT, the bytes and the object's version. */
  datatype ReadResult = ReadResult(s: Store, r: int, bytes: seq<char>, version: nat)

  function ReadStep(s: Store, pool: Pool, name: string, snap: Snap, off: nat, len: nat, flags: OpFlags): (rd: ReadResult)
    ensures rd.s == s.(cache := rd.s.cache) && Keeps(s.cache, rd.s.cache)
    ensures rd.r == -ENOENT || rd.r == |rd.bytes|
    ensures rd.r == -ENOENT ==> rd.bytes == [] && rd.version == 0
    ensures len > 0 ==> |rd.bytes| <= len
  {
    var s1 := Prepare(s, pool, name, snap, flags);
    var m := PoolMap(s1, Route(s, pool, flags));
    var k := Resolve(m, name, snap);
    if k.None? || m[k.value].whiteout then ReadResult(s1, -ENOENT, [], 0)
    else
      var b := ReadRange(m[k.value].data, off, len);
      ReadResult(s1, |b|, b, m[k.value].version)
  }

  /** is_dirty: the store after it, 0 or -ENOENT, the dirty flag and the object's version. */
  datatype DirtyResult = DirtyResult(s: Store, r: int, dirty: bool, version: nat)

  function IsDirtyStep(s: Store, pool: Pool, name: string, flags: OpFlags): (d: DirtyResult)
    ensures d.s == s.(cache := d.s.cache) && Keeps(s.cache, d.s.cache)
    ensures d.r == 0 || d.r == -ENOENT
    ensures d.r == -ENOENT ==> !d.dirty && d.version == 0
  {
    var s1 := Prepare(s, pool, name, Head, flags);
    var m := PoolMap(s1, Route(s, pool, flags));
    var hk := ObjKey(name, Head);
    if hk !in m || m[hk].whiteout then DirtyResult(s1, -ENOENT, false, 0)
    else DirtyResult(s1, 0, m[hk].dirty, m[hk].version)
  }

  /** Keep the head as a clone when it is written under a newer snapshot context. */
  function CloneForWrite(m: map<ObjKey, Obj>, name: string, snapc: nat): (m': map<ObjKey, Obj>)
    ensures forall k :: k in m' ==> k in m || k == ObjKey(name, SnapId(snapc))
    ensures Keeps(m - {ObjKey(name, SnapId(snapc))}, m')
    ensures var hk := ObjKey(name, Head);
            hk in m && !m[hk].whiteout && m[hk].writeSeq < snapc ==>
              ObjKey(name, SnapId(snapc)) in m' && m'[ObjKey(name, SnapId(snapc))] == m[hk]
  {
    var hk := ObjKey(name, Head);
    if hk in m && !m[hk].whiteout && snapc > m[hk].writeSeq then m[ObjKey(name, SnapId(snapc)) := m[hk]] else m
  }

  /** Store a new, dirty head with the given bytes, cloning the old one as needed. */
  function PutHead(s: Store, t: Pool, name: string, bytes: seq<char>, snapc: nat): (s': Store)
    ensures s' == WithPool(s, t, PoolMap(s', t)).(lastVersion := s.lastVersion + 1)
    ensures var m' := PoolMap(s', t);
            ObjKey(name, Head) in m' && m'[ObjKey(name, Head)].data == bytes
            && m'[ObjKey(name, Head)].version == s'.lastVersion
            && m'[ObjKey(name, Head)].dirty && !m'[ObjKey(name, Head)].whiteout
  {
    var m := PoolMap(s, t);
    var hk := ObjKey(name, Head);
    var v := s.lastVersion + 1;
    var sq := if hk in m && !m[hk].whiteout then Max(m[hk].writeSeq, snapc) else snapc;
    WithPool(s, t, CloneForWrite(m, name, snapc)[hk := Obj(bytes, v, sq, true, false)]).(lastVersion := v)
  }

  /** clear_dirty on the head of `name` in pool `t`; nothing to do when it is absent. */
  function Undirtied(s: Store, t: Pool, name: string): Store
  {
    var m := PoolMap(s, t);
    var hk := ObjKey(name, Head);
    if hk in m then WithPool(s, t, m[hk := m[hk].(dirty := false)]) else s
  }

  /**
   * Removing the head of `name` from pool `t`: -ENOENT unless it exists; a
   * cache tier keeps a dirty whiteout in its place, the base pool deletes it.
   */
  function RemoveHead(s: Store, t: Pool, name: string, snapc: nat): (res: (Store, int))
    ensures var m := PoolMap(s, t);
            res.1 == 0 <==> ObjKey(name, Head) in m && !m[ObjKey(name, Head)].whiteout
    ensures res.1 != 0 ==> res.1 == -ENOENT && res.0 == s
    ensures res.1 == 0 ==> res.0 == WithPool(s, t, PoolMap(res.0, t)).(lastVersion := s.lastVersion + 1)
    ensures var m' := PoolMap(res.0, t);
            res.1 == 0 && t == CachePool && s.tiered ==>
              ObjKey(name, Head) in m' && m'[ObjKey(name, Head)].whiteout && m'[ObjKey(name, Head)].dirty
    ensures res.1 == 0 && !(t == CachePool && s.tiered) ==> ObjKey(name, Head) !in PoolMap(res.0, t)
  {
    var m := PoolMap(s, t);
    var hk := ObjKey(name, Head);
    if hk !in m || m[hk].whiteout then (s, -ENOENT)
    else
      var v := s.lastVersion + 1;
      var m1 := CloneForWrite(m, name, snapc);
      var m2 := if t == CachePool && s.tiered
                then m1[hk := Obj([], v, Max(m[hk].writeSeq, snapc), true, true)]
                else m1 - {hk};
      (WithPool(s, t, m2).(lastVersion := v), 0)
  }

  /** The bytes of the head of `name` in `m`; none for an absent object or a whiteout. */
  function HeadData(m: map<ObjKey, Obj>, name: string): seq<char>
  {
    var hk := ObjKey(name, Head);
    if hk in m && !m[hk].whiteout then m[hk].data else []
  }

  /** The bytes a data-writing op leaves in the head, given the head's current bytes. */
  function NewBytes(op: WriteOp, cur: seq<char>): seq<char>
  {
    match op
    case OpWriteFull(b) => b
    case OpWrite(off, b) => Splice(cur, off, b)
    case OpTruncate(size) => Resize(cur, size)
    case _ => cur
  }

  /** A single write op applied in pool `t` once promotion is done. */
  function ApplyWrite(s: Store, t: Pool, name: string, op: WriteOp, snapc: nat): (res: (Store, int))
    ensures res.1 == 0 || res.1 == -ENOENT || res.1 == -EEXIST
    ensures res.1 == -ENOENT ==> op.OpRemove?
    ensures res.1 == -EEXIST ==> op.OpCreate? && op.exclusive
    ensures res.1 != 0 ==> res.0 == s
    ensures res.0 == WithPool(s, t, PoolMap(res.0, t)).(lastVersion := res.0.lastVersion)
  {
    var m := PoolMap(s, t);
    var hk := ObjKey(name, Head);
    if op.OpUndirty? then (Undirtied(s, t, name), 0)
    else if op.OpRemove? then RemoveHead(s, t, name, snapc)
    else if op.OpCreate? && op.exclusive && hk in m && !m[hk].whiteout then (s, -EEXIST)
    else (PutHead(s, t, name, NewBytes(op, HeadData(m, name)), snapc), 0)
  }

  /** operate() with a single-op write operation on `name`, under snapshot context `snapc`. */
  function OperateStep(s: Store, pool: Pool, name: string, op: WriteOp, snapc: nat, flags: OpFlags): (res: (Store, int))
    ensures res.1 == 0 || res.1 == -ENOENT || res.1 == -EEXIST
    ensures res.1 != 0 ==> res.0 == Prepare(s, pool, name, Head, flags)
    ensures Route(s, pool, flags) == CachePool ==> res.0.base == s.base
    ensures res.0.tiered == s.tiered && res.0.overlay == s.overlay && res.0.writeback == s.writeback
  {
    ApplyWrite(Prepare(s, pool, name, Head, flags), Route(s, pool, flags), name, op, snapc)
  }

  /** Whether the cache holds a clone of `name`. */
  predicate HasCachedClone(s: Store, name: string)
  {
    exists k :: k in s.cache && k.name == name && k.snap != Head
  }

  /**
   * cache_flush (and cache_try_flush, which cannot find a conflicting
   * operation here): write a dirty revision back to the base pool, or delete
   * it there for a whiteout, and mark it clean.
   */
  function FlushStep(s: Store, pool: Pool, name: string, snap: Snap, flags: OpFlags): (res: (Store, int))
    ensures res.1 == 0 || res.1 == -EINVAL || res.1 == -ENOENT
    ensures res.1 != 0 ==> res.0 == s
    ensures res.0 == s.(base := res.0.base, cache := res.0.cache) && res.0.cache.Keys == s.cache.Keys
    ensures res.1 == 0 ==> ObjKey(name, snap) in res.0.cache && !res.0.cache[ObjKey(name, snap)].dirty
  {
    var k := ObjKey(name, snap);
    if Route(s, pool, flags) != CachePool || !s.tiered then (s, -EINVAL)
    else if k !in s.cache then (s, -ENOENT)
    else if !s.cache[k].dirty then (s, 0)
    else
      var o := s.cache[k];
      var base' := if o.whiteout then s.base - {k} else s.base[k := o.(dirty := false)];
      (s.(base := base', cache := s.cache[k := o.(dirty := false)]), 0)
  }

  /** cache_evict: drop a clean revision from the cache; never a dirty one, nor a head with cached clones. */
  function EvictStep(s: Store, pool: Pool, name: string, snap: Snap, flags: OpFlags): (res: (Store, int))
    ensures res.1 == 0 || res.1 == -EINVAL || res.1 == -ENOENT || res.1 == -EBUSY
    ensures res.1 != 0 ==> res.0 == s
    ensures res.1 == 0 ==> var k := ObjKey(name, snap);
              k in s.cache && !s.cache[k].dirty && res.0 == s.(cache := s.cache - {k})
  {
    var k := ObjKey(name, snap);
    if Route(s, pool, flags) != CachePool || !s.tiered then (s, -EINVAL)
    else if k !in s.cache then (s, -ENOENT)
    else if s.cache[k].dirty then (s, -EBUSY)
    else if snap == Head && HasCachedClone(s, name) then (s, -EBUSY)
    else (s.(cache := s.cache - {k}), 0)
  }

  /** The object names a listing of `pool` returns: every head, whiteouts included. */
  function ListNames(s: Store, pool: Pool): (names: set<string>)
    ensures forall n :: n in names <==> ObjKey(n, Head) in PoolMap(s, pool)
  {
    set k | k in PoolMap(s, pool) && k.snap == Head :: k.name
  }

  /** The time windows of the archived hit sets, oldest first. */
  function HitSetWindows(hs: seq<HitSet>): (ws: seq<(int, int)>)
    ensures |ws| == |hs|
    ensures forall i :: 0 <= i < |hs| ==> ws[i] == (hs[i].start, hs[i].end)
  {
    seq(|hs|, (i: nat) requires i < |hs| => (hs[i].start, hs[i].end))
  }

  /** The archived hit set whose window holds `stamp`, if any. */
  function HitSetAt(hs: seq<HitSet>, stamp: int): (r: Option<HitSet>)
    ensures r.Some? ==> r.value in hs && r.value.start <= stamp <= r.value.end
    ensures r.None? <==> forall i :: 0 <= i < |hs| ==> !(hs[i].start <= stamp <= hs[i].end)
    decreases |hs|
  {
    if hs == [] then None
    else if hs[0].start <= stamp <= hs[0].end then Some(hs[0])
    else
      var r := HitSetAt(hs[1..], stamp);
      assert forall i :: 1 <= i < |hs| ==> hs[i] == hs[1..][i - 1];
      r
  }

  // ---- Properties of the tiering model ----

  /** Promotion keeps the store's shape. */
  lemma PrepareValid(s: Store, pool: Pool, name: string, snap: Snap, flags: OpFlags)
    requires Valid(s)
    ensures Valid(Prepare(s, pool, name, snap, flags))
  {
  }

  lemma CloneForWriteValid(s: Store, t: Pool, name: string, snapc: nat)
    requires Valid(s)
    ensures Valid(WithPool(s, t, CloneForWrite(PoolMap(s, t), name, snapc)))
  {
  }

  lemma PutHeadValid(s: Store, t: Pool, name: string, bytes: seq<char>, snapc: nat)
    requires Valid(s)
    ensures Valid(PutHead(s, t, name, bytes, snapc))
  {
    CloneForWriteValid(s, t, name, snapc);
  }

  lemma RemoveHeadValid(s: Store, t: Pool, name: string, snapc: nat)
    requires Valid(s)
    ensures Valid(RemoveHead(s, t, name, snapc).0)
  {
    CloneForWriteValid(s, t, name, snapc);
  }

  lemma WriteValid(s: Store, t: Pool, name: string, op: WriteOp, snapc: nat)
    requires Valid(s)
    ensures Valid(ApplyWrite(s, t, name, op, snapc).0)
  {
    if op.OpRemove? {
      RemoveHeadValid(s, t, name, snapc);
    } else if !op.OpUndirty? {
      PutHeadValid(s, t, name, NewBytes(op, HeadData(PoolMap(s, t), name)), snapc);
    }
  }

  /** Reads and is_dirty keep the store's shape. */
  lemma ReadsPreserveValid(s: Store, pool: Pool, name: string, snap: Snap, off: nat, len: nat, flags: OpFlags)
    requires Valid(s)
    ensures Valid(ReadStep(s, pool, name, snap, off, len, flags).s)
    ensures Valid(IsDirtyStep(s, pool, name, flags).s)
  {
    PrepareValid(s, pool, name, snap, flags);
    PrepareValid(s, pool, name, Head, flags);
  }

  /** Every write operation keeps the store's shape. */
  lemma OperatePreservesValid(s: Store, pool: Pool, name: string, op: WriteOp, snapc: nat, flags: OpFlags)
    requires Valid(s)
    ensures Valid(OperateStep(s, pool, name, op, snapc, flags).0)
  {
    PrepareValid(s, pool, name, Head, flags);
    WriteValid(Prepare(s, pool, name, Head, flags), Route(s, pool, flags), name, op, snapc);
  }

  /** Flush and evict keep the store's shape. */
  lemma CacheOpsPreserveValid(s: Store, pool: Pool, name: string, snap: Snap, flags: OpFlags)
    requires Valid(s)
    ensures Valid(FlushStep(s, pool, name, snap, flags).0)
    ensures Valid(EvictStep(s, pool, name, snap, flags).0)
  {
  }

  /** A read after write_full returns exactly the bytes written, at the write's version. */
  lemma ReadYourWrite(s: Store, pool: Pool, name: string, d: seq<char>, snapc: nat, flags: OpFlags)
    ensures var w := OperateStep(s, pool, name, OpWriteFull(d), snapc, flags);
            var rd := ReadStep(w.0, pool, name, Head, 0, 0, flags);
            w.1 == 0 && rd.r == |d| && rd.bytes == d && rd.version == w.0.lastVersion && rd.s == w.0
  {
  }

  /** Every successful write leaves the head dirty at the newest version. */
  lemma WritesMarkDirty(s: Store, pool: Pool, name: string, op: WriteOp, snapc: nat, flags: OpFlags)
    requires !op.OpUndirty? && !op.OpRemove?
    requires OperateStep(s, pool, name, op, snapc, flags).1 == 0
    ensures var s' := OperateStep(s, pool, name, op, snapc, flags).0;
            IsDirtyStep(s', pool, name, flags) == DirtyResult(s', 0, true, s'.lastVersion)
  {
  }

  /** remove succeeds exactly when the head exists (promotion done), and afterwards it is gone. */
  lemma RemoveHidesObject(s: Store, pool: Pool, name: string, snapc: nat, off: nat, len: nat, flags: OpFlags)
    ensures var s1 := Prepare(s, pool, name, Head, flags);
            var m := PoolMap(s1, Route(s, pool, flags));
            var w := OperateStep(s, pool, name, OpRemove, snapc, flags);
            && (w.1 == 0 <==> ObjectKey(name) in m && !m[ObjectKey(name)].whiteout)
            && (w.1 != 0 ==> w.1 == -ENOENT && w.0 == s1)
            && (w.1 == 0 ==> ReadStep(w.0, pool, name, Head, off, len, flags).r == -ENOENT)
  {
  }

  /** An exclusive create fails with -EEXIST exactly when the head exists, and changes nothing then. */
  lemma ExclusiveCreate(s: Store, pool: Pool, name: string, snapc: nat, flags: OpFlags)
    ensures var s1 := Prepare(s, pool, name, Head, flags);
            var m := PoolMap(s1, Route(s, pool, flags));
            var w := OperateStep(s, pool, name, OpCreate(true), snapc, flags);
            && (w.1 == -EEXIST <==> ObjectKey(name) in m && !m[ObjectKey(name)].whiteout)
            && (w.1 != -EEXIST ==> w.1 == 0)
            && (w.1 == -EEXIST ==> w.0 == s1)
  {
  }

  /** undirty is clear_dirty on the head wherever the request is served, once promotion is done; it never fails. */
  lemma UndirtyIsUndirtied(s: Store, pool: Pool, name: string, snapc: nat, flags: OpFlags)
    ensures OperateStep(s, pool, name, OpUndirty, snapc, flags)
         == (Undirtied(Prepare(s, pool, name, Head, flags), Route(s, pool, flags), name), 0)
  {
  }

  /** After undirty the store needs no promotion for `name`, and the head, if any, is clean. */
  lemma UndirtyState(s: Store, pool: Pool, name: string, snapc: nat, flags: OpFlags)
    ensures var s1 := Prepare(s, pool, name, Head, flags);
            var t := Route(s, pool, flags);
            var w := OperateStep(s, pool, name, OpUndirty, snapc, flags);
            var m := PoolMap(s1, t);
            var hk := ObjectKey(name);
            && w.1 == 0 && Route(w.0, pool, flags) == t
            && Prepare(w.0, pool, name, Head, flags) == w.0
            && PoolMap(w.0, t) == (if hk in m then m[hk := m[hk].(dirty := false)] else m)
  {
    var s1 := Prepare(s, pool, name, Head, flags);
    var t := Route(s, pool, flags);
    UndirtyIsUndirtied(s, pool, name, snapc, flags);
    if Promotes(s, t, flags) {
      assert ObjectKey(name) in s1.cache;
    }
  }

  /** undirty leaves an existing head clean with its bytes and version, and a second undirty changes nothing. */
  lemma UndirtyCleans(s: Store, pool: Pool, name: string, snapc: nat, flags: OpFlags)
    ensures var w := OperateStep(s, pool, name, OpUndirty, snapc, flags);
            var before := IsDirtyStep(s, pool, name, flags);
            var after := IsDirtyStep(w.0, pool, name, flags);
            && w.1 == 0
            && after.r == before.r
            && (after.r == 0 ==> !after.dirty && after.version == before.version)
            && OperateStep(w.0, pool, name, OpUndirty, snapc, flags) == (w.0, 0)
  {
    var hk := ObjectKey(name);
    UndirtyState(s, pool, name, snapc, flags);
    var w0 := OperateStep(s, pool, name, OpUndirty, snapc, flags).0;
    UndirtyIsUndirtied(w0, pool, name, snapc, flags);
    var m := PoolMap(w0, Route(s, pool, flags));
    if hk in m {
      assert m[hk := m[hk].(dirty := false)] == m;
    }
  }

  /** Through the overlay, writes land in the cache and leave the base pool as it was. */
  lemma OverlayWritesLeaveBase(s: Store, name: string, op: WriteOp, snapc: nat, flags: OpFlags)
    requires s.overlay && !flags.ignoreOverlay
    ensures OperateStep(s, BasePool, name, op, snapc, flags).0.base == s.base
  {
  }

  /** With IGNORE_OVERLAY a base-pool read sees the base pool's own bytes and changes nothing. */
  lemma IgnoreOverlayReadsBase(s: Store, name: string, off: nat, len: nat, flags: OpFlags)
    requires Valid(s) && flags.ignoreOverlay
    requires ObjectKey(name) in s.base
    ensures var rd := ReadStep(s, BasePool, name, Head, off, len, flags);
            rd.s == s && rd.bytes == ReadRange(s.base[ObjectKey(name)].data, off, len)
  {
  }

  /**
   * A read that misses in a writeback cache tier promotes: the cache gets a
   * clean copy of the base revision and the read returns its bytes and version.
   */
  lemma ReadMissPromotes(s: Store, pool: Pool, name: string, off: nat, len: nat, flags: OpFlags)
    requires Valid(s)
    requires Promotes(s, Route(s, pool, flags), flags)
    requires ObjectKey(name) !in s.cache && ObjectKey(name) in s.base
    ensures var rd := ReadStep(s, pool, name, Head, off, len, flags);
            var o := s.base[ObjectKey(name)];
            && rd.s.cache == s.cache[ObjectKey(name) := o.(dirty := false)]
            && rd.bytes == ReadRange(o.data, off, len) && rd.version == o.version
  {
  }

  /** A read that misses both pools records a clean whiteout in the cache and returns -ENOENT. */
  lemma ReadMissRecordsWhiteout(s: Store, pool: Pool, name: string, off: nat, len: nat, flags: OpFlags)
    requires Promotes(s, Route(s, pool, flags), flags)
    requires ObjectKey(name) !in s.cache && ObjectKey(name) !in s.base
    ensures var rd := ReadStep(s, pool, name, Head, off, len, flags);
            rd.r == -ENOENT && rd.s.cache == s.cache[ObjectKey(name) := ABSENT]
            && name in ListNames(rd.s, CachePool)
  {
  }

  /**
   * A read at any snapshot leaves a head the cache holds as it was: a later
   * head read returns what it would have returned before, so neither a dirty
   * write nor a whiteout is undone by promotion.
   */
  lemma ReadsKeepCachedHead(s: Store, pool: Pool, name: string, snap: Snap, off: nat, len: nat,
                            off2: nat, len2: nat, flags: OpFlags)
    requires Route(s, pool, flags) == CachePool && ObjectKey(name) in s.cache
    ensures var s1 := ReadStep(s, pool, name, snap, off, len, flags).s;
            var before := ReadStep(s, pool, name, Head, off2, len2, flags);
            ReadStep(s1, pool, name, Head, off2, len2, flags) == before.(s := s1)
  {
  }

  /**
   * An object whose removal the cache holds as a whiteout stays removed at
   * every later snapshot: a read there returns -ENOENT and promotes nothing.
   */
  lemma WhiteoutHidesLaterSnapshots(s: Store, pool: Pool, name: string, id: nat, off: nat, len: nat, flags: OpFlags)
    requires Route(s, pool, flags) == CachePool
    requires ObjectKey(name) in s.cache && s.cache[ObjectKey(name)].whiteout
    requires s.cache[ObjectKey(name)].writeSeq < id
    requires ObjectKey(name, SnapId(id)) !in s.cache && ObjectKey(name, SnapId(id)) !in s.base
    ensures var rd := ReadStep(s, pool, name, SnapId(id), off, len, flags);
            rd.r == -ENOENT && rd.s == s
  {
  }

  /**
   * When the cache holds a head written at or after a snapshot whose clone it
   * does not hold, and the base pool's head predates that snapshot, a read
   * there promotes the base head as the snapshot's clone and returns its bytes.
   */
  lemma SnapshotReadBehindCachedHead(s: Store, pool: Pool, name: string, id: nat, flags: OpFlags)
    requires Valid(s) && Promotes(s, Route(s, pool, flags), flags)
    requires ObjectKey(name) in s.cache && s.cache[ObjectKey(name)].writeSeq >= id
    requires ObjectKey(name, SnapId(id)) !in s.cache && ObjectKey(name, SnapId(id)) !in s.base
    requires ObjectKey(name) in s.base && s.base[ObjectKey(name)].writeSeq < id
    ensures var rd := ReadStep(s, pool, name, SnapId(id), 0, 0, flags);
            var o := s.base[ObjectKey(name)];
            && rd.s.cache == s.cache[ObjectKey(name, SnapId(id)) := o.(dirty := false)]
            && rd.bytes == o.data && rd.version == o.version
  {
  }

  /**
   * Writing a head under a snapshot context newer than its last write keeps
   * the old bytes as that snapshot's clone.
   */
  lemma SnapshotKeepsOldBytes(s: Store, name: string, op: WriteOp, snapc: nat, flags: OpFlags)
    requires Valid(s) && !s.overlay && !op.OpUndirty?
    requires ObjectKey(name) in s.base && s.base[ObjectKey(name)].writeSeq < snapc
    requires OperateStep(s, BasePool, name, op, snapc, flags).1 == 0
    ensures var s' := OperateStep(s, BasePool, name, op, snapc, flags).0;
            var rd := ReadStep(s', BasePool, name, SnapId(snapc), 0, 0, flags);
            rd.bytes == s.base[ObjectKey(name)].data && rd.s == s'
  {
    var s' := OperateStep(s, BasePool, name, op, snapc, flags).0;
    assert ObjectKey(name, SnapId(snapc)) != ObjectKey(name);
    assert ObjectKey(name, SnapId(snapc)) in s'.base;
  }

  /**
   * A successful flush of a dirty revision leaves it clean, and the base pool
   * then holds the same bytes and version, or nothing for a whiteout.
   */
  lemma FlushWritesBack(s: Store, pool: Pool, name: string, snap: Snap, flags: OpFlags)
    requires ObjectKey(name, snap) in s.cache && s.cache[ObjectKey(name, snap)].dirty
    requires FlushStep(s, pool, name, snap, flags).1 == 0
    ensures var s' := FlushStep(s, pool, name, snap, flags).0;
            var k := ObjectKey(name, snap);
            var o := s.cache[k];
            && k in s'.cache && s'.cache[k] == o.(dirty := false)
            && (o.whiteout ==> k !in s'.base)
            && (!o.whiteout ==> k in s'.base && s'.base[k] == s'.cache[k])
            && (forall j :: j != k ==> (j in s'.base <==> j in s.base) && (j in s'.cache <==> j in s.cache))
  {
  }

  /** Flush and evict report the error cases, and an error changes nothing. */
  lemma CacheOpErrors(s: Store, pool: Pool, name: string, snap: Snap, flags: OpFlags)
    ensures var f := FlushStep(s, pool, name, snap, flags);
            var e := EvictStep(s, pool, name, snap, flags);
            var k := ObjectKey(name, snap);
            && (Route(s, pool, flags) != CachePool || !s.tiered ==> f.1 == -EINVAL && e.1 == -EINVAL)
            && (Route(s, pool, flags) == CachePool && s.tiered ==>
                  (f.1 == -ENOENT <==> k !in s.cache) && (e.1 == -ENOENT <==> k !in s.cache))
            && (f.1 != 0 ==> f.0 == s) && (e.1 != 0 ==> e.0 == s)
  {
  }

  /**
   * Evict never drops a dirty revision, nor a head whose clones are cached,
   * and never touches the base pool; a successful evict removes exactly the
   * one revision.
   */
  lemma EvictKeepsDirty(s: Store, pool: Pool, name: string, snap: Snap, flags: OpFlags)
    ensures var e := EvictStep(s, pool, name, snap, flags);
            var k := ObjectKey(name, snap);
            && e.0.base == s.base
            && (k in s.cache && s.cache[k].dirty ==> e.1 != 0)
            && (snap == Head && HasCachedClone(s, name) ==> e.1 != 0)
            && (e.1 == 0 ==> e.0.cache == s.cache - {k})
  {
  }

  /**
   * After a successful flush, the head can be evicted when no clone of it is
   * cached, and a later read through the cache promotes it back with the
   * bytes and the version it had before the flush.
   */
  lemma FlushEvictRead(s: Store, name: string, flags: OpFlags)
    requires Valid(s) && s.tiered && s.writeback && !flags.ignoreCache
    requires ObjectKey(name) in s.cache && s.cache[ObjectKey(name)].dirty && !s.cache[ObjectKey(name)].whiteout
    requires !HasCachedClone(s, name)
    requires FlushStep(s, CachePool, name, Head, flags).1 == 0
    ensures var s1 := FlushStep(s, CachePool, name, Head, flags).0;
            var e := EvictStep(s1, CachePool, name, Head, flags);
            var rd := ReadStep(e.0, CachePool, name, Head, 0, 0, flags);
            var o := s.cache[ObjectKey(name)];
            && e.1 == 0 && ObjectKey(name) !in e.0.cache
            && rd.r == |o.data| && rd.bytes == o.data && rd.version == o.version
  {
  }

  /** hit_set_get finds a hit set exactly when one of the archived windows covers the stamp. */
  lemma HitSetGetAgreesWithList(hs: seq<HitSet>, stamp: int)
    ensures HitSetAt(hs, stamp).Some? <==>
      exists i :: 0 <= i < |HitSetWindows(hs)| && HitSetWindows(hs)[i].0 <= stamp <= HitSetWindows(hs)[i].1
  {
    var ws := HitSetWindows(hs);
    if i :| 0 <= i < |ws| && ws[i].0 <= stamp <= ws[i].1 {
      assert hs[i].start <= stamp <= hs[i].end;
    }
  }

  // ---- The cluster object ----

  /** The pools of a test cluster, updated in place by each request. */
  class Cluster {
    var base: map<ObjKey, Obj>
    var cache: map<ObjKey, Obj>
    var tiered: bool
    var overlay: bool
    var writeback: bool
    var lastVersion: nat
    var snapSeq: nat
    var hitSetArchive: seq<HitSet>

    function State(): Store
      reads this
    {
      Store(base, cache, tiered, overlay, writeback, lastVersion, snapSeq, hitSetArchive)
    }

    /** Two fresh pools, not yet tiered. */
    constructor ()
      ensures State() == EmptyStore()
    {
      base := map[];
      cache := map[];
      tiered := false;
      overlay := false;
      writeback := false;
      lastVersion := 0;
      snapSeq := 0;
      hitSetArchive := [];
    }

    /** `osd tier add`: the cache pool becomes a tier of the base pool. */
    method TierAdd() returns (r: int)
      modifies this
      ensures r == 0 && State() == old(State()).(tiered := true)
    {
      tiered := true;
      r := 0;
    }

    /** `osd tier set-overlay`: base-pool requests go to the cache pool. */
    method SetOverlay() returns (r: int)
      modifies this
      ensures r == 0 && State() == old(State()).(overlay := true)
    {
      overlay := true;
      r := 0;
    }

    /** `osd tier cache-mode writeback`: misses promote, writes stay in the cache. */
    method SetCacheModeWriteback() returns (r: int)
      modifies this
      ensures r == 0 && State() == old(State()).(writeback := true)
    {
      writeback := true;
      r := 0;
    }

    /** `osd tier remove-overlay`. */
    method RemoveOverlay() returns (r: int)
      modifies this
      ensures r == 0 && State() == old(State()).(overlay := false)
    {
      overlay := false;
      r := 0;
    }

    /** `osd tier remove`: the cache pool is no longer a tier, and has no cache mode. */
    method TierRemove() returns (r: int)
      modifies this
      ensures r == 0 && State() == old(State()).(tiered := false, writeback := false)
    {
      tiered := false;
      writeback := false;
      r := 0;
    }

    /** selfmanaged_snap_create: the next snapshot id. */
    method SnapCreate() returns (r: int, id: nat)
      modifies this
      ensures r == 0 && id == old(snapSeq) + 1
      ensures State() == old(State()).(snapSeq := id)
    {
      snapSeq := snapSeq + 1;
      return 0, snapSeq;
    }

    /** Promote into the cache when the request misses there. */
    method PrepareFor(pool: Pool, name: string, snap: Snap, flags: OpFlags)
      modifies this
      ensures State() == Prepare(old(State()), pool, name, snap, flags)
    {
      var t := if pool == BasePool && overlay && !flags.ignoreOverlay then CachePool else pool;
      if t == CachePool && tiered && writeback && !flags.ignoreCache && Resolve(cache, name, snap).None? {
        var head := ObjKey(name, Head);
        var r := Resolve(base, name, snap);
        if r.None? {
          if snap == Head && head !in cache {
            cache := cache[head := ABSENT];
          }
        } else if r.value !in cache {
          cache := cache[r.value := base[r.value].(dirty := false)];
        } else if snap.SnapId? && ObjKey(name, snap) !in cache && cache[head].writeSeq >= snap.id {
          cache := cache[ObjKey(name, snap) := base[r.value].(dirty := false)];
        }
      }
    }

    /** read(): `len` bytes (0: all) at `off` of `name` at `snap`. */
    method Read(pool: Pool, name: string, snap: Snap, off: nat, len: nat, flags: OpFlags)
      returns (r: int, bytes: seq<char>, version: nat)
      modifies this
      ensures var res := ReadStep(old(State()), pool, name, snap, off, len, flags);
              State() == res.s && r == res.r && bytes == res.bytes && version == res.version
    {
      var t := if pool == BasePool && overlay && !flags.ignoreOverlay then CachePool else pool;
      PrepareFor(pool, name, snap, flags);
      var m := if t == BasePool then base else cache;
      var k := Resolve(m, name, snap);
      if k.None? || m[k.value].whiteout {
        return -ENOENT, [], 0;
      }
      bytes := ReadRange(m[k.value].data, off, len);
      r := |bytes|;
      version := m[k.value].version;
    }

    /** is_dirty() on the head of `name`. */
    method IsDirty(pool: Pool, name: string, flags: OpFlags) returns (r: int, dirty: bool, version: nat)
      modifies this
      ensures var res := IsDirtyStep(old(State()), pool, name, flags);
              State() == res.s && r == res.r && dirty == res.dirty && version == res.version
    {
      var t := if pool == BasePool && overlay && !flags.ignoreOverlay then CachePool else pool;
      PrepareFor(pool, name, Head, flags);
      var m := if t == BasePool then base else cache;
      var hk := ObjKey(name, Head);
      if hk !in m || m[hk].whiteout {
        return -ENOENT, false, 0;
      }
      return 0, m[hk].dirty, m[hk].version;
    }

    /** operate() with a single write op on the head of `name`. */
    method Operate(pool: Pool, name: string, op: WriteOp, snapc: nat, flags: OpFlags) returns (r: int)
      modifies this
      ensures (State(), r) == OperateStep(old(State()), pool, name, op, snapc, flags)
    {
      var t := if pool == BasePool && overlay && !flags.ignoreOverlay then CachePool else pool;
      PrepareFor(pool, name, Head, flags);
      r := ApplyWriteIn(t, name, op, snapc);
    }

    method ApplyWriteIn(t: Pool, name: string, op: WriteOp, snapc: nat) returns (r: int)
      modifies this
      ensures (State(), r) == ApplyWrite(old(State()), t, name, op, snapc)
    {
      var m := if t == BasePool then base else cache;
      var hk := ObjKey(name, Head);
      var data := HeadData(m, name);
      match op {
        case OpUndirty =>
          UndirtyIn(t, name);
          return 0;
        case OpRemove =>
          r := RemoveIn(t, name, snapc);
          return;
        case OpCreate(exclusive) =>
          if hk in m && !m[hk].whiteout && exclusive {
            return -EEXIST;
          }
        case OpWriteFull(b) => data := b;
        case OpWrite(off, b) => data := Splice(data, off, b);
        case OpTruncate(size) => data := Resize(data, size);
      }
      PutHeadIn(t, name, data, snapc);
      r := 0;
    }

    method UndirtyIn(t: Pool, name: string)
      modifies this
      ensures State() == Undirtied(old(State()), t, name)
    {
      var hk := ObjKey(name, Head);
      if t == BasePool && hk in base {
        base := base[hk := base[hk].(dirty := false)];
      } else if t == CachePool && hk in cache {
        cache := cache[hk := cache[hk].(dirty := false)];
      }
    }

    method RemoveIn(t: Pool, name: string, snapc: nat) returns (r: int)
      modifies this
      ensures (State(), r) == RemoveHead(old(State()), t, name, snapc)
    {
      var m := if t == BasePool then base else cache;
      var hk := ObjKey(name, Head);
      if hk !in m || m[hk].whiteout {
        return -ENOENT;
      }
      var v := lastVersion + 1;
      var sq := Max(m[hk].writeSeq, snapc);
      m := CloneForWrite(m, name, snapc);
      if t == CachePool && tiered {
        m := m[hk := Obj([], v, sq, true, true)];
      } else {
        m := m - {hk};
      }
      if t == BasePool {
        base := m;
      } else {
        cache := m;
      }
      lastVersion := v;
      r := 0;
    }

    method PutHeadIn(t: Pool, name: string, data: seq<char>, snapc: nat)
      modifies this
      ensures State() == PutHead(old(State()), t, name, data, snapc)
    {
      var m := if t == BasePool then base else cache;
      var hk := ObjKey(name, Head);
      var v := lastVersion + 1;
      var sq := if hk in m && !m[hk].whiteout then Max(m[hk].writeSeq, snapc) else snapc;
      m := CloneForWrite(m, name, snapc)[hk := Obj(data, v, sq, true, false)];
      if t == BasePool {
        base := m;
      } else {
        cache := m;
      }
      lastVersion := v;
    }

    /** cache_flush / cache_try_flush on `name` at `snap`. */
    method Flush(pool: Pool, name: string, snap: Snap, flags: OpFlags) returns (r: int)
      modifies this
      ensures (State(), r) == FlushStep(old(State()), pool, name, snap, flags)
    {
      var k := ObjKey(name, snap);
      var t := if pool == BasePool && overlay && !flags.ignoreOverlay then CachePool else pool;
      if t != CachePool || !tiered {
        return -EINVAL;
      }
      if k !in cache {
        return -ENOENT;
      }
      var o := cache[k];
      if !o.dirty {
        return 0;
      }
      if o.whiteout {
        base := base - {k};
      } else {
        base := base[k := o.(dirty := false)];
      }
      cache := cache[k := o.(dirty := false)];
      r := 0;
    }

    /** cache_evict on `name` at `snap`. */
    method Evict(pool: Pool, name: string, snap: Snap, flags: OpFlags) returns (r: int)
      modifies this
      ensures (State(), r) == EvictStep(old(State()), pool, name, snap, flags)
    {
      var k := ObjKey(name, snap);
      var t := if pool == BasePool && overlay && !flags.ignoreOverlay then CachePool else pool;
      if t != CachePool || !tiered {
        return -EINVAL;
      }
      if k !in cache {
        return -ENOENT;
      }
      if cache[k].dirty || (snap == Head && HasCachedClone(State(), name)) {
        return -EBUSY;
      }
      cache := cache - {k};
      r := 0;
    }

    /** Listing the objects of `pool` (never redirected, never promoting). */
    method List(pool: Pool) returns (names: set<string>)
      ensures names == ListNames(State(), pool)
    {
      var m := if pool == BasePool then base else cache;
      names := set k | k in m && k.snap == Head :: k.name;
    }

    /** hit_set_list: the windows of the archived hit sets. */
    method HitSetList(pool: Pool) returns (r: int, windows: seq<(int, int)>)
      ensures r == 0 && windows == HitSetWindows(hitSetArchive)
    {
      windows := HitSetWindows(hitSetArchive);
      r := 0;
    }

    /** hit_set_get: the archived hit set covering `stamp`, or -ENOENT. */
    method HitSetGet(pool: Pool, stamp: int) returns (r: int, h: Option<HitSet>)
      ensures h == HitSetAt(hitSetArchive, stamp)
      ensures r == 0 <==> h.Some?
      ensures r != 0 ==> r == -ENOENT
    {
      h := HitSetAt(hitSetArchive, stamp);
      r := if h.Some? then 0 else -ENOENT;
    }
  }
}

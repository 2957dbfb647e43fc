// Object identities and hit sets shared by the OSD tiering model and the agent state.

/** The usual optional value. */
module Wrappers {
  datatype Option<+T> = None | Some(value: T)
}

module Objects {

  /** Snapshot id of an object revision: the writable head, or an immutable clone. */
  datatype Snap = Head | SnapId(id: nat)

  /** An object identity (hobject_t reduced to name and snapshot). */
  datatype ObjKey = ObjKey(name: string, snap: Snap)

  /**
   * One sealed hit set: the objects seen during the time window [start, end].
   * Only the exact (explicit object) representation is modelled.
   */
  datatype HitSet = HitSet(start: int, end: int, members: set<ObjKey>)
  {
    predicate Contains(o: ObjKey) {
      o in members
    }
  }
}

/**
 The directory of session leases and snapshots and its atomic operations
 (pkg/redisbroker/cluster_directory.go). Each transaction or script is one step.
 */
module SessionDirectories {
  import opened Options

  /** One process generation of a node. */
  datatype Owner = Owner(node: string, incarnation: string)

  /** What a lease records besides its fence. */
  datatype Info = Info(user: string, namespace: string, clientId: string, authenticated: bool,
                       connectedAt: int, lastActivityAt: int, expiresAt: int)

  datatype Lease = Lease(sid: string, owner: Owner, version: nat, info: Info)

  datatype Snapshot = Snapshot(sid: string, user: string, namespace: string, channels: seq<string>)

  datatype Store = Store(leases: map<string, Lease>, snaps: map<string, Snapshot>)

  function LeaseOf(st: Store, sid: string): Option<Lease> {
    if sid in st.leases then Some(st.leases[sid]) else None
  }

  function SnapOf(st: Store, sid: string): Option<Snapshot> {
    if sid in st.snaps then Some(st.snaps[sid]) else None
  }

  /** Every record is stored under its own session. */
  predicate Keyed(st: Store) {
    forall sid | sid in st.leases :: st.leases[sid].sid == sid
  }

  /** The compare predicate: session, owner and version, nothing else. */
  predicate SameFence(left: Option<Lease>, right: Option<Lease>) {
    if left.None? || right.None? then left.None? && right.None? else
    left.value.sid == right.value.sid && left.value.owner == right.value.owner &&
    left.value.version == right.value.version
  }

  function CasLease(st: Store, expected: Option<Lease>, desired: Lease): (Store, bool) {
    if desired.sid != "" && SameFence(LeaseOf(st, desired.sid), expected)
    then (st.(leases := st.leases[desired.sid := desired]), true) else (st, false)
  }

  /** Lease and snapshot in one step: a lost compare writes neither. */
  function CasState(st: Store, expected: Option<Lease>, desired: Lease, snap: Snapshot): (Store, bool) {
    var (st', ok) := CasLease(st, expected, desired);
    (if ok && snap.sid != "" then PutSnap(st', desired.sid, snap) else st', ok)
  }

  function PutSnap(st: Store, sid: string, snap: Snapshot): Store {
    st.(snaps := st.snaps[sid := snap])
  }

  function DropLease(st: Store, sid: string): Store {
    st.(leases := st.leases - {sid})
  }

  function DropSnap(st: Store, sid: string): Store {
    st.(snaps := st.snaps - {sid})
  }

  /** Deletes the lease only while it names the given owner. */
  function DropLeaseIfOwner(st: Store, sid: string, owner: Owner): (Store, bool) {
    if sid != "" && owner.node != "" && owner.incarnation != "" &&
       LeaseOf(st, sid).Some? && LeaseOf(st, sid).value.owner == owner
    then (DropLease(st, sid), true) else (st, false)
  }

  class Directory {
    var leases: map<string, Lease>
    var snaps: map<string, Snapshot>

    ghost function Contents(): Store
      reads this
    {
      Store(leases, snaps)
    }

    ghost predicate Valid()
      reads this
    {
      Keyed(Contents())
    }

    constructor ()
      ensures Valid() && Contents() == Store(map[], map[])
    {
      leases, snaps := map[], map[];
    }

    method GetSessionLease(sid: string) returns (lease: Option<Lease>)
      requires Valid()
      ensures lease == if sid == "" then None else LeaseOf(Contents(), sid)
    {
      if sid == "" || sid !in leases {
        return None;
      }
      return Some(leases[sid]);
    }

    method CompareAndSwapSessionLease(expected: Option<Lease>, desired: Lease) returns (ok: bool)
      requires Valid()
      modifies this
      ensures Valid()
      ensures (Contents(), ok) == old(CasLease(Contents(), expected, desired))
    {
      if desired.sid == "" {
        return false;
      }
      var current := GetSessionLease(desired.sid);
      if !SameFence(current, expected) {
        return false;
      }
      leases := leases[desired.sid := desired];
      return true;
    }

    method CompareAndSwapSessionState(expected: Option<Lease>, desired: Lease, snap: Snapshot) returns (ok: bool)
      requires Valid()
      modifies this
      ensures Valid()
      ensures (Contents(), ok) == old(CasState(Contents(), expected, desired, snap))
    {
      ok := CompareAndSwapSessionLease(expected, desired);
      if ok && snap.sid != "" {
        snaps := snaps[desired.sid := snap];
      }
    }

    method DeleteSessionLeaseIfOwner(sid: string, owner: Owner) returns (deleted: bool)
      requires Valid()
      modifies this
      ensures Valid()
      ensures (Contents(), deleted) == old(DropLeaseIfOwner(Contents(), sid, owner))
    {
      if sid == "" || owner.node == "" || owner.incarnation == "" {
        return false;
      }
      var current := GetSessionLease(sid);
      if current.None? || current.value.owner != owner {
        return false;
      }
      leases := leases - {sid};
      return true;
    }

    method DeleteSessionSnapshot(sid: string)
      requires Valid()
      modifies this`snaps
      ensures Valid()
      ensures Contents() == old(if sid == "" then Contents() else DropSnap(Contents(), sid))
    {
      if sid != "" {
        snaps := snaps - {sid};
      }
    }
  }
}

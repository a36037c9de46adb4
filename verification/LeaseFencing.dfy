/**
 Session-lease fencing across nodes (internal/runtime/cluster_state.go,
 internal/runtime/cluster_resume.go, internal/runtime/cluster_repair.go).

 Refreshes, remote resumes with their rollbacks, closes and repairs run as
 operations on one shared directory. Every Get, compare-and-swap and delete is
 a step of its own, and steps of any number of operations by any number of
 nodes interleave freely; an operation may be abandoned between two steps.
 What a node holds locally (its version, its activity times, its channels) is
 left free, so the results hold whatever the nodes believe.
 */
module LeaseFencing {
  import opened Options
  import opened SessionDirectories
  import opened NodeEpochs
  import opened Decimals

  /** Which extensions the directory offers; the Redis directory offers both. */
  datatype Mode = Mode(atomicState: bool, ownerDelete: bool)

  /** One operation in flight, with what it has read so far. */
  datatype Op =
    | RefreshWant(node: Owner, desired: Lease, snap: Snapshot)
    | RefreshCas(node: Owner, desired: Lease, snap: Snapshot, expected: Option<Lease>)
    | RefreshPut(node: Owner, desired: Lease, snap: Snapshot)
    | ResumeWant(node: Owner, sid: string, user: string, namespace: string)
    | ResumeSnap(node: Owner, original: Lease, namespace: string)
    | ResumeClaim(node: Owner, original: Lease, desired: Lease)
    | ResumeTakeover(node: Owner, original: Lease, desired: Lease)
    | ResumeRollback(node: Owner, original: Lease, desired: Lease)
    | CloseWant(node: Owner, sid: string)
    | CloseDelete(node: Owner, sid: string)
    | CloseSnap(node: Owner, sid: string)
    | RepairDelete(dead: Owner, pending: set<string>)

  /** What the environment decides at a step: clocks, the end of a new lease, the takeover call, the next scan entry. */
  datatype Choice = Choice(now: int, until: int, unexpired: bool, takeover: Takeover, sid: string)

  /** The takeover call, and on failure what looking up the old node's lease found. */
  datatype Takeover = TakenOver | FailedOwnerAlive | FailedLookup | FailedOwnerDead

  /** written collects the leases stored by refreshes and claims. */
  datatype State = State(store: Store, ops: map<nat, Op>, written: set<Lease>)

  datatype Event =
    | BeginRefresh(id: nat, node: Owner, sid: string, localVersion: nat, info: Info, channels: seq<string>)
    | BeginResume(id: nat, node: Owner, sid: string, user: string, namespace: string)
    | BeginClose(id: nat, node: Owner, sid: string)
    | BeginRepair(id: nat, dead: Owner, scanned: set<string>)
    | Advance(id: nat, choice: Choice)
    | Abandon(id: nat)
    | ExpireLease(sid: string)
    | ExpireSnapshot(sid: string)

  const INIT := State(Store(map[], map[]), map[], {})

  /** Versions are 64-bit. */
  function Bump(version: nat): nat {
    (version + 1) % TWO64
  }

  /** A session's first lease has version 1. */
  function DesiredLease(node: Owner, sid: string, localVersion: nat, info: Info): Lease {
    Lease(sid, node, if localVersion == 0 then 1 else localVersion, info)
  }

  /** The lease a resume claims with: the next version of the record it read, under the new owner. */
  function ClaimedLease(node: Owner, original: Lease, namespace: string, now: int,
                        until: int): Lease {
    var info := original.info.(lastActivityAt := now, expiresAt := until);
    Lease(original.sid, node, Bump(original.version),
          if info.namespace == "" then info.(namespace := namespace) else info)
  }

  /** One step of one operation: the new store, what remains of the operation, and the lease it wrote. */
  datatype Outcome = Outcome(store: Store, rest: Option<Op>, wrote: Option<Lease>)

  function Stop(st: Store): Outcome { Outcome(st, None, None) }

  function Then(st: Store, op: Op): Outcome { Outcome(st, Some(op), None) }

  function StepOp(m: Mode, st: Store, op: Op, c: Choice): Outcome {
    match op
    case RefreshWant(node, desired, snap) =>
      var current := LeaseOf(st, desired.sid);
      if current.None? then Then(st, RefreshCas(node, desired, snap, None))
      else if current.value.owner != node then Stop(st)
      else if current.value.version > desired.version then Stop(st)
      else Then(st, RefreshCas(node, desired, snap, current))
    case RefreshCas(node, desired, snap, expected) =>
      if m.atomicState then
        var (st', ok) := CasState(st, expected, desired, snap);
        Outcome(st', None, if ok then Some(desired) else None)
      else
        var (st', ok) := CasLease(st, expected, desired);
        Outcome(st', if ok then Some(RefreshPut(node, desired, snap)) else None, if ok then Some(desired) else None)
    case RefreshPut(node, desired, snap) =>
      Stop(if snap.sid != "" then PutSnap(st, snap.sid, snap) else st)
    case ResumeWant(node, sid, user, namespace) =>
      var lease := LeaseOf(st, sid);
      if sid == "" || lease.None? then Stop(st)
      else if user != "" && lease.value.info.user != "" && user != lease.value.info.user then Stop(st)
      else if namespace != "" && lease.value.info.namespace != "" && namespace != lease.value.info.namespace then
        Stop(st)
      else Then(st, ResumeSnap(node, lease.value, namespace))
    case ResumeSnap(node, original, namespace) =>
      if SnapOf(st, original.sid).None? then Stop(st)
      else Then(st, ResumeClaim(node, original, ClaimedLease(node, original, namespace, c.now, c.until)))
    case ResumeClaim(node, original, desired) =>
      var (st', ok) := CasLease(st, Some(original), desired);
      if !ok then Stop(st)
      else Outcome(st', if NeedsTakeover(node, original) then Some(ResumeTakeover(node, original, desired)) else None,
                   Some(desired))
    case ResumeTakeover(node, original, desired) =>
      if c.takeover == FailedOwnerAlive || c.takeover == FailedLookup
      then Then(st, ResumeRollback(node, original, desired)) else Stop(st)
    case ResumeRollback(node, original, desired) =>
      Stop(CasLease(st, Some(desired), original).0)
    case CloseWant(node, sid) =>
      var lease := LeaseOf(st, sid);
      if sid == "" then Stop(st)
      else if lease.Some? && c.unexpired && lease.value.owner != Owner("", "") && lease.value.owner != node then
        Stop(st)
      else Then(st, CloseDelete(node, sid))
    case CloseDelete(node, sid) =>
      Then(if m.ownerDelete then DropLeaseIfOwner(st, sid, node).0 else DropLease(st, sid), CloseSnap(node, sid))
    case CloseSnap(node, sid) =>
      Stop(DropSnap(st, sid))
    case RepairDelete(dead, pending) =>
      if c.sid !in pending then Stop(st)
      else Then(if m.ownerDelete then DropLeaseIfOwner(st, c.sid, dead).0 else DropLease(st, c.sid),
                RepairDelete(dead, pending - {c.sid}))
  }

  /** A takeover call is made unless the recorded owner is this process or an older generation of it. */
  predicate NeedsTakeover(node: Owner, original: Lease) {
    var old_ := original.owner;
    old_.node != "" && old_.incarnation != "" && old_ != node &&
    !(old_.node == node.node && NodeEpochNewer(node.incarnation, old_.incarnation))
  }

  function Next(m: Mode, s: State, e: Event): State {
    match e
    case BeginRefresh(id, node, sid, localVersion, info, channels) =>
      Begin(s, id, RefreshWant(node, DesiredLease(node, sid, localVersion, info),
                               Snapshot(sid, info.user, info.namespace, channels)))
    case BeginResume(id, node, sid, user, namespace) => Begin(s, id, ResumeWant(node, sid, user, namespace))
    case BeginClose(id, node, sid) => Begin(s, id, CloseWant(node, sid))
    case BeginRepair(id, dead, scanned) => Begin(s, id, RepairDelete(dead, scanned))
    case Advance(id, choice) =>
      if id !in s.ops then s else
      var o := StepOp(m, s.store, s.ops[id], choice);
      State(o.store, if o.rest.Some? then s.ops[id := o.rest.value] else s.ops - {id},
            if o.wrote.Some? then s.written + {o.wrote.value} else s.written)
    case Abandon(id) => s.(ops := s.ops - {id})
    case ExpireLease(sid) => s.(store := DropLease(s.store, sid))
    case ExpireSnapshot(sid) => s.(store := DropSnap(s.store, sid))
  }

  function Begin(s: State, id: nat, op: Op): State {
    if id in s.ops then s else s.(ops := s.ops[id := op])
  }

  function Run(m: Mode, s: State, es: seq<Event>): State {
    if es == [] then s else Next(m, Run(m, s, es[..|es| - 1]), es[|es| - 1])
  }

  // -------------------------------------------------------------- invariant

  /** What an operation in flight has read and means to write. */
  predicate OpOk(op: Op, written: set<Lease>) {
    match op
    case RefreshWant(node, desired, snap) => desired.owner == node && snap.sid == desired.sid
    case RefreshCas(node, desired, snap, expected) =>
      desired.owner == node && snap.sid == desired.sid &&
      (expected.Some? ==> expected.value.owner == node && expected.value.version <= desired.version)
    case RefreshPut(node, desired, snap) => desired.owner == node && snap.sid == desired.sid
    case ResumeSnap(node, original, namespace) => original in written
    case ResumeClaim(node, original, desired) => original in written && Claims(node, original, desired)
    case ResumeTakeover(node, original, desired) => original in written && Claims(node, original, desired)
    case ResumeRollback(node, original, desired) => original in written && Claims(node, original, desired)
    case _ => true
  }

  predicate Claims(node: Owner, original: Lease, desired: Lease) {
    desired.sid == original.sid && desired.owner == node && desired.version == Bump(original.version) &&
    desired.info.user == original.info.user &&
    (original.info.namespace != "" ==> desired.info.namespace == original.info.namespace)
  }

  predicate Inv(s: State) {
    Keyed(s.store) &&
    (forall sid | sid in s.store.leases :: s.store.leases[sid] in s.written) &&
    (forall id | id in s.ops :: OpOk(s.ops[id], s.written))
  }

  lemma {:induction false} OpOkMonotone(op: Op, written: set<Lease>, more: set<Lease>)
    requires OpOk(op, written) && written <= more
    ensures OpOk(op, more)
  {}

  /** The outcome of a step keeps the store keyed, and stores only what its node wrote or a lease written before. */
  predicate Sound(op: Op, written: set<Lease>, o: Outcome) {
    var more := if o.wrote.Some? then written + {o.wrote.value} else written;
    Keyed(o.store) && (o.rest.Some? ==> OpOk(o.rest.value, more)) &&
    (forall sid | sid in o.store.leases :: o.store.leases[sid] in more) &&
    (o.wrote.Some? ==> (op.RefreshCas? || op.ResumeClaim?) && o.wrote.value.owner == op.node)
  }

  lemma {:induction false} RefreshSound(m: Mode, st: Store, op: Op, c: Choice, written: set<Lease>)
    requires Keyed(st) && (forall sid | sid in st.leases :: st.leases[sid] in written) && OpOk(op, written)
    requires op.RefreshWant? || op.RefreshCas? || op.RefreshPut?
    ensures Sound(op, written, StepOp(m, st, op, c))
  {
  }

  lemma {:induction false} ResumeSound(m: Mode, st: Store, op: Op, c: Choice, written: set<Lease>)
    requires Keyed(st) && (forall sid | sid in st.leases :: st.leases[sid] in written) && OpOk(op, written)
    requires op.ResumeWant? || op.ResumeSnap? || op.ResumeClaim? || op.ResumeTakeover? || op.ResumeRollback?
    ensures Sound(op, written, StepOp(m, st, op, c))
  {
  }

  lemma {:induction false} DeleteSound(m: Mode, st: Store, op: Op, c: Choice, written: set<Lease>)
    requires Keyed(st) && (forall sid | sid in st.leases :: st.leases[sid] in written) && OpOk(op, written)
    requires op.CloseWant? || op.CloseDelete? || op.CloseSnap? || op.RepairDelete?
    ensures Sound(op, written, StepOp(m, st, op, c))
  {
  }

  lemma {:induction false} StepOpSound(m: Mode, s: State, id: nat, c: Choice)
    requires Inv(s) && id in s.ops
    ensures Sound(s.ops[id], s.written, StepOp(m, s.store, s.ops[id], c))
  {
    var op := s.ops[id];
    assert OpOk(op, s.written);
    if op.RefreshWant? || op.RefreshCas? || op.RefreshPut? {
      RefreshSound(m, s.store, op, c, s.written);
    } else if op.CloseWant? || op.CloseDelete? || op.CloseSnap? || op.RepairDelete? {
      DeleteSound(m, s.store, op, c, s.written);
    } else {
      ResumeSound(m, s.store, op, c, s.written);
    }
  }

  lemma {:induction false} NextKeepsInv(m: Mode, s: State, e: Event)
    requires Inv(s)
    ensures Inv(Next(m, s, e))
  {
    var s' := Next(m, s, e);
    if e.Advance? && e.id in s.ops {
      StepOpSound(m, s, e.id, e.choice);
      forall k | k in s'.ops ensures OpOk(s'.ops[k], s'.written) {
        if k != e.id { OpOkMonotone(s.ops[k], s.written, s'.written); }
      }
    }
  }

  lemma {:induction false} RunKeepsInv(m: Mode, s: State, es: seq<Event>)
    requires Inv(s)
    ensures Inv(Run(m, s, es))
  {
    if es != [] {
      RunKeepsInv(m, s, es[..|es| - 1]);
      NextKeepsInv(m, Run(m, s, es[..|es| - 1]), es[|es| - 1]);
    }
  }

  // ---------------------------------------------------------------- fencing

  /**
   The step undoes a fence: the lease of sid expires, is deleted, is rolled back,
   or is claimed from the last 64-bit version. A delete that the owner check
   refuses, or a compare that fails, resets nothing.
   */
  predicate Resets(m: Mode, s: State, e: Event, sid: string) {
    match e
    case ExpireLease(x) => x == sid
    case Advance(id, c) =>
      id in s.ops &&
      (match s.ops[id]
       case ResumeRollback(_, original, desired) =>
         original.sid == sid && SameFence(LeaseOf(s.store, sid), Some(desired))
       case ResumeClaim(_, original, _) =>
         original.sid == sid && original.version + 1 >= TWO64 && SameFence(LeaseOf(s.store, sid), Some(original))
       case CloseDelete(node, x) => x == sid && (m.ownerDelete ==> DropLeaseIfOwner(s.store, sid, node).1)
       case RepairDelete(dead, pending) =>
         c.sid == sid && sid in pending && (m.ownerDelete ==> DropLeaseIfOwner(s.store, sid, dead).1)
       case _ => false)
    case _ => false
  }

  /** The step is a refresh of any session by any node. */
  predicate Refreshes(s: State, e: Event) {
    e.Advance? && e.id in s.ops &&
    (s.ops[e.id].RefreshWant? || s.ops[e.id].RefreshCas? || s.ops[e.id].RefreshPut?)
  }

  /**
   One step on an existing lease: without a reset the lease stays, its version
   does not fall, a new owner has a strictly larger version; and a refresh
   never changes the owner.
   */
  lemma {:induction false} FencingStep(m: Mode, s: State, e: Event, sid: string)
    requires Inv(s) && LeaseOf(s.store, sid).Some? && !Resets(m, s, e, sid)
    ensures FencedStep(s, Next(m, s, e), sid, Refreshes(s, e))
  {
    if e.Advance? && e.id in s.ops {
      var op := s.ops[e.id];
      assert OpOk(op, s.written) && s.store.leases[sid].sid == sid;
      if op.RefreshWant? || op.RefreshCas? || op.RefreshPut? {
        RefreshIsFenced(m, s, e, sid);
      } else if op.CloseWant? || op.CloseDelete? || op.CloseSnap? || op.RepairDelete? {
        DeleteIsFenced(m, s, e, sid);
      } else {
        ResumeIsFenced(m, s, e, sid);
      }
    }
  }

  /** The lease is still there, its version no smaller, and larger under a new owner, whom a refresh never brings. */
  predicate FencedStep(s: State, n: State, sid: string, refresh: bool) {
    LeaseOf(s.store, sid).Some? && LeaseOf(n.store, sid).Some? &&
    var before, after := LeaseOf(s.store, sid).value, LeaseOf(n.store, sid).value;
    after.version >= before.version && (after.owner != before.owner ==> after.version > before.version && !refresh)
  }

  lemma {:induction false} RefreshIsFenced(m: Mode, s: State, e: Event, sid: string)
    requires e.Advance? && e.id in s.ops && OpOk(s.ops[e.id], s.written)
    requires LeaseOf(s.store, sid).Some? && LeaseOf(s.store, sid).value.sid == sid
    requires var op := s.ops[e.id]; op.RefreshWant? || op.RefreshCas? || op.RefreshPut?
    ensures FencedStep(s, Next(m, s, e), sid, true)
  {
  }

  lemma {:induction false} ResumeIsFenced(m: Mode, s: State, e: Event, sid: string)
    requires e.Advance? && e.id in s.ops && OpOk(s.ops[e.id], s.written) && !Resets(m, s, e, sid)
    requires LeaseOf(s.store, sid).Some? && LeaseOf(s.store, sid).value.sid == sid
    requires var op := s.ops[e.id];
             op.ResumeWant? || op.ResumeSnap? || op.ResumeClaim? || op.ResumeTakeover? || op.ResumeRollback?
    ensures FencedStep(s, Next(m, s, e), sid, false)
  {
  }

  lemma {:induction false} DeleteIsFenced(m: Mode, s: State, e: Event, sid: string)
    requires e.Advance? && e.id in s.ops && !Resets(m, s, e, sid) && LeaseOf(s.store, sid).Some?
    requires var op := s.ops[e.id]; op.CloseWant? || op.CloseDelete? || op.CloseSnap? || op.RepairDelete?
    ensures FencedStep(s, Next(m, s, e), sid, false)
  {
  }

  /** No event of the run resets the lease of sid. */
  predicate ResetFree(m: Mode, s: State, es: seq<Event>, sid: string) {
    forall i | 0 <= i < |es| :: !Resets(m, Run(m, s, es[..i]), es[i], sid)
  }

  lemma {:induction false} ResetFreePrefix(m: Mode, s: State, es: seq<Event>, sid: string)
    requires es != [] && ResetFree(m, s, es, sid)
    ensures ResetFree(m, s, es[..|es| - 1], sid)
    ensures !Resets(m, Run(m, s, es[..|es| - 1]), es[|es| - 1], sid)
  {
    var init := es[..|es| - 1];
    assert forall i | 0 <= i < |init| :: init[..i] == es[..i];
  }

  /**
   Over any interleaving between resets the version never falls, and within
   one version there is one owner.
   */
  lemma {:induction false} FencingRun(m: Mode, s: State, es: seq<Event>, sid: string)
    requires Inv(s) && LeaseOf(s.store, sid).Some? && ResetFree(m, s, es, sid)
    ensures var before, after := LeaseOf(s.store, sid).value, LeaseOf(Run(m, s, es).store, sid);
            after.Some? && after.value.version >= before.version &&
            (after.value.version == before.version ==> after.value.owner == before.owner)
    decreases |es|
  {
    if es != [] {
      var init := es[..|es| - 1];
      ResetFreePrefix(m, s, es, sid);
      FencingRun(m, s, init, sid);
      RunKeepsInv(m, s, init);
      FencingStep(m, Run(m, s, init), es[|es| - 1], sid);
    }
  }

  /**
   A fenced node cannot write back. A refresh of sid read its own lease (state
   s); later another owner held the lease (after es), and no reset undid that
   (fs). Whatever else happened, the refresh's compare-and-swap now writes
   nothing: neither the lease nor, with an atomic directory, the snapshot.
   */
  lemma {:induction false} FencedRefreshWritesNothing(m: Mode, s: State, es: seq<Event>, fs: seq<Event>, id: nat,
                                                      c: Choice)
    requires Inv(s) && id in s.ops && s.ops[id].RefreshCas? && s.ops[id].expected.Some?
    requires var sid := s.ops[id].desired.sid;
             SameFence(LeaseOf(s.store, sid), s.ops[id].expected) &&
             ResetFree(m, s, es, sid) && ResetFree(m, Run(m, s, es), fs, sid)
    requires LeaseOf(Run(m, s, es).store, s.ops[id].desired.sid).Some? ==>
               LeaseOf(Run(m, s, es).store, s.ops[id].desired.sid).value.owner != s.ops[id].node
    requires id in Run(m, Run(m, s, es), fs).ops && Run(m, Run(m, s, es), fs).ops[id] == s.ops[id]
    ensures var t := Run(m, Run(m, s, es), fs);
            Next(m, t, Advance(id, c)).store == t.store
  {
    var sid := s.ops[id].desired.sid;
    assert OpOk(s.ops[id], s.written);
    FencingRun(m, s, es, sid);
    RunKeepsInv(m, s, es);
    FencingRun(m, Run(m, s, es), fs, sid);
  }

  // ---------------------------------------------------- snapshots and deletes

  /** The state between the two writes of a fallback refresh; an atomic directory never enters it. */
  predicate Unsplit(s: State) {
    forall id | id in s.ops :: !s.ops[id].RefreshPut?
  }

  lemma {:induction false} UnsplitStep(m: Mode, s: State, e: Event)
    requires m.atomicState && Unsplit(s)
    ensures Unsplit(Next(m, s, e))
  {}

  lemma {:induction false} UnsplitRun(m: Mode, es: seq<Event>)
    requires m.atomicState
    ensures Unsplit(Run(m, INIT, es))
  {
    if es != [] {
      UnsplitRun(m, es[..|es| - 1]);
      UnsplitStep(m, Run(m, INIT, es[..|es| - 1]), es[|es| - 1]);
    }
  }

  /**
   With an atomic directory, in every run, a step that stores a snapshot leaves
   the lease of that session naming the step's node.
   */
  lemma {:induction false} SnapshotWriterOwnsLease(m: Mode, es: seq<Event>, e: Event, sid: string)
    requires m.atomicState
    requires var s := Run(m, INIT, es);
             SnapOf(Next(m, s, e).store, sid).Some? && SnapOf(Next(m, s, e).store, sid) != SnapOf(s.store, sid)
    ensures var s := Run(m, INIT, es);
            e.Advance? && e.id in s.ops && s.ops[e.id].RefreshCas? &&
            LeaseOf(Next(m, s, e).store, sid).Some? &&
            LeaseOf(Next(m, s, e).store, sid).value.owner == s.ops[e.id].node
  {
    var s := Run(m, INIT, es);
    RunKeepsInv(m, INIT, es);
    UnsplitRun(m, es);
    if e.Advance? && e.id in s.ops {
      assert OpOk(s.ops[e.id], s.written);
    }
  }

  /** A run, one event longer. */
  lemma {:induction false} Extend(m: Mode, es: seq<Event>, s: State, e: Event, n: State) returns (more: seq<Event>)
    requires Run(m, INIT, es) == s && Next(m, s, e) == n
    ensures Run(m, INIT, more) == n
  {
    more := es + [e];
    assert more[..|es|] == es;
  }

  const SOME: Choice := Choice(0, 0, true, TakenOver, "")

  /** A node that has refreshed a session once, from the start. */
  function Refreshed(node: Owner, sid: string, info: Info, channels: seq<string>): State {
    var lease := DesiredLease(node, sid, 1, info);
    State(Store(map[sid := lease], map[sid := Snapshot(sid, info.user, info.namespace, channels)]), map[], {lease})
  }

  lemma {:induction false} FirstRefresh(m: Mode, node: Owner, sid: string, info: Info, channels: seq<string>)
    returns (es: seq<Event>)
    requires sid != ""
    ensures Run(m, INIT, es) == Refreshed(node, sid, info, channels)
  {
    var lease, snap := DesiredLease(node, sid, 1, info), Snapshot(sid, info.user, info.namespace, channels);
    var want, cas := RefreshWant(node, lease, snap), RefreshCas(node, lease, snap, None);
    var s1 := State(Store(map[], map[]), map[0 := want], {});
    var s2 := State(Store(map[], map[]), map[0 := cas], {});
    es := Extend(m, [], INIT, BeginRefresh(0, node, sid, 1, info, channels), s1);
    es := Extend(m, es, s1, Advance(0, SOME), s2);
    if m.atomicState {
      es := Extend(m, es, s2, Advance(0, SOME), Refreshed(node, sid, info, channels));
    } else {
      var s3 := State(Store(map[sid := lease], map[]), map[0 := RefreshPut(node, lease, snap)], {lease});
      es := Extend(m, es, s2, Advance(0, SOME), s3);
      es := Extend(m, es, s3, Advance(0, SOME), Refreshed(node, sid, info, channels));
    }
  }

  /** Beside whatever another operation of id 0 is about, a second node claims the session. */
  lemma {:induction false} Claimed(m: Mode, es: seq<Event>, s: State, node: Owner, sid: string)
    returns (more: seq<Event>)
    requires Run(m, INIT, es) == s && sid != "" && 1 !in s.ops && sid in s.store.leases && sid in s.store.snaps
    requires s.store.leases[sid].sid == sid
    ensures 0 in s.ops ==> 0 in Run(m, INIT, more).ops && Run(m, INIT, more).ops[0] == s.ops[0]
    ensures LeaseOf(Run(m, INIT, more).store, sid) == Some(ClaimedLease(node, s.store.leases[sid], "", 0, 0))
    ensures Run(m, INIT, more).store.snaps == s.store.snaps
  {
    var original := s.store.leases[sid];
    var desired := ClaimedLease(node, original, "", 0, 0);
    var s1 := s.(ops := s.ops[1 := ResumeWant(node, sid, "", "")]);
    var s2 := s.(ops := s.ops[1 := ResumeSnap(node, original, "")]);
    var s3 := s.(ops := s.ops[1 := ResumeClaim(node, original, desired)]);
    more := Extend(m, es, s, BeginResume(1, node, sid, "", ""), s1);
    assert s1.ops[1 := ResumeSnap(node, original, "")] == s2.ops;
    more := Extend(m, more, s1, Advance(1, SOME), s2);
    assert s2.ops[1 := ResumeClaim(node, original, desired)] == s3.ops;
    more := Extend(m, more, s2, Advance(1, SOME), s3);
    more := Extend(m, more, s3, Advance(1, SOME), Next(m, s3, Advance(1, SOME)));
  }

  predicate StoresSnapshot(m: Mode, s: State, e: Event, sid: string) {
    SnapOf(Next(m, s, e).store, sid).Some? && SnapOf(Next(m, s, e).store, sid) != SnapOf(s.store, sid)
  }

  predicate WriterOwns(m: Mode, s: State, e: Event, sid: string) {
    e.Advance? && e.id in s.ops && !s.ops[e.id].RepairDelete? && LeaseOf(Next(m, s, e).store, sid).Some? &&
    LeaseOf(Next(m, s, e).store, sid).value.owner == s.ops[e.id].node
  }

  /** In every run a step that stores a snapshot leaves the lease of that session naming the step's node. */
  ghost predicate SnapshotsAreOwned(m: Mode) {
    forall es, e, sid :: StoresSnapshot(m, Run(m, INIT, es), e, sid) ==> WriterOwns(m, Run(m, INIT, es), e, sid)
  }

  /**
   Without it the property fails: between the two writes of a refresh another
   node claims the lease, and the refresh then stores its snapshot over a
   session it no longer owns.
   */
  lemma {:induction false} TwoStepRefreshCanOverwrite(m: Mode, a: Owner, b: Owner, sid: string, info: Info)
    returns (es: seq<Event>, e: Event)
    requires !m.atomicState && a != b && sid != ""
    ensures StoresSnapshot(m, Run(m, INIT, es), e, sid) && !WriterOwns(m, Run(m, INIT, es), e, sid)
    ensures LeaseOf(Next(m, Run(m, INIT, es), e).store, sid).Some?
    ensures LeaseOf(Next(m, Run(m, INIT, es), e).store, sid).value.owner == b
  {
    var none: seq<string> := [];
    es := FirstRefresh(m, a, sid, info, none);
    var s0 := Refreshed(a, sid, info, none);
    var lease, snap := DesiredLease(a, sid, 1, info), Snapshot(sid, info.user, info.namespace, ["x"]);
    var s1 := s0.(ops := map[0 := RefreshWant(a, lease, snap)]);
    var s2 := s0.(ops := map[0 := RefreshCas(a, lease, snap, Some(lease))]);
    var s3 := s0.(ops := map[0 := RefreshPut(a, lease, snap)]);
    es := Extend(m, es, s0, BeginRefresh(0, a, sid, 1, info, ["x"]), s1);
    es := Extend(m, es, s1, Advance(0, SOME), s2);
    assert map[sid := lease][sid := lease] == map[sid := lease] && {lease} + {lease} == {lease};
    es := Extend(m, es, s2, Advance(0, SOME), s3);
    es := Claimed(m, es, s3, b, sid);
    e := Advance(0, SOME);
    OverwriteByPut(m, Run(m, INIT, es), a, b, sid, snap);
  }

  lemma {:induction false} OverwriteByPut(m: Mode, s: State, a: Owner, b: Owner, sid: string, snap: Snapshot)
    requires 0 in s.ops && s.ops[0].RefreshPut? && s.ops[0].node == a != b && s.ops[0].snap == snap && snap.sid == sid
    requires sid != "" && SnapOf(s.store, sid).Some? && SnapOf(s.store, sid).value.channels != snap.channels
    requires LeaseOf(s.store, sid).Some? && LeaseOf(s.store, sid).value.owner == b
    ensures var e := Advance(0, SOME);
            StoresSnapshot(m, s, e, sid) && !WriterOwns(m, s, e, sid) &&
            LeaseOf(Next(m, s, e).store, sid) == LeaseOf(s.store, sid)
  {
  }

  const NODE_A := Owner("a", "1")
  const NODE_B := Owner("b", "1")
  const SOMEONE := Info("", "", "", false, 0, 0, 0)

  /** Snapshots are owned in every run exactly with the atomic directory. */
  lemma {:induction false} SnapshotsAreOwnedIff(m: Mode)
    ensures SnapshotsAreOwned(m) <==> m.atomicState
  {
    if m.atomicState {
      forall es, e, sid | StoresSnapshot(m, Run(m, INIT, es), e, sid) ensures WriterOwns(m, Run(m, INIT, es), e, sid) {
        SnapshotWriterOwnsLease(m, es, e, sid);
      }
    } else {
      var es, e := TwoStepRefreshCanOverwrite(m, NODE_A, NODE_B, "s", SOMEONE);
      assert !WriterOwns(m, Run(m, INIT, es), e, "s");
    }
  }

  /**
   A close deletes only its own node's lease and a repairer only the departed
   incarnation's, whatever stale scan or read either acts on.
   */
  lemma {:induction false} DeletesAreOwnerExact(m: Mode, s: State, e: Event, sid: string)
    requires Inv(s) && m.ownerDelete && Drops(m, s, e, sid)
    ensures OwnDrop(s, e, sid)
  {
    if e.Advance? && e.id in s.ops {
      assert OpOk(s.ops[e.id], s.written);
    }
  }

  /** The lease of sid was there before the step and is not after it. */
  predicate Drops(m: Mode, s: State, e: Event, sid: string) {
    LeaseOf(s.store, sid).Some? && LeaseOf(Next(m, s, e).store, sid).None?
  }

  /** It expired, its own node closed the session, or its own incarnation is repaired. */
  predicate OwnDrop(s: State, e: Event, sid: string)
    requires LeaseOf(s.store, sid).Some?
  {
    e == ExpireLease(sid) ||
    (e.Advance? && e.id in s.ops &&
     ((s.ops[e.id].CloseDelete? && LeaseOf(s.store, sid).value.owner == s.ops[e.id].node) ||
      (s.ops[e.id].RepairDelete? && LeaseOf(s.store, sid).value.owner == s.ops[e.id].dead)))
  }

  /** In every run a lease goes by expiry, by a close of its own node or by repair of its own incarnation. */
  ghost predicate DropsAreOwn(m: Mode) {
    forall es, e, sid :: Drops(m, Run(m, INIT, es), e, sid) ==> OwnDrop(Run(m, INIT, es), e, sid)
  }

  /**
   With plain deletes the property fails: a close reads its own lease, another
   node claims the session, and the close then deletes the new owner's lease.
   */
  lemma {:induction false} PlainDeleteCanUnfence(m: Mode, a: Owner, b: Owner, sid: string, info: Info)
    returns (es: seq<Event>, e: Event)
    requires !m.ownerDelete && a != b && sid != ""
    ensures Drops(m, Run(m, INIT, es), e, sid) && !OwnDrop(Run(m, INIT, es), e, sid)
    ensures LeaseOf(Run(m, INIT, es).store, sid).value.owner == b
  {
    es := FirstRefresh(m, a, sid, info, []);
    var s0 := Refreshed(a, sid, info, []);
    var s1 := s0.(ops := map[0 := CloseWant(a, sid)]);
    var s2 := s0.(ops := map[0 := CloseDelete(a, sid)]);
    es := Extend(m, es, s0, BeginClose(0, a, sid), s1);
    es := Extend(m, es, s1, Advance(0, SOME), s2);
    es := Claimed(m, es, s2, b, sid);
    e := Advance(0, SOME);
    UnfencedByClose(m, Run(m, INIT, es), a, b, sid);
  }

  lemma {:induction false} UnfencedByClose(m: Mode, s: State, a: Owner, b: Owner, sid: string)
    requires !m.ownerDelete && 0 in s.ops && s.ops[0] == CloseDelete(a, sid) && a != b
    requires LeaseOf(s.store, sid).Some? && LeaseOf(s.store, sid).value.owner == b
    ensures var e := Advance(0, SOME); Drops(m, s, e, sid) && !OwnDrop(s, e, sid)
  {
  }

  /** Leases are dropped only by their own in every run exactly with the owner-checked delete. */
  lemma {:induction false} DropsAreOwnIff(m: Mode)
    ensures DropsAreOwn(m) <==> m.ownerDelete
  {
    if m.ownerDelete {
      forall es, e, sid | Drops(m, Run(m, INIT, es), e, sid) ensures OwnDrop(Run(m, INIT, es), e, sid) {
        RunKeepsInv(m, INIT, es);
        DeletesAreOwnerExact(m, Run(m, INIT, es), e, sid);
      }
    } else {
      var es, e := PlainDeleteCanUnfence(m, NODE_A, NODE_B, "s", SOMEONE);
      assert Drops(m, Run(m, INIT, es), e, "s");
    }
  }

  // ------------------------------------------------------ provenance, rollback

  /**
   Over all runs the directory only ever holds leases that the node they name
   wrote: no refresh, resume, rollback or repair forges one.
   */
  lemma {:induction false} LeasesAreAuthored(m: Mode, es: seq<Event>, sid: string)
    requires LeaseOf(Run(m, INIT, es).store, sid).Some?
    ensures exists i :: AuthoredAt(m, es, LeaseOf(Run(m, INIT, es).store, sid).value, i)
  {
    RunKeepsInv(m, INIT, es);
    var _ := WrittenWasAuthored(m, es, LeaseOf(Run(m, INIT, es).store, sid).value);
  }

  /** The i-th event is a CAS of the lease's own node and stores it. */
  predicate AuthoredAt(m: Mode, es: seq<Event>, l: Lease, i: nat) {
    i < |es| && es[i].Advance? &&
    var s := Run(m, INIT, es[..i]);
    es[i].id in s.ops && (s.ops[es[i].id].RefreshCas? || s.ops[es[i].id].ResumeClaim?) &&
    s.ops[es[i].id].node == l.owner && LeaseOf(Run(m, INIT, es[..i + 1]).store, l.sid) == Some(l)
  }

  lemma {:induction false} WrittenWasAuthored(m: Mode, es: seq<Event>, l: Lease) returns (i: nat)
    requires l in Run(m, INIT, es).written
    ensures AuthoredAt(m, es, l, i)
    decreases |es|
  {
    var n := |es| - 1;
    var s, e := Run(m, INIT, es[..n]), es[n];
    if l in s.written {
      i := WrittenWasAuthored(m, es[..n], l);
      assert es[..n][..i] == es[..i] && es[..n][..i + 1] == es[..i + 1];
    } else {
      i := n;
      RunKeepsInv(m, INIT, es[..n]);
      assert es[..n + 1] == es;
      NewlyWritten(m, s, e, l);
    }
  }

  lemma {:induction false} NewlyWritten(m: Mode, s: State, e: Event, l: Lease)
    requires Inv(s) && l in Next(m, s, e).written && l !in s.written
    ensures e.Advance? && e.id in s.ops && (s.ops[e.id].RefreshCas? || s.ops[e.id].ResumeClaim?)
    ensures s.ops[e.id].node == l.owner && LeaseOf(Next(m, s, e).store, l.sid) == Some(l)
  {
    assert e.Advance? && e.id in s.ops;
    StepOpSound(m, s, e.id, e.choice);
    assert OpOk(s.ops[e.id], s.written);
  }

  /**
   Rolling a failed takeover back puts the very record the resume had read in
   its place, provided the claim is still what fences the session; otherwise
   it changes nothing.
   */
  lemma {:induction false} RollbackReturnsTheReadLease(m: Mode, s: State, id: nat, c: Choice)
    requires Inv(s) && id in s.ops && s.ops[id].ResumeRollback? && s.ops[id].original.sid != ""
    ensures var op, t := s.ops[id], Next(m, s, Advance(id, c)).store;
            if SameFence(LeaseOf(s.store, op.original.sid), Some(op.desired))
            then LeaseOf(t, op.original.sid) == Some(op.original) else t == s.store
  {
    assert OpOk(s.ops[id], s.written);
  }

  /** The steps of one resume whose takeover call fails while the old owner is alive. */
  function FailingResume(id: nat, node: Owner, sid: string, user: string, namespace: string, c: Choice): seq<Event> {
    var failing := c.(takeover := FailedOwnerAlive);
    [BeginResume(id, node, sid, user, namespace)] + seq(5, i => Advance(id, failing))
  }

  /** A first event and then n times another. */
  function Repeated(m: Mode, s: State, e: Event, again: Event, n: nat): State {
    if n == 0 then Next(m, s, e) else Next(m, Repeated(m, s, e, again, n - 1), again)
  }

  lemma {:induction false} RunRepeats(m: Mode, s: State, e: Event, again: Event, n: nat)
    ensures Run(m, s, [e] + seq(n, i => again)) == Repeated(m, s, e, again, n)
    decreases n
  {
    var es := [e] + seq(n, i => again);
    if n == 0 {
      assert es[..0] == [] && Run(m, s, []) == s;
    } else {
      RunRepeats(m, s, e, again, n - 1);
      assert es[..n] == [e] + seq(n - 1, i => again);
    }
  }

  /**
   A resume that fails leaves no trace: undisturbed, its claim, its failed
   takeover and its rollback give back the directory it found, lease and
   snapshot of every session, unless no takeover was needed.
   */
  lemma {:induction false} FailedResumeLeavesNoTrace(m: Mode, s: State, id: nat, node: Owner, sid: string, user: string,
                                                     namespace: string, c: Choice)
    requires Inv(s) && id !in s.ops
    requires LeaseOf(s.store, sid).Some? ==> NeedsTakeover(node, LeaseOf(s.store, sid).value)
    ensures Run(m, s, FailingResume(id, node, sid, user, namespace, c)).store == s.store
  {
    var failing := c.(takeover := FailedOwnerAlive);
    var begin, again := BeginResume(id, node, sid, user, namespace), Advance(id, failing);
    RunRepeats(m, s, begin, again, 5);
    var s1 := Next(m, s, begin);
    var s2 := Next(m, s1, again);
    var s3 := Next(m, s2, again);
    var s4 := Next(m, s3, again);
    var s5 := Next(m, s4, again);
    var s6 := Next(m, s5, again);
    assert Repeated(m, s, begin, again, 0) == s1;
    assert Repeated(m, s, begin, again, 1) == s2;
    assert Repeated(m, s, begin, again, 2) == s3;
    assert Repeated(m, s, begin, again, 3) == s4;
    assert Repeated(m, s, begin, again, 4) == s5;
    assert Repeated(m, s, begin, again, 5) == s6;
    SixStepsLeaveNoTrace(m, s, id, node, sid, user, namespace, failing);
  }

  lemma {:induction false} SixStepsLeaveNoTrace(m: Mode, s: State, id: nat, node: Owner, sid: string, user: string,
                                                namespace: string, failing: Choice)
    requires Inv(s) && id !in s.ops && failing.takeover == FailedOwnerAlive
    requires LeaseOf(s.store, sid).Some? ==> NeedsTakeover(node, LeaseOf(s.store, sid).value)
    ensures var a := Advance(id, failing);
            var s3 := Next(m, Next(m, Next(m, s, BeginResume(id, node, sid, user, namespace)), a), a);
            Next(m, Next(m, Next(m, s3, a), a), a).store == s.store
  {
    var a := Advance(id, failing);
    var s3 := Next(m, Next(m, Next(m, s, BeginResume(id, node, sid, user, namespace)), a), a);
    assert s3.store == s.store;
    if id in s3.ops {
      assert s3.ops[id].ResumeClaim? && s3.ops[id].node == node && LeaseOf(s.store, sid) == Some(s3.ops[id].original);
      assert s.store.leases[sid].sid == sid;
      ClaimIsRolledBack(m, s3, id, failing);
    }
  }

  /** Claim, failed takeover, rollback, with nothing in between. */
  lemma {:induction false} ClaimIsRolledBack(m: Mode, s: State, id: nat, failing: Choice)
    requires id in s.ops && s.ops[id].ResumeClaim? && failing.takeover == FailedOwnerAlive
    requires var op := s.ops[id];
             NeedsTakeover(op.node, op.original) && LeaseOf(s.store, op.original.sid) == Some(op.original) &&
             op.desired.sid == op.original.sid
    ensures var a := Advance(id, failing); Next(m, Next(m, Next(m, s, a), a), a).store == s.store
  {
    var a, op := Advance(id, failing), s.ops[id];
    var s1 := Next(m, s, a);
    if id in s1.ops {
      assert s1.store.leases == s.store.leases[op.original.sid := op.desired];
      assert s1.store.leases[op.original.sid := op.original] == s.store.leases;
    }
  }
}

/**
 Who may resume a session on another node, and what each operation on the
 directory does when nothing disturbs it (internal/runtime/cluster_resume.go,
 internal/runtime/cluster_state.go, internal/runtime/cluster_repair.go).
 */
module LeaseOperations {
  import opened Options
  import opened Decimals
  import opened SessionDirectories
  import opened LeaseFencing
  import opened NodeEpochs

  /** A session is resumed only by its owner; a user or namespace that is not known on either side does not bind. */
  predicate MayResume(user: string, namespace: string, info: Info) {
    (user == "" || info.user == "" || user == info.user) &&
    (namespace == "" || info.namespace == "" || namespace == info.namespace)
  }

  /** What a resume begun by b stores after reading a lease: the next version, for its own node, all else kept. */
  predicate IsClaim(claim: Lease, b: Event, read: Lease)
    requires b.BeginResume?
  {
    claim.sid == b.sid && claim.owner == b.node && claim.version == (read.version + 1) % TWO64 &&
    claim.info.user == read.info.user && claim.info.clientId == read.info.clientId &&
    claim.info.authenticated == read.info.authenticated && claim.info.connectedAt == read.info.connectedAt &&
    claim.info.namespace == if read.info.namespace == "" then b.namespace else read.info.namespace
  }

  // ------------------------------------------------------- over every run

  /** Operation id was begun by the k-th event and has been in flight ever since. */
  predicate BegunAt(m: Mode, es: seq<Event>, id: nat, k: nat) {
    k < |es| && id !in Run(m, INIT, es[..k]).ops && forall j | k < j <= |es| :: id in Run(m, INIT, es[..j]).ops
  }

  /** What a resume past its first step carries: the lease it read and the claim it means to store. */
  predicate Carries(op: Op, b: Event, read: Lease)
    requires b.BeginResume?
  {
    match op
    case ResumeSnap(node, original, namespace) => node == b.node && original == read && namespace == b.namespace
    case ResumeClaim(node, original, desired) => node == b.node && original == read && IsClaim(desired, b, read)
    case ResumeTakeover(node, original, desired) => node == b.node && original == read && IsClaim(desired, b, read)
    case ResumeRollback(node, original, desired) => node == b.node && original == read && IsClaim(desired, b, read)
    case _ => false
  }

  /** The lease a resume begun by b read as the r-th event happened, and was entitled to. */
  predicate ReadAt(m: Mode, es: seq<Event>, b: Event, r: nat)
    requires b.BeginResume?
  {
    r < |es| && Entitled(b, LeaseOf(Run(m, INIT, es[..r]).store, b.sid))
  }

  /** The first step of a resume reads a lease it is entitled to, or ends it. */
  lemma {:induction false} FirstStepReads(m: Mode, st: Store, b: Event, c: Choice)
    requires b.BeginResume?
    ensures var o := StepOp(m, st, ResumeWant(b.node, b.sid, b.user, b.namespace), c);
            o.rest.Some? ==>
              LeaseOf(st, b.sid).Some? && MayResume(b.user, b.namespace, LeaseOf(st, b.sid).value.info) &&
              Carries(o.rest.value, b, LeaseOf(st, b.sid).value)
  {
  }

  lemma {:induction false} LaterStepsCarry(m: Mode, st: Store, op: Op, c: Choice, b: Event, read: Lease)
    requires b.BeginResume? && read.sid == b.sid && Carries(op, b, read)
    ensures var o := StepOp(m, st, op, c); o.rest.Some? ==> Carries(o.rest.value, b, read)
  {
  }

  lemma {:induction false} BegunEarlier(m: Mode, es: seq<Event>, id: nat, k: nat)
    requires BegunAt(m, es, id, k) && k < |es| - 1
    ensures BegunAt(m, es[..|es| - 1], id, k)
  {
    var init := es[..|es| - 1];
    assert init[..k] == es[..k];
    forall j | k < j <= |init| ensures id in Run(m, INIT, init[..j]).ops {
      assert init[..j] == es[..j];
    }
  }

  /** Where a resume is: at its start, or past it with the lease it read. */
  predicate Stands(op: Op, b: Event, read: Option<Lease>)
    requires b.BeginResume?
  {
    if read.None? then op == ResumeWant(b.node, b.sid, b.user, b.namespace) else Carries(op, b, read.value)
  }

  predicate Entitled(b: Event, lease: Option<Lease>)
    requires b.BeginResume?
  {
    lease.Some? && MayResume(b.user, b.namespace, lease.value.info)
  }

  /** One step of anything: the resume stays where it is, or reads a lease it is entitled to. */
  lemma {:induction false} ResumeMoves(m: Mode, s: State, e: Event, id: nat, b: Event, read: Option<Lease>)
    requires b.BeginResume? && id in s.ops && id in Next(m, s, e).ops && Stands(s.ops[id], b, read)
    requires read.Some? ==> read.value.sid == b.sid
    ensures Stands(Next(m, s, e).ops[id], b, read) ||
            (read.None? && Entitled(b, LeaseOf(s.store, b.sid)) &&
             Stands(Next(m, s, e).ops[id], b, LeaseOf(s.store, b.sid)))
  {
    if e.Advance? && e.id == id {
      if read.None? {
        FirstStepReads(m, s.store, b, e.choice);
      } else {
        LaterStepsCarry(m, s.store, s.ops[id], e.choice, b, read.value);
      }
    }
  }

  /** The resume begun by b is at its start, or carries the lease it read, entitled, as the r-th event happened. */
  predicate Reached(m: Mode, es: seq<Event>, id: nat, b: Event, k: nat, r: nat)
    requires b.BeginResume?
  {
    id in Run(m, INIT, es).ops &&
    var op := Run(m, INIT, es).ops[id];
    if op.ResumeWant? then op == ResumeWant(b.node, b.sid, b.user, b.namespace)
    else k < r && ReadAt(m, es, b, r) && Carries(op, b, LeaseOf(Run(m, INIT, es[..r]).store, b.sid).value)
  }

  lemma {:induction false} ReachedStep(m: Mode, es: seq<Event>, id: nat, b: Event, k: nat, before: nat) returns (r: nat)
    requires k < |es| - 1 && b.BeginResume? && Reached(m, es[..|es| - 1], id, b, k, before)
    requires id in Run(m, INIT, es).ops
    ensures Reached(m, es, id, b, k, r)
  {
    var n := |es| - 1;
    var init := es[..n];
    var s := Run(m, INIT, init);
    if s.ops[id].ResumeWant? {
      ResumeMoves(m, s, es[n], id, b, None);
      r := n;
    } else {
      RunKeepsInv(m, INIT, init[..before]);
      assert init[..before] == es[..before];
      ResumeMoves(m, s, es[n], id, b, LeaseOf(Run(m, INIT, init[..before]).store, b.sid));
      r := before;
    }
  }

  lemma {:induction false} ResumeReads(m: Mode, es: seq<Event>, id: nat, k: nat) returns (r: nat)
    requires BegunAt(m, es, id, k) && es[k].BeginResume?
    ensures Reached(m, es, id, es[k], k, r)
    decreases |es|
  {
    var n := |es| - 1;
    assert es[..n + 1] == es && id in Run(m, INIT, es[..n + 1]).ops;
    r := n;
    if k < n {
      BegunEarlier(m, es, id, k);
      var before := ResumeReads(m, es[..n], id, k);
      r := ReachedStep(m, es, id, es[k], k, before);
    }
  }

  /**
   The owner rule of a remote resume, in every run: when a resume changes a lease,
   it is the lease of the session it asked for; the requester was entitled to the
   lease stored there when the resume read it; and what is stored now is its claim
   on that lease or, taken back, that very lease.
   */
  lemma {:induction false} ResumesAreByOwners(m: Mode, es: seq<Event>, id: nat, k: nat, c: Choice, sid: string)
    returns (r: nat)
    requires BegunAt(m, es, id, k) && es[k].BeginResume?
    requires LeaseOf(Next(m, Run(m, INIT, es), Advance(id, c)).store, sid) != LeaseOf(Run(m, INIT, es).store, sid)
    ensures sid == es[k].sid && k < r && ReadAt(m, es, es[k], r)
    ensures var read, after := LeaseOf(Run(m, INIT, es[..r]).store, sid),
                               LeaseOf(Next(m, Run(m, INIT, es), Advance(id, c)).store, sid);
            after.Some? && (after == read || IsClaim(after.value, es[k], read.value))
  {
    r := ResumeReads(m, es, id, k);
    RunKeepsInv(m, INIT, es);
    var s := Run(m, INIT, es);
    if s.ops[id].ResumeWant? {
      assert false;
    }
    RunKeepsInv(m, INIT, es[..r]);
    CarriedStores(m, s.store, s.ops[id], c, es[k], LeaseOf(Run(m, INIT, es[..r]).store, es[k].sid).value, sid);
  }

  lemma {:induction false} CarriedStores(m: Mode, st: Store, op: Op, c: Choice, b: Event, read: Lease, sid: string)
    requires b.BeginResume? && read.sid == b.sid && Carries(op, b, read)
    requires LeaseOf(StepOp(m, st, op, c).store, sid) != LeaseOf(st, sid)
    ensures sid == b.sid
    ensures var after := LeaseOf(StepOp(m, st, op, c).store, sid);
            after == Some(read) || (after.Some? && IsClaim(after.value, b, read))
  {
  }

  // ------------------------------------------------------------- undisturbed

  /** Nothing but the records of sid differs. */
  ghost predicate OnlyAt(st: Store, t: Store, sid: string) {
    forall x | x != sid :: LeaseOf(t, x) == LeaseOf(st, x) && SnapOf(t, x) == SnapOf(st, x)
  }

  /** An operation begun by b and advanced n times with nothing in between. */
  function Alone(m: Mode, s: State, b: Event, id: nat, c: Choice, n: nat): State {
    Run(m, s, [b] + seq(n, i => Advance(id, c)))
  }

  lemma {:induction false} AloneIs(m: Mode, s: State, b: Event, id: nat, c: Choice)
    ensures var a := Advance(id, c); Alone(m, s, b, id, c, 3) == Next(m, Next(m, Next(m, Next(m, s, b), a), a), a)
  {
    var a := Advance(id, c);
    RunRepeats(m, s, b, a, 3);
    assert [b] + seq(3, i => a) == [b] + seq(3, i => Advance(id, c));
    assert Repeated(m, s, b, a, 1) == Next(m, Next(m, s, b), a);
    assert Repeated(m, s, b, a, 2) == Next(m, Next(m, Next(m, s, b), a), a);
  }

  /**
   An undisturbed resume claims the session iff the session has a lease and a
   snapshot and the requester is entitled to the lease; otherwise nothing changes.
   */
  lemma {:induction false} ResumeClaimsIff(m: Mode, s: State, id: nat, node: Owner, sid: string, user: string,
                                           namespace: string, c: Choice)
    requires Inv(s) && id !in s.ops
    ensures var b := BeginResume(id, node, sid, user, namespace);
            var t, lease := Alone(m, s, b, id, c, 3).store, LeaseOf(s.store, sid);
            if sid != "" && lease.Some? && SnapOf(s.store, sid).Some? && MayResume(user, namespace, lease.value.info)
            then t.snaps == s.store.snaps && OnlyAt(s.store, t, sid) &&
                 LeaseOf(t, sid).Some? && IsClaim(LeaseOf(t, sid).value, b, lease.value) &&
                 LeaseOf(t, sid).value.info.lastActivityAt == c.now && LeaseOf(t, sid).value.info.expiresAt == c.until
            else t == s.store
  {
    var b := BeginResume(id, node, sid, user, namespace);
    AloneIs(m, s, b, id, c);
  }

  /** node is a newer generation of old: the same node name with larger printed epochs. */
  ghost predicate Succeeds(node: Owner, old_: Owner) {
    node.node == old_.node &&
    exists x, y :: 0 < y < x < TWO64 && node.incarnation == FormatNodeEpoch(x) && old_.incarnation == FormatNodeEpoch(y)
  }

  /** Somebody else may still serve the session: another incarnation is on record, and this node does not succeed it. */
  ghost predicate OtherMayServe(node: Owner, old_: Owner) {
    old_.node != "" && old_.incarnation != "" && old_ != node && !Succeeds(node, old_)
  }

  lemma {:induction false} NeedsTakeoverIff(node: Owner, original: Lease)
    ensures NeedsTakeover(node, original) <==> OtherMayServe(node, original.owner)
  {
    NewerIff(node.incarnation, original.owner.incarnation);
  }

  lemma {:induction false} FiveAlone(m: Mode, s: State, b: Event, id: nat, c: Choice)
    ensures var a := Advance(id, c); Alone(m, s, b, id, c, 5) == Next(m, Next(m, Alone(m, s, b, id, c, 3), a), a)
  {
    var a := Advance(id, c);
    RunRepeats(m, s, b, a, 3);
    RunRepeats(m, s, b, a, 5);
    assert [b] + seq(3, i => a) == [b] + seq(3, i => Advance(id, c));
    assert [b] + seq(5, i => a) == [b] + seq(5, i => Advance(id, c));
    assert Repeated(m, s, b, a, 4) == Next(m, Repeated(m, s, b, a, 3), a);
    assert Repeated(m, s, b, a, 5) == Next(m, Repeated(m, s, b, a, 4), a);
  }

  /**
   How an undisturbed resume ends. The claim stands unless somebody else may still
   serve the session and the takeover call fails while the old node is alive or
   cannot be looked up; then the directory is exactly as before.
   */
  lemma {:induction false} ResumeEnds(m: Mode, s: State, id: nat, node: Owner, sid: string, user: string,
                                      namespace: string, c: Choice)
    requires Inv(s) && id !in s.ops
    ensures var b := BeginResume(id, node, sid, user, namespace);
            var claimed, lease := Alone(m, s, b, id, c, 3).store, LeaseOf(s.store, sid);
            Alone(m, s, b, id, c, 5).store ==
                 if lease.Some? && OtherMayServe(node, lease.value.owner) && c.takeover !in {TakenOver, FailedOwnerDead}
                 then s.store else claimed
  {
    var b := BeginResume(id, node, sid, user, namespace);
    AloneIs(m, s, b, id, c);
    FiveAlone(m, s, b, id, c);
    if LeaseOf(s.store, sid).Some? {
      NeedsTakeoverIff(node, LeaseOf(s.store, sid).value);
    }
    var a := Advance(id, c);
    var s2 := Next(m, Next(m, s, b), a);
    var s3 := Next(m, s2, a);
    assert s3.store == s.store;
    if id in s3.ops {
      assert s3.ops[id].ResumeClaim? && s3.ops[id].node == node && LeaseOf(s.store, sid) == Some(s3.ops[id].original);
      assert s.store.leases[sid].sid == sid && s3.ops[id].desired.sid == sid;
      ClaimEnds(m, s3, id, c);
    }
  }

  /** Claim, takeover call, rollback, with nothing in between. */
  lemma {:induction false} ClaimEnds(m: Mode, s: State, id: nat, c: Choice)
    requires id in s.ops && s.ops[id].ResumeClaim?
    requires var op := s.ops[id];
             LeaseOf(s.store, op.original.sid) == Some(op.original) && op.desired.sid == op.original.sid
    ensures var a, op := Advance(id, c), s.ops[id];
            var s1 := Next(m, s, a);
            Next(m, Next(m, s1, a), a).store ==
            if NeedsTakeover(op.node, op.original) && c.takeover !in {TakenOver, FailedOwnerDead} then s.store
            else s1.store
  {
    var a, op := Advance(id, c), s.ops[id];
    var s1 := Next(m, s, a);
    if id in s1.ops {
      assert s1.store.leases == s.store.leases[op.original.sid := op.desired];
      assert s1.store.leases[op.original.sid := op.original] == s.store.leases;
    }
  }

  /**
   An undisturbed close by a node that is not fenced off removes the snapshot and
   the lease, the lease only if it is the node's own where deletes check the owner;
   a fenced close changes nothing.
   */
  lemma {:induction false} CloseRemoves(m: Mode, s: State, id: nat, node: Owner, sid: string, c: Choice)
    requires Inv(s) && id !in s.ops
    ensures var t, lease := Alone(m, s, BeginClose(id, node, sid), id, c, 3).store, LeaseOf(s.store, sid);
            if sid == "" || (lease.Some? && c.unexpired && lease.value.owner !in {Owner("", ""), node})
            then t == s.store
            else OnlyAt(s.store, t, sid) && SnapOf(t, sid).None? &&
                 LeaseOf(t, sid) == if m.ownerDelete && lease.Some? &&
                                       (lease.value.owner != node || node.node == "" || node.incarnation == "")
                                    then lease else None
  {
    AloneIs(m, s, BeginClose(id, node, sid), id, c);
  }

  /**
   An undisturbed refresh stores its lease and its snapshot iff the session has no
   lease, or one of the same node that is not newer; a session's first version is 1.
   */
  lemma {:induction false} RefreshStoresIff(m: Mode, s: State, id: nat, node: Owner, sid: string, version: nat,
                                            info: Info, channels: seq<string>, c: Choice)
    requires Inv(s) && id !in s.ops
    ensures var b := BeginRefresh(id, node, sid, version, info, channels);
            var t, lease := Alone(m, s, b, id, c, 3).store, LeaseOf(s.store, sid);
            var wanted := if version == 0 then 1 else version;
            if sid != "" && (lease.None? || (lease.value.owner == node && lease.value.version <= wanted))
            then OnlyAt(s.store, t, sid) && LeaseOf(t, sid) == Some(Lease(sid, node, wanted, info)) &&
                 SnapOf(t, sid) == Some(Snapshot(sid, info.user, info.namespace, channels))
            else t == s.store
  {
    AloneIs(m, s, BeginRefresh(id, node, sid, version, info, channels), id, c);
  }

  /** A repair advanced once for each of some scanned sessions. */
  function Repaired(m: Mode, s: State, id: nat, dead: Owner, scanned: set<string>, c: Choice, xs: seq<string>): State {
    if xs == [] then Next(m, s, BeginRepair(id, dead, scanned))
    else Next(m, Repaired(m, s, id, dead, scanned, c, xs[..|xs| - 1]), Advance(id, c.(sid := xs[|xs| - 1])))
  }

  predicate Distinct(xs: seq<string>) {
    forall i, j | 0 <= i < j < |xs| :: xs[i] != xs[j]
  }

  /** The lease is the one a delete that checks the owner would drop. */
  predicate Names(lease: Lease, owner: Owner) {
    lease.sid != "" && owner.node != "" && owner.incarnation != "" && lease.owner == owner
  }

  lemma {:induction false} RepairStep(m: Mode, s: State, id: nat, dead: Owner, pending: set<string>, c: Choice,
                                      sid: string)
    requires id in s.ops && s.ops[id] == RepairDelete(dead, pending) && c.sid in pending
    requires Keyed(s.store)
    ensures Keyed(Next(m, s, Advance(id, c)).store)
    ensures var t, lease := Next(m, s, Advance(id, c)), LeaseOf(s.store, sid);
            id in t.ops && t.ops[id] == RepairDelete(dead, pending - {c.sid}) && t.store.snaps == s.store.snaps &&
            LeaseOf(t.store, sid) ==
              if sid == c.sid && lease.Some? && (m.ownerDelete ==> Names(lease.value, dead)) then None else lease
  {
  }

  /**
   An undisturbed repair drops, of the sessions it got to, the leases of the departed
   incarnation where deletes check the owner, and nothing else.
   */
  lemma {:induction false} RepairDrops(m: Mode, s: State, id: nat, dead: Owner, scanned: set<string>, c: Choice,
                                       xs: seq<string>, sid: string)
    requires Keyed(s.store) && id !in s.ops && Distinct(xs) && forall i | 0 <= i < |xs| :: xs[i] in scanned
    ensures Keyed(Repaired(m, s, id, dead, scanned, c, xs).store)
    ensures var t, lease := Repaired(m, s, id, dead, scanned, c, xs), LeaseOf(s.store, sid);
            id in t.ops && t.ops[id] == RepairDelete(dead, scanned - set x | x in xs) &&
            t.store.snaps == s.store.snaps &&
            LeaseOf(t.store, sid) ==
              if sid in xs && lease.Some? && (m.ownerDelete ==> Names(lease.value, dead)) then None else lease
  {
    if xs != [] {
      var n := |xs| - 1;
      var init, x := xs[..n], xs[n];
      RepairDrops(m, s, id, dead, scanned, c, init, sid);
      var pending := scanned - set y | y in init;
      assert x in pending && pending - {x} == scanned - set y | y in xs;
      RepairStep(m, Repaired(m, s, id, dead, scanned, c, init), id, dead, pending, c.(sid := x), sid);
      assert sid in xs <==> sid in init || sid == x;
    }
  }
}

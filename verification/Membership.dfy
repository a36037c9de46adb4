/**
 Membership beats and the invalidation of departed incarnations
 (internal/runtime/cluster_repair.go: membershipOnce, onLeave).
 */
module Membership {
  import opened Options
  import opened SessionDirectories

  /** An absent expiry is the zero time: the record never expires by itself. */
  datatype NodeLease = NodeLease(owner: Owner, expiresAt: Option<int>)

  /** One beat: what the scan listed, or nothing when it failed, and the clock. */
  datatype Beat = Beat(scan: Option<seq<NodeLease>>, now: int)

  predicate Live(l: NodeLease, now: int) {
    l.owner.node != "" && l.owner.incarnation != "" && (l.expiresAt.Some? ==> l.expiresAt.value > now)
  }

  function LiveOwners(scan: seq<NodeLease>, now: int): set<Owner> {
    set i | 0 <= i < |scan| && Live(scan[i], now) :: scan[i].owner
  }

  predicate Distinct<T(==)>(xs: seq<T>) {
    forall i, j | 0 <= i < j < |xs| :: xs[i] != xs[j]
  }

  class ClusterRepairer {
    const self: Owner
    var alive: set<Owner>
    var primed: bool
    ghost var beats: seq<Beat>

    /** alive is what the last successful scan showed; nothing is known before the first. */
    ghost predicate Valid()
      reads this
    {
      primed == LastScan(beats).Some? && (primed ==> alive == LastScan(beats).value)
    }

    constructor (self: Owner)
      ensures Valid() && this.self == self && beats == []
    {
      this.self, alive, primed, beats := self, {}, false, [];
    }

    /** One beat; left lists the incarnations whose departure it handles, each once. */
    method MembershipOnce(b: Beat) returns (left: seq<Owner>)
      requires Valid()
      modifies this
      ensures Valid() && beats == old(beats) + [b]
      ensures Distinct(left)
      ensures (set m | m in left) == Departed(beats, self)
    {
      left := [];
      beats := beats + [b];
      assert beats[..|beats| - 1] == old(beats);
      if b.scan.None? {
        return;
      }
      var leases := b.scan.value;
      var current := {};
      for i := 0 to |leases|
        invariant current == LiveOwners(leases[..i], b.now)
        invariant beats == old(beats) + [b] && alive == old(alive) && primed == old(primed)
      {
        assert leases[..i + 1] == leases[..i] + [leases[i]];
        LiveOwnersSnoc(leases[..i], leases[i], b.now);
        if Live(leases[i], b.now) {
          current := current + {leases[i].owner};
        }
      }
      assert leases[..|leases|] == leases;
      if !primed {
        alive, primed := current, true;
        return;
      }
      var previous := alive;
      alive := current;
      var rest := previous;
      while rest != {}
        invariant rest <= previous && Distinct(left)
        invariant forall m :: m in left <==> m in previous && m !in rest && m !in current && m != self
        decreases |rest|
      {
        var member :| member in rest;
        rest := rest - {member};
        if member !in current && member != self {
          left := left + [member];
        }
      }
    }
  }

  lemma LiveOwnersSnoc(leases: seq<NodeLease>, l: NodeLease, now: int)
    ensures LiveOwners(leases + [l], now) == LiveOwners(leases, now) + if Live(l, now) then {l.owner} else {}
  {
    var more := leases + [l];
    assert more[|leases|] == l && forall i | 0 <= i < |leases| :: more[i] == leases[i];
    forall o ensures o in LiveOwners(more, now) <==>
                     o in LiveOwners(leases, now) || (Live(l, now) && o == l.owner)
    {
      if o in LiveOwners(leases, now) {
        var i :| 0 <= i < |leases| && Live(leases[i], now) && o == leases[i].owner;
        assert more[i].owner == o;
      }
      if Live(l, now) && o == l.owner {
        assert more[|leases|].owner == o;
      }
    }
  }

  /** The owners the last successful scan of a history showed alive. */
  ghost function LastScan(beats: seq<Beat>): Option<set<Owner>> {
    if beats == [] then None else
    var b := beats[|beats| - 1];
    if b.scan.Some? then Some(LiveOwners(b.scan.value, b.now)) else LastScan(beats[..|beats| - 1])
  }

  /** Who the last beat of a history reports: alive at the previous successful scan, gone now, not self. */
  ghost function Departed(beats: seq<Beat>, self: Owner): set<Owner>
    requires beats != []
  {
    var b, before := beats[|beats| - 1], LastScan(beats[..|beats| - 1]);
    if b.scan.None? || before.None? then {} else before.value - LiveOwners(b.scan.value, b.now) - {self}
  }

  predicate SeenAt(beats: seq<Beat>, i: nat, m: Owner)
    requires i < |beats|
  {
    beats[i].scan.Some? && m.node != "" && m.incarnation != "" &&
    exists k | 0 <= k < |beats[i].scan.value| ::
      var l := beats[i].scan.value[k];
      l.owner == m && (l.expiresAt.None? || beats[i].now < l.expiresAt.value)
  }

  lemma {:induction false} SeenIffLive(beats: seq<Beat>, i: nat, m: Owner)
    requires i < |beats|
    ensures SeenAt(beats, i, m) <==> beats[i].scan.Some? && m in LiveOwners(beats[i].scan.value, beats[i].now)
  {
    if beats[i].scan.Some? {
      var scan, now := beats[i].scan.value, beats[i].now;
      if m in LiveOwners(scan, now) {
        var k :| 0 <= k < |scan| && Live(scan[k], now) && scan[k].owner == m;
      }
      if SeenAt(beats, i, m) {
        var k :| 0 <= k < |scan| && scan[k].owner == m && (scan[k].expiresAt.None? || now < scan[k].expiresAt.value);
        assert Live(scan[k], now);
      }
    }
  }

  /**
   OnLeave for m at beat k means: a scan before k saw m, no successful scan
   since did, the scan at k did not, and m is not this node. And conversely
   for the first such scan.
   */
  lemma DepartedMeaning(beats: seq<Beat>, k: nat, self: Owner, m: Owner)
    requires k < |beats|
    ensures m in Departed(beats[..k + 1], self) <==>
            m != self && beats[k].scan.Some? && !SeenAt(beats, k, m) &&
            exists j :: 0 <= j < k && SeenAt(beats, j, m) && forall i | j < i < k :: beats[i].scan.None?
  {
    assert beats[..k + 1][..k] == beats[..k];
    LastScanMeaning(beats[..k], m);
    SeenIffLive(beats, k, m);
    if exists j :: 0 <= j < k && SeenAt(beats, j, m) && forall i | j < i < k :: beats[i].scan.None? {
      var j :| 0 <= j < k && SeenAt(beats, j, m) && forall i | j < i < k :: beats[i].scan.None?;
      assert SeenAt(beats[..k], j, m);
    }
    if LastScan(beats[..k]).Some? && m in LastScan(beats[..k]).value {
      var j :| 0 <= j < k && SeenAt(beats[..k], j, m) && forall i | j < i < k :: beats[..k][i].scan.None?;
      assert SeenAt(beats, j, m);
      assert forall i | j < i < k :: beats[i] == beats[..k][i];
    }
  }

  lemma {:induction false} LastScanMeaning(beats: seq<Beat>, m: Owner)
    ensures LastScan(beats).Some? && m in LastScan(beats).value <==>
            exists j :: 0 <= j < |beats| && SeenAt(beats, j, m) && forall i | j < i < |beats| :: beats[i].scan.None?
    decreases |beats|
  {
    if beats != [] {
      var n := |beats| - 1;
      var init := beats[..n];
      LastScanMeaning(init, m);
      SeenIffLive(beats, n, m);
      assert forall i | 0 <= i < n :: beats[i] == init[i] && SeenAt(beats, i, m) == SeenAt(init, i, m);
      if beats[n].scan.Some? {
        assert LastScan(beats).Some? && (m in LastScan(beats).value <==> SeenAt(beats, n, m));
      } else {
        assert LastScan(beats) == LastScan(init) && !SeenAt(beats, n, m);
        if j :| 0 <= j < n && SeenAt(init, j, m) && forall i | j < i < n :: init[i].scan.None? {
          assert SeenAt(beats, j, m);
        }
        if j :| 0 <= j <= n && SeenAt(beats, j, m) && forall i | j < i <= n :: beats[i].scan.None? {
          assert SeenAt(init, j, m);
        }
      }
    }
  }

  /** Between two departures of one incarnation a scan saw it alive again. */
  lemma DeparturesAlternate(beats: seq<Beat>, k: nat, l: nat, self: Owner, m: Owner)
    requires k < l < |beats|
    requires m in Departed(beats[..k + 1], self) && m in Departed(beats[..l + 1], self)
    ensures exists j :: k < j < l && SeenAt(beats, j, m)
  {
    DepartedMeaning(beats, k, self, m);
    DepartedMeaning(beats, l, self, m);
    var j :| 0 <= j < l && SeenAt(beats, j, m) && forall i | j < i < l :: beats[i].scan.None?;
    assert j != k;
    assert j > k;
  }

  /** Deletes every lease of the departed incarnation and nothing else. */
  method OnLeave(d: Directory, dead: Owner)
    requires d.Valid()
    modifies d
    ensures d.Valid() && d.snaps == old(d.snaps)
    ensures forall sid :: LeaseOf(d.Contents(), sid) ==
                          if sid != "" && dead.node != "" && dead.incarnation != "" && sid in old(d.leases) &&
                             old(d.leases)[sid].owner == dead
                          then None else old(LeaseOf(d.Contents(), sid))
  {
    var scanned := d.leases;
    var rest := scanned.Keys;
    while rest != {}
      invariant d.Valid() && rest <= scanned.Keys && d.snaps == old(d.snaps)
      invariant forall sid :: LeaseOf(d.Contents(), sid) ==
                  if sid in scanned && sid !in rest && sid != "" && dead.node != "" && dead.incarnation != "" &&
                     scanned[sid].owner == dead
                  then None else old(LeaseOf(d.Contents(), sid))
      decreases |rest|
    {
      var sid :| sid in rest;
      rest := rest - {sid};
      var lease := scanned[sid];
      if sid != "" && lease.owner == dead {
        var _ := d.DeleteSessionLeaseIfOwner(sid, lease.owner);
      }
    }
  }
}

/**
 The subscribe and unsubscribe sagas of a node: hub registries, tracked
 channels, broker reference counts and the cluster's view
 (internal/runtime/node.go, internal/runtime/subscription_saga.go,
 internal/session/hub.go, internal/session/runtime.go,
 internal/stream/broker_memory.go).
 */
module Subscriptions {
  import opened Options
  import opened Topics
  import opened Patterns

  /** A subscriber record of the hub. */
  datatype Record = Record(ephemeral: bool, deliveredOffset: nat)

  /**
   exact and wild are the hub's two registries, tracked the channel set of each
   session, subs and wc the broker's reference counts.
   */
  datatype Local = Local(exact: map<string, map<string, Record>>, wild: map<(string, string), Record>,
                         tracked: map<string, set<string>>, closed: set<string>,
                         subs: map<string, nat>, wc: map<string, nat>)

  /** The cluster's view: the channels in each session snapshot, and per-channel projection counts. */
  datatype Cluster = Cluster(snaps: map<string, set<string>>, proj: map<string, int>)

  /** A node in the middle of a saga; first and last are the flags its closures share. */
  datatype State = State(local: Local, cluster: Cluster, first: bool, last: bool)

  // ---------------------------------------------------------------- the hub

  function Lookup(l: Local, ch: string, sid: string): Option<Record> {
    if IsWildcard(ch) then
      if (sid, ch) in l.wild then Some(l.wild[(sid, ch)]) else None
    else if ch in l.exact && sid in l.exact[ch] then Some(l.exact[ch][sid]) else None
  }

  function PutSub(l: Local, ch: string, sid: string, rec: Record): Local {
    if IsWildcard(ch) then l.(wild := l.wild[(sid, ch) := rec])
    else l.(exact := l.exact[ch := (if ch in l.exact then l.exact[ch] else map[])[sid := rec]])
  }

  /** first reports a channel new to the hub; every new wildcard subscriber counts as first. */
  function IsFirst(l: Local, ch: string, sid: string): bool {
    if IsWildcard(ch) then (sid, ch) !in l.wild else ch !in l.exact
  }

  /** Nobody but sid is in the channel's record map. */
  predicate NoOther(m: map<string, Record>, sid: string) {
    forall k | k in m :: k == sid
  }

  function DropSub(l: Local, ch: string, sid: string): Local {
    if IsWildcard(ch) then l.(wild := l.wild - {(sid, ch)})
    else if ch !in l.exact || sid !in l.exact[ch] then l
    else if NoOther(l.exact[ch], sid) then l.(exact := l.exact - {ch})
    else l.(exact := l.exact[ch := l.exact[ch] - {sid}])
  }

  function IsLast(l: Local, ch: string, sid: string): bool {
    IsWildcard(ch) || ch !in l.exact || sid !in l.exact[ch] || NoOther(l.exact[ch], sid)
  }

  // ------------------------------------------------- sessions and the broker

  function Tracked(l: Local, sid: string): set<string> {
    if sid in l.tracked then l.tracked[sid] else {}
  }

  function Track(l: Local, sid: string, ch: string): Local {
    l.(tracked := l.tracked[sid := Tracked(l, sid) + {ch}])
  }

  function Untrack(l: Local, sid: string, ch: string): Local {
    l.(tracked := l.tracked[sid := Tracked(l, sid) - {ch}])
  }

  function CountOf(m: map<string, nat>, ch: string): nat {
    if ch in m then m[ch] else 0
  }

  function Counts(l: Local, ch: string): nat {
    if IsWildcard(ch) then CountOf(l.wc, ch) else CountOf(l.subs, ch)
  }

  /** A counter map without zero entries. */
  function SetIn(m: map<string, nat>, ch: string, n: nat): map<string, nat> {
    if n == 0 then m - {ch} else m[ch := n]
  }

  function SetCount(l: Local, ch: string, n: nat): Local {
    if IsWildcard(ch) then l.(wc := SetIn(l.wc, ch, n)) else l.(subs := SetIn(l.subs, ch, n))
  }

  function BrokerSubscribe(l: Local, ch: string): Local {
    SetCount(l, ch, Counts(l, ch) + 1)
  }

  function BrokerUnsubscribe(l: Local, ch: string): Local {
    if Counts(l, ch) == 0 then SetCount(l, ch, 0) else SetCount(l, ch, Counts(l, ch) - 1)
  }

  // --------------------------------------------------------------- the sagas

  datatype Step = HubAdd | TrackClient | BrokerAdd | HubRemove | UntrackClient | BrokerRemove
                | ClusterSession | ClusterChannel(delta: int)

  const ADD: seq<Step> := [HubAdd, TrackClient, BrokerAdd, ClusterSession, ClusterChannel(1)]
  const REMOVE: seq<Step> := [HubRemove, UntrackClient, BrokerRemove, ClusterSession, ClusterChannel(-1)]

  /** What a saga is about: the channel, the session, and the record added or found at the start. */
  datatype Job = Job(ch: string, sid: string, rec: Record)

  function Adjust(c: Cluster, ch: string, delta: int): Cluster {
    c.(proj := c.proj[ch := (if ch in c.proj then c.proj[ch] else 0) + delta])
  }

  /** How many subscriptions of the channel the projection shows. */
  function Projected(c: Cluster, ch: string): int {
    if ch in c.proj then c.proj[ch] else 0
  }

  /** The channels the session's snapshot shows. */
  function Shown(s: State, sid: string): set<string> {
    if sid in s.cluster.snaps then s.cluster.snaps[sid] else {}
  }

  function SyncSession(s: State, sid: string): State {
    s.(cluster := s.cluster.(snaps := s.cluster.snaps[sid := Tracked(s.local, sid)]))
  }

  /** A commit that fails changes nothing; fail injects a failure where the step can meet one. */
  function Commit(j: Job, s: State, step: Step, fail: bool): Option<State> {
    match step
    case HubAdd =>
      if fail || !ValidTopic(j.ch) then None
      else Some(s.(local := PutSub(s.local, j.ch, j.sid, j.rec), first := IsFirst(s.local, j.ch, j.sid)))
    case TrackClient =>
      if j.sid in s.local.closed then None else Some(s.(local := Track(s.local, j.sid, j.ch)))
    case BrokerAdd =>
      if !s.first then Some(s)
      else if fail || !InKeyLanguage(j.ch) then None else Some(s.(local := BrokerSubscribe(s.local, j.ch)))
    case HubRemove =>
      if fail || Lookup(s.local, j.ch, j.sid).None? then None
      else Some(s.(local := DropSub(s.local, j.ch, j.sid), last := IsLast(s.local, j.ch, j.sid)))
    case UntrackClient => Some(s.(local := Untrack(s.local, j.sid, j.ch)))
    case BrokerRemove =>
      if !s.last then Some(s) else if fail then None else Some(s.(local := BrokerUnsubscribe(s.local, j.ch)))
    case ClusterSession => if fail then None else Some(SyncSession(s, j.sid))
    case ClusterChannel(delta) => if fail then None else Some(s.(cluster := Adjust(s.cluster, j.ch, delta)))
  }

  /** Undoing a committed step. The snapshot is not undone but written again from what is tracked now. */
  function Rollback(j: Job, s: State, step: Step): State {
    match step
    case HubAdd => s.(local := DropSub(s.local, j.ch, j.sid))
    case TrackClient => s.(local := Untrack(s.local, j.sid, j.ch))
    case BrokerAdd => if s.first then s.(local := BrokerUnsubscribe(s.local, j.ch)) else s
    case HubRemove => s.(local := PutSub(s.local, j.ch, j.sid, j.rec))
    case UntrackClient => s.(local := Track(s.local, j.sid, j.ch))
    case BrokerRemove => if s.last then s.(local := BrokerSubscribe(s.local, j.ch)) else s
    case ClusterSession => SyncSession(s, j.sid)
    case ClusterChannel(delta) => s.(cluster := Adjust(s.cluster, j.ch, -delta))
  }

  function Unwind(j: Job, s: State, steps: seq<Step>, executed: nat): State
    requires executed <= |steps|
    decreases executed
  {
    if executed == 0 then s else Unwind(j, Rollback(j, s, steps[executed - 1]), steps, executed - 1)
  }

  /** The state after committing the first n steps, if all of them succeed. */
  function Committed(j: Job, s: State, steps: seq<Step>, fails: seq<bool>, n: nat): Option<State>
    requires n <= |steps| == |fails|
  {
    if n == 0 then Some(s) else
    var before := Committed(j, s, steps, fails, n - 1);
    if before.None? then None else Commit(j, before.value, steps[n - 1], fails[n - 1])
  }

  /** A saga run: all steps committed, or the first k committed, the next failed, and those k undone in reverse. */
  predicate SagaOutcome(j: Job, s: State, steps: seq<Step>, fails: seq<bool>, t: State, ok: bool)
    requires |steps| == |fails|
  {
    if ok then Committed(j, s, steps, fails, |steps|) == Some(t)
    else exists k | 0 <= k < |steps| ::
           Committed(j, s, steps, fails, k).Some? && Committed(j, s, steps, fails, k + 1).None? &&
           t == Unwind(j, Committed(j, s, steps, fails, k).value, steps, k)
  }

  lemma {:induction false} EmptiedIffNoOther(m: map<string, Record>, sid: string)
    requires sid in m
    ensures |m - {sid}| == 0 <==> NoOther(m, sid)
  {
    var rest := m - {sid};
    if NoOther(m, sid) {
      assert rest == map[];
    } else {
      var k :| k in m && k != sid;
      assert k in rest;
    }
  }

  class Node {
    var exact: map<string, map<string, Record>>
    var wild: map<(string, string), Record>
    var tracked: map<string, set<string>>
    var closed: set<string>
    var subs: map<string, nat>
    var wc: map<string, nat>
    var cluster: Cluster
    var first: bool
    var last: bool

    ghost function Registries(): Local
      reads this
    {
      Local(exact, wild, tracked, closed, subs, wc)
    }

    ghost function View(): State
      reads this
    {
      State(Registries(), cluster, first, last)
    }

    /** The hub's AddSub, past the topic check. */
    method AddSub(ch: string, sid: string, rec: Record) returns (isFirst: bool)
      modifies this`exact, this`wild
      ensures isFirst == IsFirst(old(Registries()), ch, sid)
      ensures Registries() == PutSub(old(Registries()), ch, sid, rec)
    {
      if IsWildcard(ch) {
        isFirst := (sid, ch) !in wild;
        wild := wild[(sid, ch) := rec];
      } else {
        isFirst := ch !in exact;
        if isFirst {
          exact := exact[ch := map[]];
        }
        exact := exact[ch := exact[ch][sid := rec]];
        assert isFirst ==> exact == old(exact)[ch := map[][sid := rec]];
      }
    }

    /** A shard's removeSub. */
    method RemoveExact(ch: string, sid: string) returns (isLast: bool, removed: bool)
      requires !IsWildcard(ch)
      modifies this`exact
      ensures removed == (ch in old(exact) && sid in old(exact)[ch])
      ensures isLast == (removed ==> NoOther(old(exact)[ch], sid))
      ensures exact == if !removed then old(exact) else if isLast then old(exact) - {ch}
                       else old(exact)[ch := old(exact)[ch] - {sid}]
    {
      if ch !in exact || sid !in exact[ch] {
        return true, false;
      }
      EmptiedIffNoOther(exact[ch], sid);
      exact := exact[ch := exact[ch] - {sid}];
      isLast := |exact[ch]| == 0;
      if isLast {
        exact := exact - {ch};
        assert exact == old(exact) - {ch};
      }
      return isLast, true;
    }

    /** The hub's RemoveSub: whether that was the last subscriber, and whether there was one to remove. */
    method RemoveSub(ch: string, sid: string) returns (isLast: bool, removed: bool)
      modifies this`exact, this`wild
      ensures removed == Lookup(old(Registries()), ch, sid).Some? && isLast == IsLast(old(Registries()), ch, sid)
      ensures Registries() == DropSub(old(Registries()), ch, sid)
    {
      if IsWildcard(ch) {
        removed := (sid, ch) in wild;
        if removed {
          wild := wild - {(sid, ch)};
        }
        return true, removed;
      }
      isLast, removed := RemoveExact(ch, sid);
    }

    /** The broker's Subscribe, past the check that the key can be routed. */
    method CountUp(ch: string)
      modifies this`subs, this`wc
      ensures Registries() == BrokerSubscribe(old(Registries()), ch)
    {
      if IsWildcard(ch) {
        wc := wc[ch := CountOf(wc, ch) + 1];
      } else {
        subs := subs[ch := CountOf(subs, ch) + 1];
      }
    }

    method CountDown(ch: string)
      modifies this`subs, this`wc
      ensures Registries() == BrokerUnsubscribe(old(Registries()), ch)
    {
      if IsWildcard(ch) {
        if CountOf(wc, ch) > 0 {
          wc := wc[ch := wc[ch] - 1];
        }
        if CountOf(wc, ch) == 0 {
          wc := wc - {ch};
        }
        assert CountOf(old(wc), ch) == 1 ==> wc == old(wc) - {ch};
      } else {
        if CountOf(subs, ch) > 0 {
          subs := subs[ch := subs[ch] - 1];
        }
        if CountOf(subs, ch) == 0 {
          subs := subs - {ch};
        }
        assert CountOf(old(subs), ch) == 1 ==> subs == old(subs) - {ch};
      }
    }

    method SetTracked(sid: string, ch: string, on: bool)
      modifies this`tracked
      ensures Registries() == if on then Track(old(Registries()), sid, ch) else Untrack(old(Registries()), sid, ch)
    {
      var chs := if sid in tracked then tracked[sid] else {};
      tracked := tracked[sid := if on then chs + {ch} else chs - {ch}];
    }

    method SyncSnapshot(sid: string)
      modifies this`cluster
      ensures View() == SyncSession(old(View()), sid)
    {
      cluster := cluster.(snaps := cluster.snaps[sid := if sid in tracked then tracked[sid] else {}]);
    }

    /** The query store's counter goes by the delta; other channels keep theirs. */
    method AdjustProjection(ch: string, delta: int)
      modifies this`cluster
      ensures cluster == Adjust(old(cluster), ch, delta)
      ensures forall x :: Projected(cluster, x) == Projected(old(cluster), x) + if x == ch then delta else 0
    {
      var now := if ch in cluster.proj then cluster.proj[ch] else 0;
      cluster := cluster.(proj := cluster.proj[ch := now + delta]);
    }

    /** The commit closures of the two sagas. */
    method DoCommit(j: Job, step: Step, fail: bool) returns (ok: bool)
      modifies this
      ensures ok == Commit(j, old(View()), step, fail).Some?
      ensures View() == if ok then Commit(j, old(View()), step, fail).value else old(View())
    {
      match step {
        case HubAdd =>
          if fail || !ValidTopic(j.ch) { return false; }
          first := AddSub(j.ch, j.sid, j.rec);
        case TrackClient =>
          if j.sid in closed { return false; }
          SetTracked(j.sid, j.ch, true);
        case BrokerAdd =>
          if first {
            if fail { return false; }
            var routable := Compile(j.ch);
            CompileAcceptsKeys(j.ch);
            if routable.None? { return false; }
            CountUp(j.ch);
          }
        case HubRemove =>
          if fail { return false; }
          var isLast, removed := RemoveSub(j.ch, j.sid);
          if !removed { return false; }
          last := isLast;
        case UntrackClient =>
          SetTracked(j.sid, j.ch, false);
        case BrokerRemove =>
          if last {
            if fail { return false; }
            CountDown(j.ch);
          }
        case ClusterSession =>
          if fail { return false; }
          SyncSnapshot(j.sid);
        case ClusterChannel(delta) =>
          if fail { return false; }
          AdjustProjection(j.ch, delta);
      }
      return true;
    }

    /** The rollback closures. */
    method DoRollback(j: Job, step: Step)
      modifies this
      ensures View() == Rollback(j, old(View()), step)
    {
      match step {
        case HubAdd =>
          var _, _ := RemoveSub(j.ch, j.sid);
        case TrackClient => SetTracked(j.sid, j.ch, false);
        case BrokerAdd => if first { CountDown(j.ch); }
        case HubRemove =>
          var _ := AddSub(j.ch, j.sid, j.rec);
        case UntrackClient => SetTracked(j.sid, j.ch, true);
        case BrokerRemove => if last { CountUp(j.ch); }
        case ClusterSession => SyncSnapshot(j.sid);
        case ClusterChannel(delta) => AdjustProjection(j.ch, -delta);
      }
    }

    /** runSubSaga: commit in order; at the first failure undo the executed steps in reverse. */
    method RunSubSaga(j: Job, steps: seq<Step>, fails: seq<bool>) returns (ok: bool)
      requires |steps| == |fails|
      modifies this
      ensures SagaOutcome(j, old(View()), steps, fails, View(), ok)
    {
      var executed := 0;
      for i := 0 to |steps|
        invariant executed == i && Committed(j, old(View()), steps, fails, i) == Some(View())
      {
        var done := DoCommit(j, steps[i], fails[i]);
        if !done {
          ghost var failed := View();
          var k := executed;
          while k > 0
            invariant 0 <= k <= executed
            invariant Unwind(j, failed, steps, executed) == Unwind(j, View(), steps, k)
          {
            DoRollback(j, steps[k - 1]);
            k := k - 1;
          }
          assert Committed(j, old(View()), steps, fails, i + 1).None?;
          return false;
        }
        executed := i + 1;
      }
      return true;
    }
  }

  // -------------------------------------------------------------- invariant

  function WildSubs(l: Local, ch: string): set<(string, string)> {
    set k | k in l.wild && k.1 == ch
  }

  /** The hub holds no empty channel, only routable keys, each in its registry. */
  predicate HubOk(l: Local) {
    (forall ch | ch in l.exact :: !IsWildcard(ch) && InKeyLanguage(ch) && l.exact[ch] != map[]) &&
    (forall k | k in l.wild :: IsWildcard(k.1) && InKeyLanguage(k.1))
  }

  /**
   The broker counts an exact channel once iff the hub has a subscriber for it,
   and a wildcard once per subscribed session.
   */
  ghost predicate CountOk(l: Local, ch: string) {
    if IsWildcard(ch) then CountOf(l.wc, ch) == |WildSubs(l, ch)|
    else CountOf(l.subs, ch) == if ch in l.exact then 1 else 0
  }

  predicate Positive(l: Local) {
    (forall ch | ch in l.subs :: l.subs[ch] > 0) && (forall ch | ch in l.wc :: l.wc[ch] > 0)
  }

  ghost predicate CountsOk(l: Local) {
    Positive(l) && forall ch :: CountOk(l, ch)
  }

  /** A session tracks exactly the channels the hub has it subscribed to. */
  ghost predicate TrackedOk(l: Local) {
    forall sid, ch :: ch in Tracked(l, sid) <==> Lookup(l, ch, sid).Some?
  }

  ghost predicate Inv(l: Local) {
    HubOk(l) && CountsOk(l) && TrackedOk(l)
  }

  // -------------------------------------------------- what the steps do and undo

  lemma {:induction false} DropOfPut(l: Local, ch: string, sid: string, rec: Record)
    requires HubOk(l) && Lookup(l, ch, sid).None?
    ensures DropSub(PutSub(l, ch, sid, rec), ch, sid) == l
  {
    if IsWildcard(ch) {
      assert l.wild[(sid, ch) := rec] - {(sid, ch)} == l.wild;
    } else if ch in l.exact {
      var inner := l.exact[ch];
      assert inner[sid := rec] - {sid} == inner;
      assert l.exact[ch := inner[sid := rec]][ch := inner] == l.exact;
      assert inner[sid := rec].Keys - {sid} == inner.Keys;
    } else {
      assert map[][sid := rec].Keys - {sid} == {};
      assert l.exact[ch := map[][sid := rec]] - {ch} == l.exact;
    }
  }

  lemma {:induction false} PutOfDrop(l: Local, ch: string, sid: string, rec: Record)
    requires Lookup(l, ch, sid) == Some(rec)
    ensures PutSub(DropSub(l, ch, sid), ch, sid, rec) == l
  {
    if IsWildcard(ch) {
      assert (l.wild - {(sid, ch)})[(sid, ch) := rec] == l.wild;
    } else {
      var inner := l.exact[ch];
      assert (inner - {sid})[sid := rec] == inner;
      if inner.Keys - {sid} == {} {
        assert map[][sid := rec] == inner;
        assert (l.exact - {ch})[ch := inner] == l.exact;
      } else {
        assert l.exact[ch := inner - {sid}][ch := inner] == l.exact;
      }
    }
  }

  lemma {:induction false} SetBack(m: map<string, nat>, ch: string, n: nat)
    requires ch in m ==> m[ch] > 0
    ensures SetIn(SetIn(m, ch, n), ch, CountOf(m, ch)) == m
  {
    if ch in m {
      assert SetIn(m, ch, n)[ch := m[ch]] == m;
    } else {
      assert SetIn(m, ch, n) - {ch} == m;
    }
  }

  lemma {:induction false} CountsSetBack(l: Local, ch: string, n: nat)
    requires (ch in l.subs ==> l.subs[ch] > 0) && (ch in l.wc ==> l.wc[ch] > 0)
    ensures Counts(SetCount(l, ch, n), ch) == n && SetCount(SetCount(l, ch, n), ch, Counts(l, ch)) == l
  {
    if IsWildcard(ch) { SetBack(l.wc, ch, n); } else { SetBack(l.subs, ch, n); }
  }

  lemma {:induction false} UnsubscribeUndoesSubscribe(l: Local, ch: string)
    requires (ch in l.subs ==> l.subs[ch] > 0) && (ch in l.wc ==> l.wc[ch] > 0)
    ensures BrokerUnsubscribe(BrokerSubscribe(l, ch), ch) == l
    ensures Counts(l, ch) > 0 ==> BrokerSubscribe(BrokerUnsubscribe(l, ch), ch) == l
  {
    CountsSetBack(l, ch, Counts(l, ch) + 1);
    if Counts(l, ch) > 0 {
      CountsSetBack(l, ch, Counts(l, ch) - 1);
    }
  }

  lemma {:induction false} TrackUndoesUntrack(l: Local, sid: string, ch: string)
    requires sid in l.tracked
    ensures ch in Tracked(l, sid) ==> Track(Untrack(l, sid, ch), sid, ch) == l
    ensures ch !in Tracked(l, sid) ==> Untrack(Track(l, sid, ch), sid, ch) == l
  {
    var set_ := Tracked(l, sid);
    if ch in set_ {
      assert set_ - {ch} + {ch} == set_;
      assert l.tracked[sid := set_ - {ch}][sid := set_] == l.tracked;
    } else {
      assert set_ + {ch} - {ch} == set_;
      assert l.tracked[sid := set_ + {ch}][sid := set_] == l.tracked;
    }
  }

  /** The three local changes of a subscription, and of its removal. */
  function Subscribed(l: Local, j: Job): Local {
    var l1 := Track(PutSub(l, j.ch, j.sid, j.rec), j.sid, j.ch);
    if IsFirst(l, j.ch, j.sid) then BrokerSubscribe(l1, j.ch) else l1
  }

  function Unsubscribed(l: Local, j: Job): Local {
    var l1 := Untrack(DropSub(l, j.ch, j.sid), j.sid, j.ch);
    if IsLast(l, j.ch, j.sid) then BrokerUnsubscribe(l1, j.ch) else l1
  }

  // ------------------------------------------------------- all or nothing

  /** The i-th state of a saga, once it is known to commit that far. */
  lemma {:induction false} CommittedPrefix(j: Job, s: State, steps: seq<Step>, fails: seq<bool>, i: nat, k: nat)
    requires i <= k <= |steps| == |fails| && Committed(j, s, steps, fails, k).Some?
    ensures Committed(j, s, steps, fails, i).Some?
    decreases k
  {
    if i < k {
      CommittedPrefix(j, s, steps, fails, i, k - 1);
    }
  }

  /** What undoing a step relies on, in the state the step was committed from. */
  predicate Undoable(j: Job, a: State, step: Step) {
    var l := a.local;
    match step
    case HubAdd => HubOk(l) && Lookup(l, j.ch, j.sid).None?
    case TrackClient => j.sid in l.tracked && j.ch !in Tracked(l, j.sid)
    case BrokerAdd => (j.ch in l.subs ==> l.subs[j.ch] > 0) && (j.ch in l.wc ==> l.wc[j.ch] > 0)
    case HubRemove => Lookup(l, j.ch, j.sid) == Some(j.rec)
    case UntrackClient => j.sid in l.tracked && j.ch in Tracked(l, j.sid)
    case BrokerRemove =>
      (j.ch in l.subs ==> l.subs[j.ch] > 0) && (j.ch in l.wc ==> l.wc[j.ch] > 0) && (a.last ==> Counts(l, j.ch) > 0)
    case _ => true
  }

  lemma {:induction false} UndoStep(j: Job, a: State, step: Step, fail: bool, x: State)
    requires Undoable(j, a, step) && Commit(j, a, step, fail).Some?
    requires var b := Commit(j, a, step, fail).value; x.local == b.local && x.first == b.first && x.last == b.last
    ensures var y := Rollback(j, x, step); y.local == a.local && y.first == x.first && y.last == x.last
  {
    var l := a.local;
    match step
    case HubAdd => DropOfPut(l, j.ch, j.sid, j.rec);
    case TrackClient => TrackUndoesUntrack(l, j.sid, j.ch);
    case BrokerAdd => UnsubscribeUndoesSubscribe(l, j.ch);
    case HubRemove => PutOfDrop(l, j.ch, j.sid, j.rec);
    case UntrackClient => TrackUndoesUntrack(l, j.sid, j.ch);
    case BrokerRemove => UnsubscribeUndoesSubscribe(l, j.ch);
    case ClusterSession =>
    case ClusterChannel(_) =>
  }

  /** Undoing k undoable steps in reverse, from at[k] to at[0], gives back the local state they started from. */
  lemma {:induction false} UnwindRestores(j: Job, at: seq<State>, steps: seq<Step>, fails: seq<bool>, k: nat, x: State)
    requires k < |at| <= |steps| == |fails|
    requires forall i | 0 <= i < k ::
               Undoable(j, at[i], steps[i]) && Commit(j, at[i], steps[i], fails[i]) == Some(at[i + 1])
    requires forall i | 0 < i <= k :: at[i].first == x.first && at[i].last == x.last
    requires x.local == at[k].local
    ensures Unwind(j, x, steps, k).local == at[0].local
    decreases k
  {
    if k > 0 {
      UndoStep(j, at[k - 1], steps[k - 1], fails[k - 1], x);
      UnwindRestores(j, at, steps, fails, k - 1, Rollback(j, x, steps[k - 1]));
    }
  }

  /** The state of an undisturbed subscribe saga after i steps. */
  function AddState(j: Job, s: State, i: nat): State
    requires i <= 5
  {
    var s1 := s.(local := PutSub(s.local, j.ch, j.sid, j.rec), first := IsFirst(s.local, j.ch, j.sid));
    var s3 := s1.(local := Subscribed(s.local, j));
    match i
    case 0 => s
    case 1 => s1
    case 2 => s1.(local := Track(s1.local, j.sid, j.ch))
    case 3 => s3
    case 4 => SyncSession(s3, j.sid)
    case 5 => var s4 := SyncSession(s3, j.sid); s4.(cluster := Adjust(s4.cluster, j.ch, 1))
  }

  function RemoveState(j: Job, s: State, i: nat): State
    requires i <= 5
  {
    var s1 := s.(local := DropSub(s.local, j.ch, j.sid), last := IsLast(s.local, j.ch, j.sid));
    var s3 := s1.(local := Unsubscribed(s.local, j));
    match i
    case 0 => s
    case 1 => s1
    case 2 => s1.(local := Untrack(s1.local, j.sid, j.ch))
    case 3 => s3
    case 4 => SyncSession(s3, j.sid)
    case 5 => var s4 := SyncSession(s3, j.sid); s4.(cluster := Adjust(s4.cluster, j.ch, -1))
  }

  /** Committing k steps means none of them met a failure, and gives the k-th of these states. */
  lemma {:induction false} AddStates(j: Job, s: State, fails: seq<bool>, k: nat)
    requires |fails| == 5 && k <= 5 && Committed(j, s, ADD, fails, k).Some?
    ensures Committed(j, s, ADD, fails, k).value == AddState(j, s, k)
    ensures (k >= 1 ==> ValidTopic(j.ch)) && (k >= 3 && IsFirst(s.local, j.ch, j.sid) ==> InKeyLanguage(j.ch))
    decreases k
  {
    if k > 0 {
      AddStates(j, s, fails, k - 1);
      assert Committed(j, s, ADD, fails, k) == Commit(j, AddState(j, s, k - 1), ADD[k - 1], fails[k - 1]);
    }
  }

  lemma {:induction false} RemoveStates(j: Job, s: State, fails: seq<bool>, k: nat)
    requires |fails| == 5 && k <= 5 && Committed(j, s, REMOVE, fails, k).Some?
    ensures Committed(j, s, REMOVE, fails, k).value == RemoveState(j, s, k)
    decreases k
  {
    if k > 0 {
      RemoveStates(j, s, fails, k - 1);
      assert Committed(j, s, REMOVE, fails, k) == Commit(j, RemoveState(j, s, k - 1), REMOVE[k - 1], fails[k - 1]);
    }
  }

  /** A subscribe for a known session that is not yet subscribed. */
  ghost predicate CanAdd(j: Job, s: State) {
    Inv(s.local) && j.sid in s.local.tracked && Lookup(s.local, j.ch, j.sid).None?
  }

  /** An unsubscribe of an existing subscription, whose record the saga looked up. */
  ghost predicate CanRemove(j: Job, s: State) {
    Inv(s.local) && j.sid in s.local.tracked && Lookup(s.local, j.ch, j.sid) == Some(j.rec)
  }

  lemma {:induction false} FailedAddRestoresLocal(j: Job, s: State, fails: seq<bool>, k: nat)
    requires CanAdd(j, s) && |fails| == 5 && k < 5 && Committed(j, s, ADD, fails, k).Some?
    ensures Unwind(j, AddState(j, s, k), ADD, k).local == s.local
  {
    var at := seq(k + 1, i requires 0 <= i <= k => AddState(j, s, i));
    forall i | 0 <= i < k ensures Undoable(j, at[i], ADD[i]) && Commit(j, at[i], ADD[i], fails[i]) == Some(at[i + 1]) {
      CommittedPrefix(j, s, ADD, fails, i, k);
      CommittedPrefix(j, s, ADD, fails, i + 1, k);
      AddStates(j, s, fails, i);
      AddStates(j, s, fails, i + 1);
      AddIsUndoable(j, s, i);
    }
    UnwindRestores(j, at, ADD, fails, k, at[k]);
  }

  lemma {:induction false} FailedRemoveRestoresLocal(j: Job, s: State, fails: seq<bool>, k: nat)
    requires CanRemove(j, s) && |fails| == 5 && k < 5 && Committed(j, s, REMOVE, fails, k).Some?
    ensures Unwind(j, RemoveState(j, s, k), REMOVE, k).local == s.local
  {
    var at := seq(k + 1, i requires 0 <= i <= k => RemoveState(j, s, i));
    forall i | 0 <= i < k
      ensures Undoable(j, at[i], REMOVE[i]) && Commit(j, at[i], REMOVE[i], fails[i]) == Some(at[i + 1])
    {
      CommittedPrefix(j, s, REMOVE, fails, i, k);
      CommittedPrefix(j, s, REMOVE, fails, i + 1, k);
      RemoveStates(j, s, fails, i);
      RemoveStates(j, s, fails, i + 1);
      RemoveIsUndoable(j, s, i);
    }
    UnwindRestores(j, at, REMOVE, fails, k, at[k]);
  }

  lemma {:induction false} AddIsUndoable(j: Job, s: State, i: nat)
    requires CanAdd(j, s) && i < 5
    ensures Undoable(j, AddState(j, s, i), ADD[i])
  {
    assert j.ch !in Tracked(s.local, j.sid);
  }

  lemma {:induction false} RemoveIsUndoable(j: Job, s: State, i: nat)
    requires CanRemove(j, s) && i < 5
    ensures Undoable(j, RemoveState(j, s, i), REMOVE[i])
  {
    assert j.ch in Tracked(s.local, j.sid);
    CountIsPositive(s.local, j.ch, j.sid);
  }

  lemma {:induction false} CountIsPositive(l: Local, ch: string, sid: string)
    requires Inv(l) && Lookup(l, ch, sid).Some?
    ensures Counts(l, ch) > 0
  {
    assert CountOk(l, ch);
    if IsWildcard(ch) {
      assert (sid, ch) in WildSubs(l, ch);
    }
  }

  /** Rolling back the local steps does not touch the cluster's view. */
  lemma {:induction false} LocalUnwindKeepsCluster(j: Job, x: State, steps: seq<Step>, k: nat)
    requires k <= |steps| && forall i | 0 <= i < k :: !steps[i].ClusterSession? && !steps[i].ClusterChannel?
    ensures Unwind(j, x, steps, k).cluster == x.cluster
    decreases k
  {
    if k > 0 {
      LocalUnwindKeepsCluster(j, Rollback(j, x, steps[k - 1]), steps, k - 1);
    }
  }

  /**
   The cluster after a failed saga. Only a failure of the very last step leaves
   a mark: the snapshot was written again before the local undo, so it still
   shows the abandoned change.
   */
  lemma {:induction false} FailedAddSnapshot(j: Job, s: State, k: nat)
    requires k < 5
    ensures Unwind(j, AddState(j, s, k), ADD, k).cluster ==
            if k < 4 then s.cluster
            else s.cluster.(snaps := s.cluster.snaps[j.sid := Tracked(s.local, j.sid) + {j.ch}])
  {
    if k < 4 {
      LocalUnwindKeepsCluster(j, AddState(j, s, k), ADD, k);
    } else {
      LocalUnwindKeepsCluster(j, Rollback(j, AddState(j, s, 4), ClusterSession), ADD, 3);
      ResyncIsIdle(AddState(j, s, 3), j.sid);
      SubscribedTracked(s.local, j);
    }
  }

  lemma {:induction false} FailedRemoveSnapshot(j: Job, s: State, k: nat)
    requires k < 5
    ensures Unwind(j, RemoveState(j, s, k), REMOVE, k).cluster ==
            if k < 4 then s.cluster
            else s.cluster.(snaps := s.cluster.snaps[j.sid := Tracked(s.local, j.sid) - {j.ch}])
  {
    if k < 4 {
      LocalUnwindKeepsCluster(j, RemoveState(j, s, k), REMOVE, k);
    } else {
      LastRemoveSnapshot(j, s);
    }
  }

  lemma {:induction false} LastRemoveSnapshot(j: Job, s: State)
    ensures Unwind(j, RemoveState(j, s, 4), REMOVE, 4).cluster ==
            s.cluster.(snaps := s.cluster.snaps[j.sid := Tracked(s.local, j.sid) - {j.ch}])
  {
    LocalUnwindKeepsCluster(j, Rollback(j, RemoveState(j, s, 4), ClusterSession), REMOVE, 3);
    ResyncIsIdle(RemoveState(j, s, 3), j.sid);
    UnsubscribedTracked(s.local, j);
  }

  lemma {:induction false} SubscribedTracked(l: Local, j: Job)
    ensures Tracked(Subscribed(l, j), j.sid) == Tracked(l, j.sid) + {j.ch}
  {
    var l1 := Track(PutSub(l, j.ch, j.sid, j.rec), j.sid, j.ch);
    CountingKeepsTracked(l1, j.ch, Counts(l1, j.ch) + 1);
  }

  lemma {:induction false} UnsubscribedTracked(l: Local, j: Job)
    ensures Tracked(Unsubscribed(l, j), j.sid) == Tracked(l, j.sid) - {j.ch}
  {
    var l1 := Untrack(DropSub(l, j.ch, j.sid), j.sid, j.ch);
    CountingKeepsTracked(l1, j.ch, if Counts(l1, j.ch) == 0 then 0 else Counts(l1, j.ch) - 1);
  }

  lemma {:induction false} CountingKeepsTracked(l: Local, ch: string, n: nat)
    ensures SetCount(l, ch, n).tracked == l.tracked
  {
  }

  lemma {:induction false} ResyncIsIdle(s: State, sid: string)
    ensures SyncSession(SyncSession(s, sid), sid) == SyncSession(s, sid)
  {
    var snap := Tracked(s.local, sid);
    assert s.cluster.snaps[sid := snap][sid := snap] == s.cluster.snaps[sid := snap];
  }

  // ------------------------------------------------- the invariant over runs

  lemma {:induction false} SubscribedAt(l: Local, j: Job, ch: string, sid: string)
    ensures Lookup(Subscribed(l, j), ch, sid) == if ch == j.ch && sid == j.sid then Some(j.rec) else Lookup(l, ch, sid)
  {
    SubscribedKeepsPut(l, j);
    PutAt(l, j, ch, sid);
  }

  lemma {:induction false} PutAt(l: Local, j: Job, ch: string, sid: string)
    ensures Lookup(PutSub(l, j.ch, j.sid, j.rec), ch, sid) ==
            if ch == j.ch && sid == j.sid then Some(j.rec) else Lookup(l, ch, sid)
  {
  }

  lemma {:induction false} SubscribedTracksAt(l: Local, j: Job, ch: string, sid: string)
    ensures ch in Tracked(Subscribed(l, j), sid) <==> ch in Tracked(l, sid) || (ch == j.ch && sid == j.sid)
  {
  }

  lemma {:induction false} DropAt(l: Local, j: Job, ch: string, sid: string)
    ensures Lookup(DropSub(l, j.ch, j.sid), ch, sid) == if ch == j.ch && sid == j.sid then None else Lookup(l, ch, sid)
  {
    if !IsWildcard(j.ch) && ch == j.ch && ch in l.exact && sid != j.sid {
      assert sid in l.exact[ch].Keys <==> sid in l.exact[ch].Keys - {j.sid};
    }
  }

  /** Tracking and counting leave the hub alone. */
  lemma {:induction false} CountingKeepsHub(l: Local, ch: string, n: nat)
    ensures SetCount(l, ch, n).exact == l.exact && SetCount(l, ch, n).wild == l.wild
  {
  }

  lemma {:induction false} SubscribedKeepsPut(l: Local, j: Job)
    ensures Subscribed(l, j).exact == PutSub(l, j.ch, j.sid, j.rec).exact
    ensures Subscribed(l, j).wild == PutSub(l, j.ch, j.sid, j.rec).wild
  {
    var l1 := Track(PutSub(l, j.ch, j.sid, j.rec), j.sid, j.ch);
    CountingKeepsHub(l1, j.ch, Counts(l1, j.ch) + 1);
  }

  lemma {:induction false} UnsubscribedKeepsDropped(l: Local, j: Job)
    ensures Unsubscribed(l, j).exact == DropSub(l, j.ch, j.sid).exact
    ensures Unsubscribed(l, j).wild == DropSub(l, j.ch, j.sid).wild
  {
    var l1 := Untrack(DropSub(l, j.ch, j.sid), j.sid, j.ch);
    CountingKeepsHub(l1, j.ch, if Counts(l1, j.ch) == 0 then 0 else Counts(l1, j.ch) - 1);
  }

  lemma {:induction false} UnsubscribedAt(l: Local, j: Job, ch: string, sid: string)
    ensures Lookup(Unsubscribed(l, j), ch, sid) == if ch == j.ch && sid == j.sid then None else Lookup(l, ch, sid)
  {
    UnsubscribedKeepsDropped(l, j);
    DropAt(l, j, ch, sid);
  }

  lemma {:induction false} UnsubscribedTracksAt(l: Local, j: Job, ch: string, sid: string)
    ensures ch in Tracked(Unsubscribed(l, j), sid) <==> ch in Tracked(l, sid) && !(ch == j.ch && sid == j.sid)
  {
  }

  lemma {:induction false} SubscribedTracks(l: Local, j: Job)
    requires TrackedOk(l)
    ensures TrackedOk(Subscribed(l, j))
  {
    var m := Subscribed(l, j);
    forall sid, ch ensures ch in Tracked(m, sid) <==> Lookup(m, ch, sid).Some? {
      SubscribedAt(l, j, ch, sid);
      SubscribedTracksAt(l, j, ch, sid);
    }
  }

  lemma {:induction false} UnsubscribedTracks(l: Local, j: Job)
    requires TrackedOk(l)
    ensures TrackedOk(Unsubscribed(l, j))
  {
    var m := Unsubscribed(l, j);
    forall sid, ch ensures ch in Tracked(m, sid) <==> Lookup(m, ch, sid).Some? {
      UnsubscribedAt(l, j, ch, sid);
      UnsubscribedTracksAt(l, j, ch, sid);
    }
  }

  lemma {:induction false} PutWild(l: Local, j: Job, ch: string)
    ensures WildSubs(PutSub(l, j.ch, j.sid, j.rec), ch) ==
            if ch == j.ch && IsWildcard(ch) then WildSubs(l, ch) + {(j.sid, ch)} else WildSubs(l, ch)
  {
  }

  lemma {:induction false} DropWild(l: Local, j: Job, ch: string)
    ensures WildSubs(DropSub(l, j.ch, j.sid), ch) ==
            if ch == j.ch && IsWildcard(ch) then WildSubs(l, ch) - {(j.sid, ch)} else WildSubs(l, ch)
  {
  }

  lemma {:induction false} SubscribeCounts(l: Local, c: string, ch: string)
    ensures var m := BrokerSubscribe(l, c);
            CountOf(m.wc, ch) == CountOf(l.wc, ch) + (if c == ch && IsWildcard(c) then 1 else 0) &&
            CountOf(m.subs, ch) == CountOf(l.subs, ch) + (if c == ch && !IsWildcard(c) then 1 else 0)
  {
  }

  lemma {:induction false} UnsubscribeCounts(l: Local, c: string, ch: string)
    requires Counts(l, c) > 0
    ensures var m := BrokerUnsubscribe(l, c);
            CountOf(m.wc, ch) == CountOf(l.wc, ch) - (if c == ch && IsWildcard(c) then 1 else 0) &&
            CountOf(m.subs, ch) == CountOf(l.subs, ch) - (if c == ch && !IsWildcard(c) then 1 else 0)
  {
  }

  /** Whether a channel's count is right depends on the two registries and the two counters only. */
  lemma {:induction false} SameCounts(l: Local, m: Local, ch: string)
    requires CountOk(l, ch) && m.wild == l.wild && m.exact.Keys == l.exact.Keys
    requires CountOf(m.wc, ch) == CountOf(l.wc, ch) && CountOf(m.subs, ch) == CountOf(l.subs, ch)
    ensures CountOk(m, ch)
  {
    assert WildSubs(m, ch) == WildSubs(l, ch);
  }

  /** One more, or one fewer, of the channel on both sides. */
  lemma {:induction false} MoreCounts(l: Local, m: Local, ch: string, d: int)
    requires CountOk(l, ch) && (IsWildcard(ch) ==> |WildSubs(m, ch)| == |WildSubs(l, ch)| + d)
    requires !IsWildcard(ch) ==> (if ch in m.exact then 1 else 0) == (if ch in l.exact then 1 else 0) + d
    requires IsWildcard(ch) ==> CountOf(m.wc, ch) == CountOf(l.wc, ch) + d
    requires !IsWildcard(ch) ==> CountOf(m.subs, ch) == CountOf(l.subs, ch) + d
    ensures CountOk(m, ch)
  {
  }

  lemma {:induction false} PutExact(l: Local, j: Job, ch: string)
    requires Lookup(l, j.ch, j.sid).None?
    ensures var p := PutSub(l, j.ch, j.sid, j.rec);
            p.wc == l.wc && p.subs == l.subs && (ch in p.exact <==> ch in l.exact || (ch == j.ch && !IsWildcard(ch)))
    ensures IsFirst(l, j.ch, j.sid) && !IsWildcard(j.ch) ==> j.ch !in l.exact
  {
  }

  /** Counting up goes with p having one subscriber of the channel more than l. */
  lemma {:induction false} AfterPut(l: Local, p: Local, c: string, ch: string)
    requires CountOk(l, ch) && p.wc == l.wc && p.subs == l.subs
    requires IsWildcard(ch) ==> |WildSubs(p, ch)| == |WildSubs(l, ch)| + (if ch == c then 1 else 0)
    requires !IsWildcard(ch) ==> (ch in p.exact <==> ch in l.exact || ch == c) && (ch == c ==> ch !in l.exact)
    ensures CountOk(BrokerSubscribe(p, c), ch)
  {
    var m := BrokerSubscribe(p, c);
    SubscribeCounts(p, c, ch);
    assert WildSubs(m, ch) == WildSubs(p, ch);
    MoreCounts(l, m, ch, if ch == c then 1 else 0);
  }

  lemma {:induction false} SubscribedFirstCounts(l: Local, j: Job, ch: string)
    requires CountOk(l, ch) && Lookup(l, j.ch, j.sid).None? && IsFirst(l, j.ch, j.sid)
    ensures CountOk(BrokerSubscribe(PutSub(l, j.ch, j.sid, j.rec), j.ch), ch)
  {
    PutExact(l, j, ch);
    PutWild(l, j, ch);
    assert ch == j.ch && IsWildcard(ch) ==> (j.sid, ch) !in WildSubs(l, ch);
    AfterPut(l, PutSub(l, j.ch, j.sid, j.rec), j.ch, ch);
  }

  lemma {:induction false} SubscribedCounts(l: Local, j: Job, ch: string)
    requires CountOk(l, ch) && Lookup(l, j.ch, j.sid).None?
    ensures CountOk(Subscribed(l, j), ch)
  {
    var p, m := PutSub(l, j.ch, j.sid, j.rec), Subscribed(l, j);
    SubscribedIs(l, j);
    if IsFirst(l, j.ch, j.sid) {
      SubscribedFirstCounts(l, j, ch);
      TrackingKeepsCounts(BrokerSubscribe(p, j.ch), m.tracked, ch);
    } else {
      assert p.exact.Keys == l.exact.Keys;
      SameCounts(l, p, ch);
      TrackingKeepsCounts(p, m.tracked, ch);
    }
  }

  lemma {:induction false} TrackingKeepsCounts(l: Local, tracked: map<string, set<string>>, ch: string)
    requires CountOk(l, ch)
    ensures CountOk(l.(tracked := tracked), ch)
  {
    SameCounts(l, l.(tracked := tracked), ch);
  }

  /** Tracking and counting do not get into each other's way. */
  lemma {:induction false} SubscribedIs(l: Local, j: Job)
    ensures var p, m := PutSub(l, j.ch, j.sid, j.rec), Subscribed(l, j);
            m == (if IsFirst(l, j.ch, j.sid) then BrokerSubscribe(p, j.ch) else p).(tracked := m.tracked)
  {
    var p := PutSub(l, j.ch, j.sid, j.rec);
    CountingIgnoresTracking(p, Track(p, j.sid, j.ch).tracked, j.ch);
  }

  lemma {:induction false} CountingIgnoresTracking(l: Local, t: map<string, set<string>>, ch: string)
    ensures BrokerSubscribe(l.(tracked := t), ch) == BrokerSubscribe(l, ch).(tracked := t)
    ensures BrokerUnsubscribe(l.(tracked := t), ch) == BrokerUnsubscribe(l, ch).(tracked := t)
  {
  }

  lemma {:induction false} UnsubscribedIs(l: Local, j: Job)
    ensures var d, m := DropSub(l, j.ch, j.sid), Unsubscribed(l, j);
            m == (if IsLast(l, j.ch, j.sid) then BrokerUnsubscribe(d, j.ch) else d).(tracked := m.tracked)
  {
    var d := DropSub(l, j.ch, j.sid);
    CountingIgnoresTracking(d, Untrack(d, j.sid, j.ch).tracked, j.ch);
  }

  lemma {:induction false} DropExact(l: Local, j: Job, ch: string)
    requires Lookup(l, j.ch, j.sid).Some?
    ensures var d := DropSub(l, j.ch, j.sid);
            d.wc == l.wc && d.subs == l.subs &&
            (ch in d.exact <==> ch in l.exact && !(ch == j.ch && !IsWildcard(ch) && IsLast(l, j.ch, j.sid)))
  {
  }

  lemma {:induction false} UnsubscribedLastCounts(l: Local, j: Job, ch: string)
    requires CountOk(l, ch) && Lookup(l, j.ch, j.sid).Some? && Counts(l, j.ch) > 0 && IsLast(l, j.ch, j.sid)
    ensures CountOk(BrokerUnsubscribe(DropSub(l, j.ch, j.sid), j.ch), ch)
  {
    DropExact(l, j, ch);
    DropWild(l, j, ch);
    var d := DropSub(l, j.ch, j.sid);
    assert ch == j.ch && IsWildcard(ch) ==> (j.sid, ch) in WildSubs(l, ch);
    AfterDrop(l, d, j, ch);
  }

  /** Counting down goes with d having one subscriber of the channel fewer than l. */
  lemma {:induction false} AfterDrop(l: Local, d: Local, j: Job, ch: string)
    requires CountOk(l, ch) && Counts(l, j.ch) > 0 && d.wc == l.wc && d.subs == l.subs
    requires IsWildcard(ch) ==> |WildSubs(d, ch)| == |WildSubs(l, ch)| - (if ch == j.ch then 1 else 0)
    requires !IsWildcard(ch) ==> (ch in d.exact <==> ch in l.exact && ch != j.ch)
    ensures CountOk(BrokerUnsubscribe(d, j.ch), ch)
  {
    var m := BrokerUnsubscribe(d, j.ch);
    UnsubscribeCounts(d, j.ch, ch);
    assert WildSubs(m, ch) == WildSubs(d, ch);
    MoreCounts(l, m, ch, if ch == j.ch then -1 else 0);
  }

  lemma {:induction false} UnsubscribedCounts(l: Local, j: Job, ch: string)
    requires CountOk(l, ch) && Lookup(l, j.ch, j.sid).Some? && Counts(l, j.ch) > 0
    ensures CountOk(Unsubscribed(l, j), ch)
  {
    var d, m := DropSub(l, j.ch, j.sid), Unsubscribed(l, j);
    UnsubscribedIs(l, j);
    if IsLast(l, j.ch, j.sid) {
      UnsubscribedLastCounts(l, j, ch);
      TrackingKeepsCounts(BrokerUnsubscribe(d, j.ch), m.tracked, ch);
    } else {
      assert d.exact.Keys == l.exact.Keys;
      SameCounts(l, d, ch);
      TrackingKeepsCounts(d, m.tracked, ch);
    }
  }

  lemma {:induction false} SubscribedHub(l: Local, j: Job)
    requires HubOk(l) && Lookup(l, j.ch, j.sid).None? && (IsFirst(l, j.ch, j.sid) ==> InKeyLanguage(j.ch))
    ensures HubOk(Subscribed(l, j))
  {
    var m := Subscribed(l, j);
    if !IsWildcard(j.ch) {
      assert j.sid in m.exact[j.ch];
    }
  }

  lemma {:induction false} UnsubscribedHub(l: Local, j: Job)
    requires HubOk(l)
    ensures HubOk(Unsubscribed(l, j))
  {
    DroppedHub(l, j);
    UnsubscribedKeepsDropped(l, j);
  }

  lemma {:induction false} DroppedHub(l: Local, j: Job)
    requires HubOk(l)
    ensures HubOk(DropSub(l, j.ch, j.sid))
  {
    if !IsWildcard(j.ch) && j.ch in l.exact && !NoOther(l.exact[j.ch], j.sid) {
      var k :| k in l.exact[j.ch] && k != j.sid;
      assert k in l.exact[j.ch] - {j.sid};
    }
  }

  lemma {:induction false} CountingKeepsPositive(l: Local, ch: string, n: nat)
    requires Positive(l)
    ensures Positive(SetCount(l, ch, n))
  {
  }

  lemma {:induction false} SubscribedPositive(l: Local, j: Job)
    requires Positive(l)
    ensures Positive(Subscribed(l, j))
  {
    var l1 := Track(PutSub(l, j.ch, j.sid, j.rec), j.sid, j.ch);
    assert Positive(l1);
    CountingKeepsPositive(l1, j.ch, Counts(l1, j.ch) + 1);
  }

  lemma {:induction false} UnsubscribedPositive(l: Local, j: Job)
    requires Positive(l)
    ensures Positive(Unsubscribed(l, j))
  {
    var l1 := Untrack(DropSub(l, j.ch, j.sid), j.sid, j.ch);
    assert Positive(l1);
    CountingKeepsPositive(l1, j.ch, if Counts(l1, j.ch) == 0 then 0 else Counts(l1, j.ch) - 1);
  }

  lemma {:induction false} SubscribedKeepsInv(l: Local, j: Job)
    requires Inv(l) && Lookup(l, j.ch, j.sid).None? && (IsFirst(l, j.ch, j.sid) ==> InKeyLanguage(j.ch))
    ensures Inv(Subscribed(l, j))
  {
    SubscribedHub(l, j);
    SubscribedTracks(l, j);
    var m := Subscribed(l, j);
    SubscribedPositive(l, j);
    forall ch ensures CountOk(m, ch) {
      SubscribedCounts(l, j, ch);
    }
  }

  lemma {:induction false} UnsubscribedKeepsInv(l: Local, j: Job)
    requires Inv(l) && Lookup(l, j.ch, j.sid).Some?
    ensures Inv(Unsubscribed(l, j))
  {
    UnsubscribedHub(l, j);
    UnsubscribedTracks(l, j);
    var m := Unsubscribed(l, j);
    UnsubscribedPositive(l, j);
    CountIsPositive(l, j.ch, j.sid);
    forall ch ensures CountOk(m, ch) {
      UnsubscribedCounts(l, j, ch);
    }
  }

  /**
   AddSubscription is all or nothing, wherever a failure strikes: local state
   is fully updated or exactly as before, and so is the projection.
   */
  lemma {:induction false} AddIsAtomic(j: Job, s: State, fails: seq<bool>, t: State, ok: bool)
    requires CanAdd(j, s) && |fails| == 5 && SagaOutcome(j, s, ADD, fails, t, ok)
    ensures Inv(t.local)
    ensures t.local == if ok then Subscribed(s.local, j) else s.local
    ensures forall ch :: Projected(t.cluster, ch) == Projected(s.cluster, ch) + if ok && ch == j.ch then 1 else 0
    ensures ok ==> Lookup(t.local, j.ch, j.sid) == Some(j.rec) && Shown(t, j.sid) == Tracked(t.local, j.sid)
  {
    if ok {
      CommittedAdd(j, s, fails, t);
    } else {
      var k :| 0 <= k < 5 && Committed(j, s, ADD, fails, k).Some? && Committed(j, s, ADD, fails, k + 1).None? &&
               t == Unwind(j, Committed(j, s, ADD, fails, k).value, ADD, k);
      AddStates(j, s, fails, k);
      FailedAddRestoresLocal(j, s, fails, k);
      FailedAddSnapshot(j, s, k);
    }
  }

  lemma {:induction false} CommittedAdd(j: Job, s: State, fails: seq<bool>, t: State)
    requires CanAdd(j, s) && |fails| == 5 && Committed(j, s, ADD, fails, 5) == Some(t)
    ensures Inv(t.local) && t.local == Subscribed(s.local, j) && Lookup(t.local, j.ch, j.sid) == Some(j.rec)
    ensures forall ch :: Projected(t.cluster, ch) == Projected(s.cluster, ch) + if ch == j.ch then 1 else 0
    ensures Shown(t, j.sid) == Tracked(t.local, j.sid)
  {
    AddStates(j, s, fails, 5);
    AddedState(j, s);
    SubscribedKeepsInv(s.local, j);
    SubscribedAt(s.local, j, j.ch, j.sid);
  }

  lemma {:induction false} AddedState(j: Job, s: State)
    ensures var t := AddState(j, s, 5);
            t.local == Subscribed(s.local, j) && t.cluster.proj == Adjust(s.cluster, j.ch, 1).proj &&
            Shown(t, j.sid) == Tracked(t.local, j.sid)
  {
  }

  lemma {:induction false} RemoveIsAtomic(j: Job, s: State, fails: seq<bool>, t: State, ok: bool)
    requires CanRemove(j, s) && |fails| == 5 && SagaOutcome(j, s, REMOVE, fails, t, ok)
    ensures Inv(t.local)
    ensures t.local == if ok then Unsubscribed(s.local, j) else s.local
    ensures forall ch :: Projected(t.cluster, ch) == Projected(s.cluster, ch) - if ok && ch == j.ch then 1 else 0
    ensures ok ==> Lookup(t.local, j.ch, j.sid).None? && Shown(t, j.sid) == Tracked(t.local, j.sid)
  {
    if ok {
      CommittedRemove(j, s, fails, t);
    } else {
      var k :| 0 <= k < 5 && Committed(j, s, REMOVE, fails, k).Some? && Committed(j, s, REMOVE, fails, k + 1).None? &&
               t == Unwind(j, Committed(j, s, REMOVE, fails, k).value, REMOVE, k);
      RemoveStates(j, s, fails, k);
      FailedRemoveRestoresLocal(j, s, fails, k);
      FailedRemoveSnapshot(j, s, k);
    }
  }

  lemma {:induction false} CommittedRemove(j: Job, s: State, fails: seq<bool>, t: State)
    requires CanRemove(j, s) && |fails| == 5 && Committed(j, s, REMOVE, fails, 5) == Some(t)
    ensures Inv(t.local) && t.local == Unsubscribed(s.local, j) && Lookup(t.local, j.ch, j.sid).None?
    ensures forall ch :: Projected(t.cluster, ch) == Projected(s.cluster, ch) - if ch == j.ch then 1 else 0
    ensures Shown(t, j.sid) == Tracked(t.local, j.sid)
  {
    RemoveStates(j, s, fails, 5);
    RemovedState(j, s);
    UnsubscribedKeepsInv(s.local, j);
    UnsubscribedAt(s.local, j, j.ch, j.sid);
  }

  lemma {:induction false} RemovedState(j: Job, s: State)
    ensures var t := RemoveState(j, s, 5);
            t.local == Unsubscribed(s.local, j) && t.cluster.proj == Adjust(s.cluster, j.ch, -1).proj &&
            Shown(t, j.sid) == Tracked(t.local, j.sid)
  {
  }

  /**
   A failed saga leaves the session's snapshot out of date iff the step that
   failed was the last one, the channel projection.
   */
  lemma {:induction false} FailedAddIsStaleIff(j: Job, s: State, fails: seq<bool>, t: State)
    requires CanAdd(j, s) && |fails| == 5 && SagaOutcome(j, s, ADD, fails, t, false)
    requires Shown(s, j.sid) == Tracked(s.local, j.sid)
    ensures Shown(t, j.sid) != Tracked(t.local, j.sid) <==> Committed(j, s, ADD, fails, 4).Some?
  {
    var k :| 0 <= k < 5 && Committed(j, s, ADD, fails, k).Some? && Committed(j, s, ADD, fails, k + 1).None? &&
             t == Unwind(j, Committed(j, s, ADD, fails, k).value, ADD, k);
    AddStates(j, s, fails, k);
    FailedAddRestoresLocal(j, s, fails, k);
    FailedAddSnapshot(j, s, k);
    assert j.ch !in Tracked(s.local, j.sid);
    if k < 4 && Committed(j, s, ADD, fails, 4).Some? {
      CommittedPrefix(j, s, ADD, fails, k + 1, 4);
    }
  }

  lemma {:induction false} FailedRemoveIsStaleIff(j: Job, s: State, fails: seq<bool>, t: State)
    requires CanRemove(j, s) && |fails| == 5 && SagaOutcome(j, s, REMOVE, fails, t, false)
    requires Shown(s, j.sid) == Tracked(s.local, j.sid)
    ensures Shown(t, j.sid) != Tracked(t.local, j.sid) <==> Committed(j, s, REMOVE, fails, 4).Some?
  {
    var k :| 0 <= k < 5 && Committed(j, s, REMOVE, fails, k).Some? && Committed(j, s, REMOVE, fails, k + 1).None? &&
             t == Unwind(j, Committed(j, s, REMOVE, fails, k).value, REMOVE, k);
    RemoveStates(j, s, fails, k);
    FailedRemoveRestoresLocal(j, s, fails, k);
    FailedRemoveSnapshot(j, s, k);
    assert j.ch in Tracked(s.local, j.sid);
    if k < 4 && Committed(j, s, REMOVE, fails, 4).Some? {
      CommittedPrefix(j, s, REMOVE, fails, k + 1, 4);
    }
  }

  /**
   A subscribe goes through iff the topic is valid, the session open, the key
   routable where the broker is asked, and no step it takes meets a failure.
   */
  lemma {:induction false} AddSucceedsIff(j: Job, s: State, fails: seq<bool>)
    requires |fails| == 5
    ensures Committed(j, s, ADD, fails, 5).Some? <==>
            ValidTopic(j.ch) && j.sid !in s.local.closed &&
            (IsFirst(s.local, j.ch, j.sid) ==> InKeyLanguage(j.ch) && !fails[2]) &&
            !fails[0] && !fails[3] && !fails[4]
  {
    AddStepIff(j, s, fails, 1);
    AddStepIff(j, s, fails, 2);
    AddStepIff(j, s, fails, 3);
    AddStepIff(j, s, fails, 4);
    AddStepIff(j, s, fails, 5);
  }

  lemma {:induction false} AddStepIff(j: Job, s: State, fails: seq<bool>, k: nat)
    requires |fails| == 5 && 1 <= k <= 5
    ensures Committed(j, s, ADD, fails, k).Some? <==>
            Committed(j, s, ADD, fails, k - 1).Some? &&
            match k
            case 1 => ValidTopic(j.ch) && !fails[0]
            case 2 => j.sid !in s.local.closed
            case 3 => IsFirst(s.local, j.ch, j.sid) ==> InKeyLanguage(j.ch) && !fails[2]
            case _ => !fails[k - 1]
  {
    if Committed(j, s, ADD, fails, k - 1).Some? {
      AddStates(j, s, fails, k - 1);
      assert Committed(j, s, ADD, fails, k) == Commit(j, AddState(j, s, k - 1), ADD[k - 1], fails[k - 1]);
    }
  }

  /** An unsubscribe goes through iff there is a subscription and no step it takes meets a failure. */
  lemma {:induction false} RemoveSucceedsIff(j: Job, s: State, fails: seq<bool>)
    requires |fails| == 5
    ensures Committed(j, s, REMOVE, fails, 5).Some? <==>
            Lookup(s.local, j.ch, j.sid).Some? && (IsLast(s.local, j.ch, j.sid) ==> !fails[2]) &&
            !fails[0] && !fails[3] && !fails[4]
  {
    RemoveStepIff(j, s, fails, 1);
    RemoveStepIff(j, s, fails, 2);
    RemoveStepIff(j, s, fails, 3);
    RemoveStepIff(j, s, fails, 4);
    RemoveStepIff(j, s, fails, 5);
  }

  lemma {:induction false} RemoveStepIff(j: Job, s: State, fails: seq<bool>, k: nat)
    requires |fails| == 5 && 1 <= k <= 5
    ensures Committed(j, s, REMOVE, fails, k).Some? <==>
            Committed(j, s, REMOVE, fails, k - 1).Some? &&
            match k
            case 1 => Lookup(s.local, j.ch, j.sid).Some? && !fails[0]
            case 2 => true
            case 3 => IsLast(s.local, j.ch, j.sid) ==> !fails[2]
            case _ => !fails[k - 1]
  {
    if Committed(j, s, REMOVE, fails, k - 1).Some? {
      RemoveStates(j, s, fails, k - 1);
      assert Committed(j, s, REMOVE, fails, k) == Commit(j, RemoveState(j, s, k - 1), REMOVE[k - 1], fails[k - 1]);
    }
  }

  /** An operation of some session; fails says where its saga meets failures. */
  datatype Op = OpenSession(sid: string) | CloseSession(sid: string)
              | Add(j: Job, fails: seq<bool>) | Remove(ch: string, sid: string, fails: seq<bool>)

  /** s becomes t by one call: both sagas return at once when there is nothing to do. */
  predicate OpStep(s: State, op: Op, t: State) {
    match op
    case OpenSession(sid) =>
      sid !in s.local.tracked && t == s.(local := s.local.(tracked := s.local.tracked[sid := {}]))
    case CloseSession(sid) => t == s.(local := s.local.(closed := s.local.closed + {sid}))
    case Add(j, fails) =>
      |fails| == 5 && j.sid in s.local.tracked &&
      if Lookup(s.local, j.ch, j.sid).Some? then t == s
      else SagaOutcome(j, s, ADD, fails, t, true) || SagaOutcome(j, s, ADD, fails, t, false)
    case Remove(ch, sid, fails) =>
      |fails| == 5 && sid in s.local.tracked &&
      var found := Lookup(s.local, ch, sid);
      if found.None? then t == s
      else SagaOutcome(Job(ch, sid, found.value), s, REMOVE, fails, t, true) ||
           SagaOutcome(Job(ch, sid, found.value), s, REMOVE, fails, t, false)
  }

  /** How many sessions the hub has on the channel. */
  function Subscribers(l: Local, ch: string): nat {
    if IsWildcard(ch) then |WildSubs(l, ch)| else if ch in l.exact then |l.exact[ch]| else 0
  }

  lemma {:induction false} PutSubscribers(l: Local, j: Job, ch: string)
    requires Lookup(l, j.ch, j.sid).None?
    ensures Subscribers(PutSub(l, j.ch, j.sid, j.rec), ch) == Subscribers(l, ch) + if ch == j.ch then 1 else 0
  {
    PutWild(l, j, ch);
    if ch == j.ch && !IsWildcard(ch) {
      var inner := if ch in l.exact then l.exact[ch] else map[];
      assert inner[j.sid := j.rec].Keys == inner.Keys + {j.sid};
    }
  }

  lemma {:induction false} DropSubscribers(l: Local, j: Job, ch: string)
    requires Lookup(l, j.ch, j.sid).Some?
    ensures Subscribers(DropSub(l, j.ch, j.sid), ch) == Subscribers(l, ch) - if ch == j.ch then 1 else 0
  {
    DropWild(l, j, ch);
    if ch == j.ch && !IsWildcard(ch) {
      var inner := l.exact[ch];
      assert (inner - {j.sid}).Keys == inner.Keys - {j.sid};
      assert NoOther(inner, j.sid) ==> inner.Keys == {j.sid};
    }
  }

  lemma {:induction false} SameSubscribers(l: Local, m: Local, ch: string)
    requires m.exact == l.exact && m.wild == l.wild
    ensures Subscribers(m, ch) == Subscribers(l, ch)
  {
    assert WildSubs(m, ch) == WildSubs(l, ch);
  }

  lemma {:induction false} SubscribedMore(l: Local, j: Job, ch: string)
    requires Lookup(l, j.ch, j.sid).None?
    ensures Subscribers(Subscribed(l, j), ch) == Subscribers(l, ch) + if ch == j.ch then 1 else 0
  {
    SubscribedKeepsPut(l, j);
    SameSubscribers(PutSub(l, j.ch, j.sid, j.rec), Subscribed(l, j), ch);
    PutSubscribers(l, j, ch);
  }

  lemma {:induction false} UnsubscribedFewer(l: Local, j: Job, ch: string)
    requires Lookup(l, j.ch, j.sid).Some?
    ensures Subscribers(Unsubscribed(l, j), ch) == Subscribers(l, ch) - if ch == j.ch then 1 else 0
  {
    UnsubscribedKeepsDropped(l, j);
    SameSubscribers(DropSub(l, j.ch, j.sid), Unsubscribed(l, j), ch);
    DropSubscribers(l, j, ch);
  }

  /** The projection shows every channel's number of subscribed sessions. */
  ghost predicate ProjectionOk(s: State) {
    forall ch :: Projected(s.cluster, ch) == Subscribers(s.local, ch)
  }

  lemma {:induction false} AddKeepsProjection(j: Job, s: State, fails: seq<bool>, t: State, ok: bool)
    requires CanAdd(j, s) && ProjectionOk(s) && |fails| == 5 && SagaOutcome(j, s, ADD, fails, t, ok)
    ensures ProjectionOk(t)
  {
    AddIsAtomic(j, s, fails, t, ok);
    forall ch ensures Projected(t.cluster, ch) == Subscribers(t.local, ch) {
      assert Projected(s.cluster, ch) == Subscribers(s.local, ch);
      if ok { SubscribedMore(s.local, j, ch); }
    }
  }

  lemma {:induction false} RemoveKeepsProjection(j: Job, s: State, fails: seq<bool>, t: State, ok: bool)
    requires CanRemove(j, s) && ProjectionOk(s) && |fails| == 5 && SagaOutcome(j, s, REMOVE, fails, t, ok)
    ensures ProjectionOk(t)
  {
    RemoveIsAtomic(j, s, fails, t, ok);
    forall ch ensures Projected(t.cluster, ch) == Subscribers(t.local, ch) {
      assert Projected(s.cluster, ch) == Subscribers(s.local, ch);
      if ok { UnsubscribedFewer(s.local, j, ch); }
    }
  }

  lemma {:induction false} OpKeepsProjection(s: State, op: Op, t: State)
    requires Inv(s.local) && ProjectionOk(s) && OpStep(s, op, t)
    ensures ProjectionOk(t)
  {
    match op
    case Add(j, fails) =>
      if Lookup(s.local, j.ch, j.sid).None? {
        if SagaOutcome(j, s, ADD, fails, t, true) { AddKeepsProjection(j, s, fails, t, true); }
        else { AddKeepsProjection(j, s, fails, t, false); }
      }
    case Remove(ch, sid, fails) =>
      var found := Lookup(s.local, ch, sid);
      if found.Some? {
        var j := Job(ch, sid, found.value);
        if SagaOutcome(j, s, REMOVE, fails, t, true) { RemoveKeepsProjection(j, s, fails, t, true); }
        else { RemoveKeepsProjection(j, s, fails, t, false); }
      }
    case _ => forall ch ensures Projected(t.cluster, ch) == Subscribers(t.local, ch) {
      SameSubscribers(s.local, t.local, ch);
      assert Projected(s.cluster, ch) == Subscribers(s.local, ch);
    }
  }

  lemma {:induction false} ClosedStep(s: State, op: Op, t: State, sid: string)
    requires Inv(s.local) && OpStep(s, op, t) && sid in s.local.closed
    ensures sid in t.local.closed && Tracked(t.local, sid) <= Tracked(s.local, sid)
  {
    match op
    case Add(j, fails) =>
      if Lookup(s.local, j.ch, j.sid).None? {
        var ok := SagaOutcome(j, s, ADD, fails, t, true);
        AddIsAtomic(j, s, fails, t, ok);
        if ok {
          AddSucceedsIff(j, s, fails);
          SubscribedKeepsOthers(s.local, j, sid);
        }
      }
    case Remove(ch, x, fails) =>
      var found := Lookup(s.local, ch, x);
      if found.Some? {
        var j := Job(ch, x, found.value);
        var ok := SagaOutcome(j, s, REMOVE, fails, t, true);
        RemoveIsAtomic(j, s, fails, t, ok);
        if ok { UnsubscribedKeepsOthers(s.local, j, sid); }
      }
    case _ =>
  }

  lemma {:induction false} SubscribedKeepsOthers(l: Local, j: Job, sid: string)
    ensures Subscribed(l, j).closed == l.closed
    ensures sid != j.sid ==> Tracked(Subscribed(l, j), sid) == Tracked(l, sid)
  {
    var l1 := Track(PutSub(l, j.ch, j.sid, j.rec), j.sid, j.ch);
    CountingKeepsSessions(l1, j.ch, Counts(l1, j.ch) + 1);
  }

  lemma {:induction false} CountingKeepsSessions(l: Local, ch: string, n: nat)
    ensures SetCount(l, ch, n).tracked == l.tracked && SetCount(l, ch, n).closed == l.closed
  {
  }

  lemma {:induction false} UnsubscribedKeepsOthers(l: Local, j: Job, sid: string)
    ensures Unsubscribed(l, j).closed == l.closed && Tracked(Unsubscribed(l, j), sid) <= Tracked(l, sid)
  {
    var l1 := Untrack(DropSub(l, j.ch, j.sid), j.sid, j.ch);
    assert l1.closed == l.closed && Tracked(l1, sid) <= Tracked(l, sid);
    CountingKeepsSessions(l1, j.ch, if Counts(l1, j.ch) == 0 then 0 else Counts(l1, j.ch) - 1);
  }

  /** Once a session is closed it never gains a subscription again: what it has only shrinks. */
  lemma {:induction false} ClosedOnlyShrinks(states: seq<State>, ops: seq<Op>, i: nat, sid: string)
    requires IsRun(states, ops) && i < |ops| && ops[i] == CloseSession(sid)
    ensures sid in states[|ops|].local.closed
    ensures Tracked(states[|ops|].local, sid) <= Tracked(states[i].local, sid)
    decreases |ops|
  {
    var n := |ops| - 1;
    assert OpStep(states[n], ops[n], states[n + 1]);
    if i < n {
      ClosedOnlyShrinks(states[..|ops|], ops[..n], i, sid);
      RegistriesAgree(states[..|ops|], ops[..n]);
      ClosedStep(states[n], ops[n], states[n + 1], sid);
    }
  }

  lemma {:induction false} OpKeepsInv(s: State, op: Op, t: State)
    requires Inv(s.local) && OpStep(s, op, t)
    ensures Inv(t.local)
  {
    match op
    case OpenSession(sid) =>
      forall x, ch ensures ch in Tracked(t.local, x) <==> Lookup(t.local, ch, x).Some? {
        assert ch in Tracked(s.local, x) <==> Lookup(s.local, ch, x).Some?;
        assert Tracked(s.local, sid) == {};
      }
      forall ch ensures CountOk(t.local, ch) { SameCounts(s.local, t.local, ch); }
    case CloseSession(sid) =>
      assert forall x :: Tracked(t.local, x) == Tracked(s.local, x);
      assert forall x, ch :: Lookup(t.local, ch, x) == Lookup(s.local, ch, x);
      forall ch ensures CountOk(t.local, ch) { SameCounts(s.local, t.local, ch); }
    case Add(j, fails) =>
      if Lookup(s.local, j.ch, j.sid).None? {
        if SagaOutcome(j, s, ADD, fails, t, true) { AddIsAtomic(j, s, fails, t, true); }
        else { AddIsAtomic(j, s, fails, t, false); }
      }
    case Remove(ch, sid, fails) =>
      var found := Lookup(s.local, ch, sid);
      if found.Some? {
        var j := Job(ch, sid, found.value);
        if SagaOutcome(j, s, REMOVE, fails, t, true) { RemoveIsAtomic(j, s, fails, t, true); }
        else { RemoveIsAtomic(j, s, fails, t, false); }
      }
  }

  const FRESH_NODE := Local(map[], map[], map[], {}, map[], map[])

  predicate IsRun(states: seq<State>, ops: seq<Op>) {
    |states| == |ops| + 1 && states[0].local == FRESH_NODE && states[0].cluster.proj == map[] &&
    forall i | 0 <= i < |ops| :: OpStep(states[i], ops[i], states[i + 1])
  }

  /**
   Over every run of subscribes and unsubscribes with failures anywhere, the
   broker's count of an exact channel is 1 iff the hub has a subscriber, a
   wildcard's count is its number of subscribers, each session tracks exactly
   its subscriptions, and the projection of every channel is its number of
   subscribed sessions.
   */
  lemma {:induction false} RegistriesAgree(states: seq<State>, ops: seq<Op>)
    requires IsRun(states, ops)
    ensures Inv(states[|ops|].local)
    ensures forall ch :: Projected(states[|ops|].cluster, ch) == Subscribers(states[|ops|].local, ch)
    decreases |ops|
  {
    if ops == [] {
      var l := states[0].local;
      assert forall ch :: WildSubs(l, ch) == {};
      assert forall sid :: Tracked(l, sid) == {};
      assert forall sid, ch :: Lookup(l, ch, sid).None?;
    } else {
      var n := |ops| - 1;
      RegistriesAgree(states[..|ops|], ops[..n]);
      assert OpStep(states[n], ops[n], states[n + 1]);
      assert ProjectionOk(states[n]);
      OpKeepsInv(states[n], ops[n], states[n + 1]);
      OpKeepsProjection(states[n], ops[n], states[n + 1]);
    }
  }
}

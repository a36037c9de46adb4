/**
 The sagas of a whole node at once: a channel's saga holds that channel's lock,
 and the steps of sagas on different channels interleave in any order
 (internal/runtime/node.go, internal/runtime/subscription_saga.go).
 */
module InterleavedSagas {
  import opened Options
  import opened Topics
  import opened Patterns
  import opened Subscriptions

  /**
   A saga holding its channel's lock: what it has executed, whether it is
   rolling back, and the flags of its closures. base is history: the channel's
   part of the registries when it took the lock.
   */
  datatype Saga = Saga(j: Job, add: bool, undo: bool, executed: nat, first: bool, last: bool, base: Local)

  /** sagas is keyed by the locked channel. */
  datatype Conc = Conc(local: Local, cluster: Cluster, sagas: map<string, Saga>)

  datatype Event = Begin(j: Job, add: bool) | StepSaga(ch: string, fail: bool) | CloseSession(sid: string)

  function StepsOf(g: Saga): (steps: seq<Step>)
    ensures |steps| == 5
  {
    if g.add then ADD else REMOVE
  }

  /** The node as the closures of one saga see it. */
  function Seen(s: Conc, g: Saga): State {
    State(s.local, s.cluster, g.first, g.last)
  }

  function Put(s: Conc, ch: string, g: Saga, t: State): Conc {
    Conc(t.local, t.cluster, s.sagas[ch := g.(first := t.first, last := t.last)])
  }

  /** One step of the saga: a commit, the turn to undoing, an undo, or the return that frees the lock. */
  function Advance(s: Conc, ch: string, fail: bool): Conc
    requires ch in s.sagas
  {
    var g := s.sagas[ch];
    if g.undo then
      if g.executed == 0 || g.executed > 5 then s.(sagas := s.sagas - {ch})
      else Put(s, ch, g.(executed := g.executed - 1), Rollback(g.j, Seen(s, g), StepsOf(g)[g.executed - 1]))
    else if g.executed >= 5 then s.(sagas := s.sagas - {ch})
    else
      var t := Commit(g.j, Seen(s, g), StepsOf(g)[g.executed], fail);
      if t.None? then s.(sagas := s.sagas[ch := g.(undo := true)])
      else Put(s, ch, g.(executed := g.executed + 1), t.value)
  }

  /** A call that finds its channel locked waits, and one with nothing to do returns at once. */
  function Next(s: Conc, e: Event): Conc {
    match e
    case Begin(j, add) =>
      var found := Lookup(s.local, j.ch, j.sid);
      if j.ch in s.sagas || j.sid !in s.local.tracked || (found.None? <==> !add) then s
      else
        var job := if add then j else j.(rec := found.value);
        s.(sagas := s.sagas[j.ch := Saga(job, add, false, 0, false, false, Only(s.local, j.ch))])
    case StepSaga(ch, fail) => if ch in s.sagas then Advance(s, ch, fail) else s
    case CloseSession(sid) => s.(local := s.local.(closed := s.local.closed + {sid}))
  }

  /** A node before its first subscription; sids are the sessions that will ever open on it. */
  function Start(sids: set<string>): Conc {
    Conc(Local(map[], map[], map sid | sid in sids :: {}, {}, map[], map[]), Cluster(map[], map[]), map[])
  }

  function Run(sids: set<string>, es: seq<Event>): Conc {
    if es == [] then Start(sids) else Next(Run(sids, es[..|es| - 1]), es[|es| - 1])
  }

  // -------------------------------------------------- one channel on its own

  function AtKey<V>(m: map<string, V>, ch: string): map<string, V> {
    map k | k in m && k == ch :: m[k]
  }

  function AtWild(m: map<(string, string), Record>, ch: string): map<(string, string), Record> {
    map k | k in m && k.1 == ch :: m[k]
  }

  function AtTracked(m: map<string, set<string>>, ch: string): map<string, set<string>> {
    map sid | sid in m :: m[sid] * {ch}
  }

  /** The registries restricted to one channel, whichever sessions are closed. */
  function Only(l: Local, ch: string): Local {
    Local(AtKey(l.exact, ch), AtWild(l.wild, ch), AtTracked(l.tracked, ch), {}, AtKey(l.subs, ch), AtKey(l.wc, ch))
  }

  lemma {:induction false} OnlyLooksSame(l: Local, ch: string, sid: string)
    ensures Lookup(Only(l, ch), ch, sid) == Lookup(l, ch, sid)
    ensures IsFirst(Only(l, ch), ch, sid) == IsFirst(l, ch, sid) && IsLast(Only(l, ch), ch, sid) == IsLast(l, ch, sid)
    ensures ch in Tracked(Only(l, ch), sid) <==> ch in Tracked(l, sid)
  {
  }

  lemma {:induction false} AtKeyPut<V>(m: map<string, V>, c: string, v: V, ch: string)
    ensures AtKey(m[c := v], ch) == if c == ch then AtKey(m, ch)[c := v] else AtKey(m, ch)
  {
  }

  lemma {:induction false} AtKeyDrop<V>(m: map<string, V>, c: string, ch: string)
    ensures AtKey(m - {c}, ch) == if c == ch then AtKey(m, ch) - {c} else AtKey(m, ch)
  {
  }

  lemma {:induction false} AtWildPut(m: map<(string, string), Record>, k: (string, string), rec: Record, ch: string)
    ensures AtWild(m[k := rec], ch) == if k.1 == ch then AtWild(m, ch)[k := rec] else AtWild(m, ch)
  {
  }

  lemma {:induction false} AtWildDrop(m: map<(string, string), Record>, k: (string, string), ch: string)
    ensures AtWild(m - {k}, ch) == if k.1 == ch then AtWild(m, ch) - {k} else AtWild(m, ch)
  {
  }

  lemma {:induction false} OnlyPut(l: Local, c: string, sid: string, rec: Record, ch: string)
    ensures Only(PutSub(l, c, sid, rec), ch) == if c == ch then PutSub(Only(l, ch), c, sid, rec) else Only(l, ch)
  {
    if IsWildcard(c) {
      AtWildPut(l.wild, (sid, c), rec, ch);
    } else {
      AtKeyPut(l.exact, c, (if c in l.exact then l.exact[c] else map[])[sid := rec], ch);
    }
  }

  function ExactDropped(m: map<string, map<string, Record>>, c: string, sid: string): map<string, map<string, Record>> {
    if c !in m || sid !in m[c] then m else if NoOther(m[c], sid) then m - {c} else m[c := m[c] - {sid}]
  }

  lemma {:induction false} AtKeyExactDropped(m: map<string, map<string, Record>>, c: string, sid: string, ch: string)
    ensures AtKey(ExactDropped(m, c, sid), ch) == if c == ch then ExactDropped(AtKey(m, ch), c, sid) else AtKey(m, ch)
  {
    if c in m {
      AtKeyDrop(m, c, ch);
      AtKeyPut(m, c, m[c] - {sid}, ch);
    }
  }

  lemma {:induction false} DropIs(l: Local, c: string, sid: string)
    ensures DropSub(l, c, sid) ==
            if IsWildcard(c) then l.(wild := l.wild - {(sid, c)}) else l.(exact := ExactDropped(l.exact, c, sid))
  {
  }

  lemma {:induction false} OnlyDrop(l: Local, c: string, sid: string, ch: string)
    ensures Only(DropSub(l, c, sid), ch) == if c == ch then DropSub(Only(l, ch), c, sid) else Only(l, ch)
  {
    DropIs(l, c, sid);
    DropIs(Only(l, ch), c, sid);
    if IsWildcard(c) {
      AtWildDrop(l.wild, (sid, c), ch);
    } else {
      AtKeyExactDropped(l.exact, c, sid, ch);
    }
  }

  lemma {:induction false} AtTrackedSet(m: map<string, set<string>>, sid: string, chs: set<string>, ch: string)
    requires sid in m
    ensures AtTracked(m[sid := chs], ch) == AtTracked(m, ch)[sid := chs * {ch}]
    ensures chs * {ch} == m[sid] * {ch} ==> AtTracked(m[sid := chs], ch) == AtTracked(m, ch)
  {
  }

  lemma {:induction false} OnlyTracks(l: Local, sid: string, c: string, ch: string)
    requires sid in l.tracked
    ensures Only(Track(l, sid, c), ch) == if c == ch then Track(Only(l, ch), sid, c) else Only(l, ch)
    ensures Only(Untrack(l, sid, c), ch) == if c == ch then Untrack(Only(l, ch), sid, c) else Only(l, ch)
  {
    var chs := l.tracked[sid];
    AtTrackedSet(l.tracked, sid, chs + {c}, ch);
    AtTrackedSet(l.tracked, sid, chs - {c}, ch);
    if c == ch {
      assert (chs + {c}) * {ch} == chs * {ch} + {c};
      assert (chs - {c}) * {ch} == chs * {ch} - {c};
    } else {
      assert (chs + {c}) * {ch} == chs * {ch};
      assert (chs - {c}) * {ch} == chs * {ch};
    }
  }

  lemma {:induction false} AtKeySet(m: map<string, nat>, c: string, n: nat, ch: string)
    ensures AtKey(SetIn(m, c, n), ch) == if c == ch then SetIn(AtKey(m, ch), c, n) else AtKey(m, ch)
  {
    if n == 0 { AtKeyDrop(m, c, ch); } else { AtKeyPut(m, c, n, ch); }
  }

  lemma {:induction false} OnlySetCount(l: Local, c: string, n: nat, ch: string)
    ensures Only(SetCount(l, c, n), ch) == if c == ch then SetCount(Only(l, ch), c, n) else Only(l, ch)
  {
    if IsWildcard(c) { AtKeySet(l.wc, c, n, ch); } else { AtKeySet(l.subs, c, n, ch); }
  }

  lemma {:induction false} OnlyCounts(l: Local, ch: string)
    ensures Counts(Only(l, ch), ch) == Counts(l, ch)
  {
  }

  lemma {:induction false} OnlySubscribes(l: Local, c: string, ch: string)
    ensures Only(BrokerSubscribe(l, c), ch) == if c == ch then BrokerSubscribe(Only(l, ch), c) else Only(l, ch)
  {
    var n := Counts(l, c) + 1;
    OnlySetCount(l, c, n, ch);
    if c == ch {
      OnlyCounts(l, ch);
      assert BrokerSubscribe(Only(l, ch), c) == SetCount(Only(l, ch), c, n);
    }
  }

  lemma {:induction false} OnlyUnsubscribes(l: Local, c: string, ch: string)
    ensures Only(BrokerUnsubscribe(l, c), ch) == if c == ch then BrokerUnsubscribe(Only(l, ch), c) else Only(l, ch)
  {
    var n := if Counts(l, c) == 0 then 0 else Counts(l, c) - 1;
    OnlySetCount(l, c, n, ch);
    if c == ch {
      OnlyCounts(l, ch);
      assert BrokerUnsubscribe(Only(l, ch), c) == SetCount(Only(l, ch), c, n);
    }
  }

  /** A step acts on its own channel as if the node had no other, and leaves every other channel alone. */
  predicate ActsAlone(j: Job, a: Local, b: Local, alone: Local, ch: string) {
    b.tracked.Keys == a.tracked.Keys && Only(b, ch) == if ch == j.ch then alone else Only(a, ch)
  }

  function AloneState(s: State, ch: string): State {
    s.(local := Only(s.local, ch))
  }

  lemma {:induction false} HubActsAlone(j: Job, l: Local, ch: string)
    ensures var alone := Only(l, j.ch);
            ActsAlone(j, l, PutSub(l, j.ch, j.sid, j.rec), PutSub(alone, j.ch, j.sid, j.rec), ch) &&
            ActsAlone(j, l, DropSub(l, j.ch, j.sid), DropSub(alone, j.ch, j.sid), ch)
  {
    OnlyPut(l, j.ch, j.sid, j.rec, ch);
    OnlyDrop(l, j.ch, j.sid, ch);
  }

  lemma {:induction false} TrackingActsAlone(j: Job, l: Local, ch: string)
    requires j.sid in l.tracked
    ensures var alone := Only(l, j.ch);
            ActsAlone(j, l, Track(l, j.sid, j.ch), Track(alone, j.sid, j.ch), ch) &&
            ActsAlone(j, l, Untrack(l, j.sid, j.ch), Untrack(alone, j.sid, j.ch), ch)
  {
    OnlyTracks(l, j.sid, j.ch, ch);
  }

  lemma {:induction false} BrokerActsAlone(j: Job, l: Local, ch: string)
    ensures var alone := Only(l, j.ch);
            ActsAlone(j, l, BrokerSubscribe(l, j.ch), BrokerSubscribe(alone, j.ch), ch) &&
            ActsAlone(j, l, BrokerUnsubscribe(l, j.ch), BrokerUnsubscribe(alone, j.ch), ch)
  {
    OnlySubscribes(l, j.ch, ch);
    OnlyUnsubscribes(l, j.ch, ch);
  }

  /** Whatever a step does to the registries is one of these changes. */
  lemma {:induction false} ChangesActAlone(j: Job, l: Local, step: Step, ch: string)
    requires j.sid in l.tracked
    ensures ActsAlone(j, l, Changed(j, l, step), Changed(j, Only(l, j.ch), step), ch)
    ensures ActsAlone(j, l, ChangedBack(j, l, step), ChangedBack(j, Only(l, j.ch), step), ch)
    ensures ActsAlone(j, l, l, Only(l, j.ch), ch)
  {
    match step
    case HubAdd => HubActsAlone(j, l, ch);
    case HubRemove => HubActsAlone(j, l, ch);
    case TrackClient => TrackingActsAlone(j, l, ch);
    case UntrackClient => TrackingActsAlone(j, l, ch);
    case BrokerAdd => BrokerActsAlone(j, l, ch);
    case BrokerRemove => BrokerActsAlone(j, l, ch);
    case _ =>
  }

  /** What the step does to the registries when it does anything, and what undoing it does. */
  function Changed(j: Job, l: Local, step: Step): Local {
    match step
    case HubAdd => PutSub(l, j.ch, j.sid, j.rec)
    case HubRemove => DropSub(l, j.ch, j.sid)
    case TrackClient => Track(l, j.sid, j.ch)
    case UntrackClient => Untrack(l, j.sid, j.ch)
    case BrokerAdd => BrokerSubscribe(l, j.ch)
    case BrokerRemove => BrokerUnsubscribe(l, j.ch)
    case _ => l
  }

  function ChangedBack(j: Job, l: Local, step: Step): Local {
    match step
    case HubAdd => DropSub(l, j.ch, j.sid)
    case HubRemove => PutSub(l, j.ch, j.sid, j.rec)
    case TrackClient => Untrack(l, j.sid, j.ch)
    case UntrackClient => Track(l, j.sid, j.ch)
    case BrokerAdd => BrokerUnsubscribe(l, j.ch)
    case BrokerRemove => BrokerSubscribe(l, j.ch)
    case _ => l
  }

  /** The broker steps of a saga that is not the first or the last do nothing. */
  predicate Passes(s: State, step: Step) {
    (step.BrokerAdd? && !s.first) || (step.BrokerRemove? && !s.last)
  }

  lemma {:induction false} CommitChanges(j: Job, s: State, step: Step, fail: bool)
    requires Commit(j, s, step, fail).Some?
    ensures var t := Commit(j, s, step, fail).value;
            t.local == (if Passes(s, step) then s.local else Changed(j, s.local, step)) &&
            t.first == (if step.HubAdd? then IsFirst(s.local, j.ch, j.sid) else s.first) &&
            t.last == (if step.HubRemove? then IsLast(s.local, j.ch, j.sid) else s.last)
  {
  }

  lemma {:induction false} RollbackChanges(j: Job, s: State, step: Step)
    ensures var t := Rollback(j, s, step);
            t.local == (if Passes(s, step) then s.local else ChangedBack(j, s.local, step)) &&
            t.first == s.first && t.last == s.last
  {
  }

  lemma {:induction false} CommitActsAlone(j: Job, s: State, step: Step, fail: bool, ch: string)
    requires j.sid in s.local.tracked && Commit(j, s, step, fail).Some?
    ensures Commit(j, AloneState(s, j.ch), step, fail).Some?
    ensures var t, a := Commit(j, s, step, fail).value, Commit(j, AloneState(s, j.ch), step, fail).value;
            ActsAlone(j, s.local, t.local, a.local, ch) && t.first == a.first && t.last == a.last
  {
    OnlyLooksSame(s.local, j.ch, j.sid);
    CommitChanges(j, s, step, fail);
    assert Commit(j, AloneState(s, j.ch), step, fail).Some?;
    CommitChanges(j, AloneState(s, j.ch), step, fail);
    ChangesActAlone(j, s.local, step, ch);
  }

  lemma {:induction false} RollbackActsAlone(j: Job, s: State, step: Step, ch: string)
    requires j.sid in s.local.tracked
    ensures var t, a := Rollback(j, s, step), Rollback(j, AloneState(s, j.ch), step);
            ActsAlone(j, s.local, t.local, a.local, ch) && t.first == s.first && t.last == s.last
  {
    RollbackChanges(j, s, step);
    RollbackChanges(j, AloneState(s, j.ch), step);
    ChangesActAlone(j, s.local, step, ch);
  }

  // ----------------------------------------------------------- the invariant

  /** The channel alone, when the saga began. */
  function BaseState(g: Saga): State {
    State(g.base, Cluster(map[], map[]), false, false)
  }

  /** The channel alone, after as many undisturbed steps as the saga has executed. */
  function Expected(g: Saga): State
    requires g.executed <= 5
  {
    if g.add then AddState(g.j, BaseState(g), g.executed) else RemoveState(g.j, BaseState(g), g.executed)
  }

  ghost predicate SagaOk(g: Saga) {
    g.executed <= 5 && (if g.add then CanAdd(g.j, BaseState(g)) else CanRemove(g.j, BaseState(g))) &&
    (!g.undo || g.executed > 0 ==> g.first == Expected(g).first && g.last == Expected(g).last) &&
    g.base.closed == {} && (g.undo ==> g.executed < 5) && (g.add && g.executed >= 1 ==> ValidTopic(g.j.ch)) &&
    (g.add && g.executed >= 3 && IsFirst(g.base, g.j.ch, g.j.sid) ==> InKeyLanguage(g.j.ch))
  }

  ghost predicate ChannelOk(s: Conc, ch: string) {
    if ch !in s.sagas then Inv(Only(s.local, ch)) else
    var g := s.sagas[ch];
    g.j.ch == ch && g.j.sid in s.local.tracked && SagaOk(g) && Only(s.local, ch) == Expected(g).local
  }

  /** A commit of the channel alone takes the expected state to the next one. */
  lemma {:induction false} ExpectedCommit(g: Saga, a: State, fail: bool)
    requires SagaOk(g) && !g.undo && g.executed < 5
    requires a.local == Expected(g).local && a.first == g.first && a.last == g.last
    requires Commit(g.j, a, StepsOf(g)[g.executed], fail).Some?
    ensures var t, h := Commit(g.j, a, StepsOf(g)[g.executed], fail).value, g.(executed := g.executed + 1);
            t.local == Expected(h).local && SagaOk(h.(first := t.first, last := t.last))
  {
    CommitChanges(g.j, a, StepsOf(g)[g.executed], fail);
    if g.add { NextAdd(g.j, BaseState(g), g.executed); } else { NextRemove(g.j, BaseState(g), g.executed); }
  }

  lemma {:induction false} NextAdd(j: Job, s: State, i: nat)
    requires i < 5
    ensures var a, b := AddState(j, s, i), AddState(j, s, i + 1);
            b.local == (if Passes(a, ADD[i]) then a.local else Changed(j, a.local, ADD[i])) &&
            b.first == (if i == 0 then IsFirst(a.local, j.ch, j.sid) else a.first) && b.last == a.last
  {
  }

  lemma {:induction false} NextRemove(j: Job, s: State, i: nat)
    requires i < 5
    ensures var a, b := RemoveState(j, s, i), RemoveState(j, s, i + 1);
            b.local == (if Passes(a, REMOVE[i]) then a.local else Changed(j, a.local, REMOVE[i])) &&
            b.last == (if i == 0 then IsLast(a.local, j.ch, j.sid) else a.last) && b.first == a.first
  {
  }

  /** The step that led here can be committed again from the state before it. */
  lemma {:induction false} ExpectedBefore(g: Saga)
    requires SagaOk(g) && 0 < g.executed
    ensures var a := Expected(g.(executed := g.executed - 1));
            Commit(g.j, a, StepsOf(g)[g.executed - 1], false) == Some(Expected(g)) &&
            Undoable(g.j, a, StepsOf(g)[g.executed - 1])
  {
    var i := g.executed - 1;
    if g.add {
      AddIsUndoable(g.j, BaseState(g), i);
      AddAgain(g.j, BaseState(g), i);
    } else {
      RemoveIsUndoable(g.j, BaseState(g), i);
      RemoveAgain(g.j, BaseState(g), i);
    }
  }

  lemma {:induction false} AddAgain(j: Job, s: State, i: nat)
    requires i < 5 && s.local.closed == {} && ValidTopic(j.ch)
    requires i >= 2 && IsFirst(s.local, j.ch, j.sid) ==> InKeyLanguage(j.ch)
    ensures Commit(j, AddState(j, s, i), ADD[i], false) == Some(AddState(j, s, i + 1))
  {
  }

  lemma {:induction false} RemoveAgain(j: Job, s: State, i: nat)
    requires i < 5 && Lookup(s.local, j.ch, j.sid).Some?
    ensures Commit(j, RemoveState(j, s, i), REMOVE[i], false) == Some(RemoveState(j, s, i + 1))
  {
  }

  lemma {:induction false} ExpectedRollback(g: Saga, a: State)
    requires SagaOk(g) && g.undo && 0 < g.executed
    requires a.local == Expected(g).local && a.first == g.first && a.last == g.last
    ensures Rollback(g.j, a, StepsOf(g)[g.executed - 1]).local == Expected(g.(executed := g.executed - 1)).local
  {
    ExpectedBefore(g);
    UndoStep(g.j, Expected(g.(executed := g.executed - 1)), StepsOf(g)[g.executed - 1], false, a);
  }

  lemma {:induction false} RollbackKeepsSaga(g: Saga)
    requires SagaOk(g) && g.undo && 0 < g.executed
    ensures SagaOk(g.(executed := g.executed - 1))
  {
  }

  /** A saga that returns has done all of its work on the channel, or none. */
  lemma {:induction false} ExpectedEnd(g: Saga)
    requires SagaOk(g) && (if g.undo then g.executed == 0 else g.executed == 5)
    ensures Inv(Expected(g).local)
    ensures Expected(g).local == if g.undo then g.base
                                 else if g.add then Subscribed(g.base, g.j) else Unsubscribed(g.base, g.j)
  {
    if !g.undo {
      if g.add { SubscribedKeepsInv(g.base, g.j); } else { UnsubscribedKeepsInv(g.base, g.j); }
    }
  }

  ghost predicate ConcOk(s: Conc) {
    forall ch :: ChannelOk(s, ch)
  }

  /** A channel's condition depends on its own part of the registries, on its saga and on who has a session. */
  lemma {:induction false} SameChannel(s: Conc, n: Conc, ch: string)
    requires ChannelOk(s, ch) && Only(n.local, ch) == Only(s.local, ch) && n.local.tracked.Keys == s.local.tracked.Keys
    requires ch in n.sagas <==> ch in s.sagas
    requires ch in s.sagas ==> n.sagas[ch] == s.sagas[ch]
    ensures ChannelOk(n, ch)
  {
  }

  /** Storing a saga's step leaves the other channels as they were. */
  lemma {:induction false} PutElsewhere(s: Conc, c: string, g: Saga, t: State, ch: string)
    requires ChannelOk(s, ch) && ch != c
    requires Only(t.local, ch) == Only(s.local, ch) && t.local.tracked.Keys == s.local.tracked.Keys
    ensures ChannelOk(Put(s, c, g, t), ch)
  {
    SameChannel(s, Put(s, c, g, t), ch);
  }

  lemma {:induction false} PutHere(s: Conc, g: Saga, t: State)
    requires SagaOk(g.(first := t.first, last := t.last)) && g.j.sid in t.local.tracked
    requires Only(t.local, g.j.ch) == Expected(g).local
    ensures ChannelOk(Put(s, g.j.ch, g, t), g.j.ch)
  {
  }

  /** The saga's next step commits. */
  predicate Commits(s: Conc, g: Saga, fail: bool) {
    !g.undo && g.executed < 5 && Commit(g.j, Seen(s, g), StepsOf(g)[g.executed], fail).Some?
  }

  lemma {:induction false} CommitKeepsOwn(s: Conc, ch: string, fail: bool)
    requires ch in s.sagas && ChannelOk(s, ch) && Commits(s, s.sagas[ch], fail)
    ensures ChannelOk(Advance(s, ch, fail), ch)
  {
    var g := s.sagas[ch];
    var step := StepsOf(g)[g.executed];
    CommitActsAlone(g.j, Seen(s, g), step, fail, ch);
    ExpectedCommit(g, AloneState(Seen(s, g), ch), fail);
    PutHere(s, g.(executed := g.executed + 1), Commit(g.j, Seen(s, g), step, fail).value);
  }

  lemma {:induction false} CommitKeepsOthers(s: Conc, c: string, fail: bool, ch: string)
    requires c in s.sagas && ChannelOk(s, c) && ChannelOk(s, ch) && ch != c && Commits(s, s.sagas[c], fail)
    ensures ChannelOk(Advance(s, c, fail), ch)
  {
    var g := s.sagas[c];
    var step := StepsOf(g)[g.executed];
    CommitActsAlone(g.j, Seen(s, g), step, fail, ch);
    PutElsewhere(s, c, g.(executed := g.executed + 1), Commit(g.j, Seen(s, g), step, fail).value, ch);
  }

  lemma {:induction false} RollbackKeeps(s: Conc, c: string, ch: string)
    requires c in s.sagas && ChannelOk(s, c) && ChannelOk(s, ch) && s.sagas[c].undo && s.sagas[c].executed > 0
    ensures ChannelOk(Advance(s, c, false), ch)
  {
    var g := s.sagas[c];
    var step := StepsOf(g)[g.executed - 1];
    RollbackActsAlone(g.j, Seen(s, g), step, ch);
    var t := Rollback(g.j, Seen(s, g), step);
    var h := g.(executed := g.executed - 1);
    if ch == c {
      ExpectedRollback(g, AloneState(Seen(s, g), c));
      RollbackKeepsSaga(g);
      PutHere(s, h, t);
    } else {
      PutElsewhere(s, c, h, t, ch);
    }
  }

  /** The step after which the saga returns. */
  predicate Ends(g: Saga) {
    if g.undo then g.executed == 0 else g.executed == 5
  }

  lemma {:induction false} AdvanceKeeps(s: Conc, c: string, fail: bool, ch: string)
    requires c in s.sagas && ChannelOk(s, c) && ChannelOk(s, ch)
    ensures ChannelOk(Advance(s, c, fail), ch)
  {
    var g := s.sagas[c];
    if Ends(g) {
      ExpectedEnd(g);
      if ch != c { SameChannel(s, Advance(s, c, fail), ch); }
    } else if g.undo {
      RollbackKeeps(s, c, ch);
    } else if Commits(s, g, fail) {
      if ch == c { CommitKeepsOwn(s, c, fail); } else { CommitKeepsOthers(s, c, fail, ch); }
    } else if ch != c {
      SameChannel(s, Advance(s, c, fail), ch);
    }
  }

  lemma {:induction false} BeginKeeps(s: Conc, j: Job, add: bool, ch: string)
    requires ChannelOk(s, j.ch) && ChannelOk(s, ch)
    ensures ChannelOk(Next(s, Begin(j, add)), ch)
  {
    var n := Next(s, Begin(j, add));
    if ch == j.ch {
      OnlyLooksSame(s.local, ch, j.sid);
    } else {
      SameChannel(s, n, ch);
    }
  }

  lemma {:induction false} NextKeepsOk(s: Conc, e: Event)
    requires ConcOk(s)
    ensures ConcOk(Next(s, e))
  {
    forall ch ensures ChannelOk(Next(s, e), ch) {
      assert ChannelOk(s, ch);
      match e
      case Begin(j, add) =>
        assert ChannelOk(s, j.ch);
        BeginKeeps(s, j, add, ch);
      case StepSaga(c, fail) =>
        assert ChannelOk(s, c);
        if c in s.sagas { AdvanceKeeps(s, c, fail, ch); }
      case CloseSession(sid) => SameChannel(s, Next(s, e), ch);
    }
  }

  lemma {:induction false} FreshIsOk(sids: set<string>, ch: string)
    ensures ChannelOk(Start(sids), ch)
  {
    var l := Only(Start(sids).local, ch);
    assert forall c :: WildSubs(l, c) == {};
    assert forall sid :: Tracked(l, sid) == {};
    assert forall sid, c :: Lookup(l, c, sid).None?;
  }

  lemma {:induction false} RunKeepsOk(sids: set<string>, es: seq<Event>)
    ensures ConcOk(Run(sids, es))
    decreases |es|
  {
    if es == [] {
      forall ch ensures ChannelOk(Start(sids), ch) { FreshIsOk(sids, ch); }
    } else {
      RunKeepsOk(sids, es[..|es| - 1]);
      NextKeepsOk(Run(sids, es[..|es| - 1]), es[|es| - 1]);
    }
  }

  // ------------------------------------------------------------ the projection

  /** The projection step is the last one and is never undone. */
  function Shift(g: Saga): int {
    if g.executed < 5 then 0 else if g.add then 1 else -1
  }

  ghost predicate ProjectionOk(s: Conc, ch: string) {
    if ch !in s.sagas then Projected(s.cluster, ch) == Subscribers(Only(s.local, ch), ch)
    else Projected(s.cluster, ch) == Subscribers(s.sagas[ch].base, ch) + Shift(s.sagas[ch])
  }

  lemma {:induction false} CommitProjects(g: Saga, s: State, fail: bool, ch: string)
    requires g.executed < 5 && Commit(g.j, s, StepsOf(g)[g.executed], fail).Some?
    ensures Projected(Commit(g.j, s, StepsOf(g)[g.executed], fail).value.cluster, ch) ==
            Projected(s.cluster, ch) + if ch == g.j.ch then Shift(g.(executed := g.executed + 1)) else 0
  {
  }

  lemma {:induction false} RollbackProjects(g: Saga, s: State, ch: string)
    requires 0 < g.executed < 5
    ensures Projected(Rollback(g.j, s, StepsOf(g)[g.executed - 1]).cluster, ch) == Projected(s.cluster, ch)
  {
  }

  /** A step of a saga leaves the other channels' part of the registries alone. */
  lemma {:induction false} AdvanceElsewhere(s: Conc, c: string, fail: bool, ch: string)
    requires c in s.sagas && ChannelOk(s, c) && ch != c
    ensures var n := Advance(s, c, fail);
            Only(n.local, ch) == Only(s.local, ch) && Projected(n.cluster, ch) == Projected(s.cluster, ch) &&
            (ch in n.sagas <==> ch in s.sagas) && (ch in s.sagas ==> n.sagas[ch] == s.sagas[ch])
  {
    var g := s.sagas[c];
    if !Ends(g) {
      if g.undo {
        RollbackActsAlone(g.j, Seen(s, g), StepsOf(g)[g.executed - 1], ch);
        RollbackProjects(g, Seen(s, g), ch);
      } else if Commits(s, g, fail) {
        CommitActsAlone(g.j, Seen(s, g), StepsOf(g)[g.executed], fail, ch);
        CommitProjects(g, Seen(s, g), fail, ch);
      }
    }
  }

  /** A saga that returns has moved the projection by exactly what it has changed in the hub. */
  lemma {:induction false} EndProjects(g: Saga, ch: string)
    requires SagaOk(g) && Ends(g) && ch == g.j.ch
    ensures Subscribers(Expected(g).local, ch) == Subscribers(g.base, ch) + Shift(g)
  {
    ExpectedEnd(g);
    if !g.undo {
      if g.add { SubscribedMore(g.base, g.j, ch); } else { UnsubscribedFewer(g.base, g.j, ch); }
    }
  }

  lemma {:induction false} AdvanceKeepsProjection(s: Conc, c: string, fail: bool, ch: string)
    requires c in s.sagas && ChannelOk(s, c) && ProjectionOk(s, ch)
    ensures ProjectionOk(Advance(s, c, fail), ch)
  {
    var g := s.sagas[c];
    if ch != c {
      AdvanceElsewhere(s, c, fail, ch);
    } else if Ends(g) {
      EndProjects(g, ch);
    } else if g.undo {
      RollbackProjects(g, Seen(s, g), ch);
    } else if Commits(s, g, fail) {
      CommitProjects(g, Seen(s, g), fail, ch);
    }
  }

  lemma {:induction false} NextKeepsProjection(s: Conc, e: Event, ch: string)
    requires ConcOk(s) && ProjectionOk(s, ch)
    ensures ProjectionOk(Next(s, e), ch)
  {
    match e
    case Begin(j, add) =>
    case StepSaga(c, fail) =>
      if c in s.sagas {
        assert ChannelOk(s, c);
        AdvanceKeepsProjection(s, c, fail, ch);
      }
    case CloseSession(sid) => assert Only(Next(s, e).local, ch) == Only(s.local, ch);
  }

  lemma {:induction false} RunKeepsProjection(sids: set<string>, es: seq<Event>, ch: string)
    ensures ProjectionOk(Run(sids, es), ch)
    decreases |es|
  {
    if es == [] {
      assert WildSubs(Only(Start(sids).local, ch), ch) == {};
    } else {
      RunKeepsProjection(sids, es[..|es| - 1], ch);
      RunKeepsOk(sids, es[..|es| - 1]);
      NextKeepsProjection(Run(sids, es[..|es| - 1]), es[|es| - 1], ch);
    }
  }

  // ------------------------------------------------------------- what it gives

  /** Hub, sessions and broker agree about the channel. */
  ghost predicate Agrees(l: Local, ch: string) {
    CountOk(l, ch) && forall sid :: ch in Tracked(l, sid) <==> Lookup(l, ch, sid).Some?
  }

  lemma {:induction false} AgreesAlone(l: Local, ch: string)
    requires Inv(Only(l, ch))
    ensures Agrees(l, ch)
  {
    var o := Only(l, ch);
    assert CountOk(o, ch) && WildSubs(o, ch) == WildSubs(l, ch);
    OnlyCounts(l, ch);
    forall sid ensures ch in Tracked(l, sid) <==> Lookup(l, ch, sid).Some? {
      OnlyLooksSame(l, ch, sid);
      assert ch in Tracked(o, sid) <==> Lookup(o, ch, sid).Some?;
    }
  }

  lemma {:induction false} InvOfParts(l: Local)
    requires forall ch :: Inv(Only(l, ch))
    ensures Inv(l)
  {
    forall ch ensures CountOk(l, ch) { AgreesAlone(l, ch); }
    forall sid, ch ensures ch in Tracked(l, sid) <==> Lookup(l, ch, sid).Some? { AgreesAlone(l, ch); }
    forall ch | ch in l.exact ensures !IsWildcard(ch) && InKeyLanguage(ch) && l.exact[ch] != map[] {
      assert HubOk(Only(l, ch)) && ch in Only(l, ch).exact;
    }
    forall k | k in l.wild ensures IsWildcard(k.1) && InKeyLanguage(k.1) {
      assert HubOk(Only(l, k.1)) && k in Only(l, k.1).wild;
    }
    forall ch | ch in l.subs ensures l.subs[ch] > 0 { assert Positive(Only(l, ch)) && ch in Only(l, ch).subs; }
    forall ch | ch in l.wc ensures l.wc[ch] > 0 { assert Positive(Only(l, ch)) && ch in Only(l, ch).wc; }
  }

  /**
   In every interleaving of every number of sagas, with failures anywhere and
   sessions closing at any time, hub, sessions and broker agree about every
   channel no saga holds, and about everything once no saga is under way; and
   the projection of such a channel is its number of subscribed sessions.
   */
  lemma {:induction false} IdleChannelsAgree(sids: set<string>, es: seq<Event>)
    ensures forall ch | ch !in Run(sids, es).sagas :: Agrees(Run(sids, es).local, ch)
    ensures forall ch | ch !in Run(sids, es).sagas ::
              Projected(Run(sids, es).cluster, ch) == Subscribers(Run(sids, es).local, ch)
    ensures Run(sids, es).sagas == map[] ==> Inv(Run(sids, es).local)
  {
    var s := Run(sids, es);
    RunKeepsOk(sids, es);
    forall ch | ch !in s.sagas ensures Agrees(s.local, ch) {
      assert ChannelOk(s, ch);
      AgreesAlone(s.local, ch);
    }
    forall ch | ch !in s.sagas ensures Projected(s.cluster, ch) == Subscribers(s.local, ch) {
      RunKeepsProjection(sids, es, ch);
      assert WildSubs(Only(s.local, ch), ch) == WildSubs(s.local, ch);
    }
    if s.sagas == map[] {
      forall ch ensures Inv(Only(s.local, ch)) { assert ChannelOk(s, ch); }
      InvOfParts(s.local);
    }
  }

  /**
   Each saga is all or nothing on its channel, whatever other sagas did between
   its steps: when it returns, the channel's part of the registries is what the
   whole saga makes of the part it found, or exactly the part it found.
   */
  lemma {:induction false} SagasAreAtomic(sids: set<string>, es: seq<Event>, ch: string)
    requires ch in Run(sids, es).sagas && Ends(Run(sids, es).sagas[ch])
    ensures var s, g := Run(sids, es), Run(sids, es).sagas[ch];
            Only(s.local, ch) == if g.undo then g.base
                                 else if g.add then Subscribed(g.base, g.j) else Unsubscribed(g.base, g.j)
  {
    RunKeepsOk(sids, es);
    assert ChannelOk(Run(sids, es), ch);
    ExpectedEnd(Run(sids, es).sagas[ch]);
  }
}

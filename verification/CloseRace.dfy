/**
 Subscribe, unsubscribe and close racing on one session: every channel's saga
 runs under that channel's lock, and Close marks the session closed and takes
 its list of channels in one critical section
 (internal/runtime/node.go, internal/session/session.go, internal/session/runtime.go).
 */
module CloseRace {
  import opened Subscriptions

  /** A saga holding its channel's lock: the steps it has executed, and whether it is rolling back. */
  datatype Task = Task(add: bool, byClose: bool, undo: bool, executed: nat)

  /**
   hub and tracked are the session's channels in the two places; todo is what
   Close still has to remove. forced is history: the channels tracked again by a
   rollback since the session closed and not removed since.
   */
  datatype Race = Race(hub: set<string>, tracked: set<string>, closed: bool, todo: set<string>, forced: set<string>,
                       tasks: map<string, Task>)

  datatype Event = Begin(ch: string, add: bool) | CloseSession | CloseRemove(ch: string)
                 | StepTask(ch: string, fail: bool)

  function StepsOf(t: Task): seq<Step> {
    if t.add then ADD else REMOVE
  }

  /** TrackChannel refuses a closed session, untracking cannot fail, and the hub fails a removal only of nothing. */
  predicate Fails(s: Race, ch: string, step: Step, fail: bool) {
    match step
    case TrackClient => s.closed
    case UntrackClient => false
    case HubRemove => ch !in s.hub
    case _ => fail
  }

  function Effect(s: Race, ch: string, step: Step): Race {
    match step
    case HubAdd => s.(hub := s.hub + {ch})
    case HubRemove => s.(hub := s.hub - {ch})
    case TrackClient => s.(tracked := s.tracked + {ch})
    case UntrackClient => s.(tracked := s.tracked - {ch}, forced := s.forced - {ch})
    case _ => s
  }

  /** Undoing an untrack goes through ForceTrackChannel, which does not look whether the session is closed. */
  function UndoEffect(s: Race, ch: string, step: Step): Race {
    match step
    case HubAdd => s.(hub := s.hub - {ch})
    case HubRemove => s.(hub := s.hub + {ch})
    case TrackClient => s.(tracked := s.tracked - {ch}, forced := s.forced - {ch})
    case UntrackClient =>
      s.(tracked := s.tracked + {ch}, forced := if s.closed then s.forced + {ch} else s.forced)
    case _ => s
  }

  /** Returning from a saga frees the lock; Close goes on to its next channel whatever the result. */
  function Release(s: Race, ch: string): Race
    requires ch in s.tasks
  {
    s.(tasks := s.tasks - {ch}, todo := if s.tasks[ch].byClose then s.todo - {ch} else s.todo)
  }

  function Advance(s: Race, ch: string, fail: bool): Race
    requires ch in s.tasks
  {
    var t := s.tasks[ch];
    if t.undo then
      if t.executed == 0 || t.executed > 5 then Release(s, ch)
      else UndoEffect(s, ch, StepsOf(t)[t.executed - 1]).(tasks := s.tasks[ch := t.(executed := t.executed - 1)])
    else if t.executed >= 5 then Release(s, ch)
    else if Fails(s, ch, StepsOf(t)[t.executed], fail) then s.(tasks := s.tasks[ch := t.(undo := true)])
    else Effect(s, ch, StepsOf(t)[t.executed]).(tasks := s.tasks[ch := t.(executed := t.executed + 1)])
  }

  function Next(s: Race, e: Event): Race {
    match e
    case Begin(ch, add) =>
      if ch in s.tasks || (ch in s.hub <==> add) then s
      else s.(tasks := s.tasks[ch := Task(add, false, false, 0)])
    case CloseSession => if s.closed then s else s.(closed := true, todo := s.tracked)
    case CloseRemove(ch) =>
      if !s.closed || ch !in s.todo || ch in s.tasks then s
      else if ch !in s.hub then s.(todo := s.todo - {ch})
      else s.(tasks := s.tasks[ch := Task(false, true, false, 0)])
    case StepTask(ch, fail) => if ch in s.tasks then Advance(s, ch, fail) else s
  }

  function Run(s: Race, es: seq<Event>): Race {
    if es == [] then s else Next(Run(s, es[..|es| - 1]), es[|es| - 1])
  }

  /** An open session with these subscriptions and no saga under way. */
  function Start(subscribed: set<string>): Race {
    Race(subscribed, subscribed, false, {}, {}, map[])
  }

  /** Hub and session disagree about a channel only as far as the saga holding its lock has got. */
  predicate ChannelOk(s: Race, ch: string) {
    if ch !in s.tasks then ch in s.hub <==> ch in s.tracked else
    var t := s.tasks[ch];
    t.executed <= 5 &&
    (ch in s.hub <==> (t.executed >= 1 <==> t.add)) &&
    (ch in s.tracked <==> (t.executed >= 2 <==> t.add)) &&
    (t.byClose ==> s.closed && !t.add) &&
    (t.byClose && t.undo && t.executed < 2 ==> ch in s.forced)
  }

  ghost predicate Inv(s: Race) {
    (forall ch :: ChannelOk(s, ch)) &&
    (s.closed ==> s.tracked <= s.todo + s.forced) && s.forced <= s.tracked && (!s.closed ==> s.forced == {})
  }

  lemma {:induction false} AdvanceKeepsChannels(s: Race, c: string, fail: bool, ch: string)
    requires c in s.tasks && ChannelOk(s, c) && ChannelOk(s, ch)
    ensures ChannelOk(Advance(s, c, fail), ch)
  {
  }

  lemma {:induction false} AdvanceKeepsInv(s: Race, ch: string, fail: bool)
    requires Inv(s) && ch in s.tasks
    ensures Inv(Advance(s, ch, fail))
  {
    var n := Advance(s, ch, fail);
    assert ChannelOk(s, ch);
    forall c ensures ChannelOk(n, c) {
      AdvanceKeepsChannels(s, ch, fail, c);
    }
  }

  lemma {:induction false} NextKeepsInv(s: Race, e: Event)
    requires Inv(s)
    ensures Inv(Next(s, e))
  {
    match e
    case StepTask(ch, fail) => if ch in s.tasks { AdvanceKeepsInv(s, ch, fail); }
    case Begin(ch, add) =>
      assert ChannelOk(s, ch);
      forall c ensures ChannelOk(Next(s, e), c) { assert ChannelOk(s, c); }
    case CloseRemove(ch) =>
      assert ChannelOk(s, ch);
      forall c ensures ChannelOk(Next(s, e), c) { assert ChannelOk(s, c); }
    case CloseSession =>
      forall c ensures ChannelOk(Next(s, e), c) { assert ChannelOk(s, c); }
  }

  lemma {:induction false} RunKeepsInv(subscribed: set<string>, es: seq<Event>)
    ensures Inv(Run(Start(subscribed), es))
    decreases |es|
  {
    if es != [] {
      RunKeepsInv(subscribed, es[..|es| - 1]);
      NextKeepsInv(Run(Start(subscribed), es[..|es| - 1]), es[|es| - 1]);
    }
  }

  /** Close has gone through its list and every saga has returned. */
  predicate Settled(s: Race) {
    s.closed && s.todo == {} && s.tasks == map[]
  }

  /**
   What a closed session leaves behind, over every interleaving: exactly the
   channels that a rolled back removal tracked again.
   */
  lemma {:induction false} ClosedLeavesForced(subscribed: set<string>, es: seq<Event>)
    requires Settled(Run(Start(subscribed), es))
    ensures var s := Run(Start(subscribed), es); s.hub == s.tracked == s.forced
  {
    RunKeepsInv(subscribed, es);
    var s := Run(Start(subscribed), es);
    forall ch ensures ch in s.hub <==> ch in s.tracked {
      assert ChannelOk(s, ch);
    }
  }

  // ------------------------------------------------------- failing removals

  /** No removal meets a failure in the run; subscribes may fail anywhere. */
  ghost predicate RemovalsSucceed(s: Race, es: seq<Event>) {
    forall i, ch | 0 <= i < |es| && es[i] == StepTask(ch, true) ::
      var t := Run(s, es[..i]);
      ch in t.tasks ==> t.tasks[ch].add
  }

  ghost predicate NoRemovalUndone(s: Race) {
    s.forced == {} && forall ch | ch in s.tasks :: s.tasks[ch].undo ==> s.tasks[ch].add
  }

  lemma {:induction false} NothingForced(subscribed: set<string>, es: seq<Event>)
    requires RemovalsSucceed(Start(subscribed), es)
    ensures NoRemovalUndone(Run(Start(subscribed), es))
    decreases |es|
  {
    if es != [] {
      var n := |es| - 1;
      var s := Run(Start(subscribed), es[..n]);
      assert RemovalsSucceed(Start(subscribed), es[..n]) by {
        assert forall i | 0 <= i < n :: es[..n][..i] == es[..i];
      }
      NothingForced(subscribed, es[..n]);
      RunKeepsInv(subscribed, es[..n]);
      if es[n].StepTask? && es[n].ch in s.tasks {
        assert ChannelOk(s, es[n].ch);
      }
    }
  }

  /** A closed session is gone from the hub, however subscribes raced with Close, if no removal failed. */
  lemma {:induction false} CloseRemovesEverything(subscribed: set<string>, es: seq<Event>)
    requires RemovalsSucceed(Start(subscribed), es) && Settled(Run(Start(subscribed), es))
    ensures Run(Start(subscribed), es).hub == {} && Run(Start(subscribed), es).tracked == {}
  {
    NothingForced(subscribed, es);
    ClosedLeavesForced(subscribed, es);
  }

  lemma {:induction false} RunSnoc(s: Race, es: seq<Event>, e: Event)
    ensures Run(s, es + [e]) == Next(Run(s, es), e)
  {
    assert (es + [e])[..|es|] == es;
  }

  /** Close removing one channel of its list, with nothing in between. */
  function Removal(ch: string): seq<Event> {
    [CloseRemove(ch)] + seq(6, i => StepTask(ch, false))
  }

  /** What removing one channel leaves. */
  function Without(s: Race, ch: string): Race {
    Race(s.hub - {ch}, s.tracked - {ch}, s.closed, s.todo - {ch}, s.forced - {ch}, s.tasks)
  }

  /** n more undisturbed steps of the channel's saga. */
  function Steps(s: Race, ch: string, n: nat): Race {
    if n == 0 then s else Next(Steps(s, ch, n - 1), StepTask(ch, false))
  }

  lemma {:induction false} StepsRun(s: Race, b: Event, ch: string, n: nat)
    ensures Run(s, [b] + seq(n, i => StepTask(ch, false))) == Steps(Next(s, b), ch, n)
    decreases n
  {
    var es := [b] + seq(n, i => StepTask(ch, false));
    if n == 0 {
      assert es == [b] && es[..0] == [] && Run(s, []) == s;
    } else {
      StepsRun(s, b, ch, n - 1);
      assert es[..n] == [b] + seq(n - 1, i => StepTask(ch, false));
    }
  }

  lemma {:induction false} RemovalRuns(s: Race, ch: string)
    ensures var ok := StepTask(ch, false);
            var s2 := Next(Next(Next(s, CloseRemove(ch)), ok), ok);
            Run(s, Removal(ch)) == Next(Next(Next(Next(s2, ok), ok), ok), ok)
  {
    StepsRun(s, CloseRemove(ch), ch, 6);
    var s0 := Next(s, CloseRemove(ch));
    assert Steps(s0, ch, 2) == Next(Steps(s0, ch, 1), StepTask(ch, false));
    assert Steps(s0, ch, 4) == Next(Steps(s0, ch, 3), StepTask(ch, false));
  }

  /**
   Close gets on, and touches nothing else: undisturbed it removes a channel of its
   list from hub, session and list; a channel that is not on its list stays.
   */
  lemma {:induction false} CloseGetsOn(s: Race, ch: string)
    requires Inv(s) && s.closed && ch !in s.tasks
    ensures Run(s, Removal(ch)) == if ch in s.todo then Without(s, ch) else s
  {
    RemovalRuns(s, ch);
    assert ChannelOk(s, ch) && s.forced <= s.tracked;
    var ok := StepTask(ch, false);
    var s1 := Next(s, CloseRemove(ch));
    if ch in s.todo && ch in s.hub {
      var s3 := s.(hub := s.hub - {ch}, tracked := s.tracked - {ch}, forced := s.forced - {ch},
                   tasks := s.tasks[ch := Task(false, true, false, 2)]);
      var s2 := s.(hub := s.hub - {ch}, tasks := s.tasks[ch := Task(false, true, false, 1)]);
      assert s1 == s.(tasks := s.tasks[ch := Task(false, true, false, 0)]);
      assert s1.tasks[ch := Task(false, true, false, 1)] == s2.tasks;
      assert Next(s1, ok) == s2;
      assert s2.tasks[ch := Task(false, true, false, 2)] == s3.tasks;
      assert Next(s2, ok) == s3;
      RemovalFinishes(s3, ch);
      assert s3.tasks - {ch} == s.tasks;
    } else {
      assert s1 == if ch in s.todo then s.(todo := s.todo - {ch}) else s;
      assert ch !in s.hub ==> s.hub - {ch} == s.hub && s.tracked - {ch} == s.tracked && s.forced - {ch} == s.forced;
    }
  }

  lemma {:induction false} RemovalFinishes(s: Race, ch: string)
    requires ch in s.tasks && s.tasks[ch] == Task(false, true, false, 2)
    ensures var ok := StepTask(ch, false);
            Next(Next(Next(Next(s, ok), ok), ok), ok) == s.(tasks := s.tasks - {ch}, todo := s.todo - {ch})
  {
    var ok := StepTask(ch, false);
    var s3 := s.(tasks := s.tasks[ch := Task(false, true, false, 3)]);
    var s4 := s.(tasks := s.tasks[ch := Task(false, true, false, 4)]);
    var s5 := s.(tasks := s.tasks[ch := Task(false, true, false, 5)]);
    assert Next(s, ok) == s3;
    assert s3.tasks[ch := Task(false, true, false, 4)] == s4.tasks;
    assert s4.tasks[ch := Task(false, true, false, 5)] == s5.tasks;
    assert s5.tasks - {ch} == s.tasks - {ch};
  }

  /**
   Without that condition the session stays behind: an unsubscribe that has
   untracked its channel when Close takes its list, and then fails, puts the
   subscription back where Close no longer looks.
   */
  lemma {:induction false} UndoneRemovalOutlivesClose(ch: string) returns (es: seq<Event>)
    ensures Settled(Run(Start({ch}), es)) && Run(Start({ch}), es).hub == {ch}
  {
    var s := Start({ch});
    var ok, bad := StepTask(ch, false), StepTask(ch, true);
    es := [];
    RunSnoc(s, es, Begin(ch, false));
    es := es + [Begin(ch, false)];
    RunSnoc(s, es, ok);
    es := es + [ok];
    RunSnoc(s, es, ok);
    es := es + [ok];
    assert Run(s, es) == Race({}, {}, false, {}, {}, map[ch := Task(false, false, false, 2)]);
    RunSnoc(s, es, Event.CloseSession);
    es := es + [Event.CloseSession];
    RunSnoc(s, es, bad);
    es := es + [bad];
    assert Run(s, es) == Race({}, {}, true, {}, {}, map[ch := Task(false, false, true, 2)]);
    RunSnoc(s, es, ok);
    es := es + [ok];
    assert Run(s, es) == Race({}, {ch}, true, {}, {ch}, map[ch := Task(false, false, true, 1)]);
    RunSnoc(s, es, ok);
    es := es + [ok];
    assert Run(s, es) == Race({ch}, {ch}, true, {}, {ch}, map[ch := Task(false, false, true, 0)]);
    RunSnoc(s, es, ok);
    es := es + [ok];
  }
}

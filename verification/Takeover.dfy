/**
 Local resume: a connection hands its transport to an existing session and
 becomes a shell delegating to it, and connections that die decide whom they
 may close (internal/session/takeover.go, internal/session/session.go,
 internal/session/client.go).
 */
module Takeover {
  import opened Options
  import opened RunLemmas

  datatype SessionState = Authenticating | Attached | Detached | Closed

  /**
   An attachment object; two are the same object iff they are equal. Own(c) is
   the one connection c was created with, Handoff(n, c) the n-th made from it.
   Both ride the transport of c.
   */
  datatype Att = Own(conn: nat) | Handoff(serial: nat, conn: nat)

  datatype Session = Session(state: SessionState, att: Option<Att>, delegate: Option<nat>)

  function Detach(x: Session): Session {
    if x.state == Attached then x.(state := Detached, att := None) else x
  }

  predicate CanAttach(x: Session, probe: bool) {
    probe && x.state != Closed && x.state != Attached
  }

  function Bind(x: Session, att: Att): Session {
    x.(state := Attached, att := Some(att))
  }

  function Shut(x: Session): Session {
    if x.state == Closed then x else x.(state := Closed, att := None)
  }

  /** The lock regions of a session object. */
  class SessionObject {
    var state: SessionState
    var att: Option<Att>
    var delegate: Option<nat>

    ghost function View(): Session
      reads this
    {
      Session(state, att, delegate)
    }

    constructor (conn: nat)
      ensures View() == Session(Authenticating, Some(Own(conn)), None)
    {
      state, att, delegate := Authenticating, Some(Own(conn)), None;
    }

    method TearOff() returns (closedTransport: Option<Att>)
      modifies this
      ensures View() == Detach(old(View()))
      ensures closedTransport == if old(state) == Attached then old(att) else None
    {
      if state != Attached { return None; }
      state := Detached;
      closedTransport := att;
      att := None;
    }

    method Attach(fresh_: Att, probe: bool) returns (ok: bool)
      modifies this
      ensures ok == CanAttach(old(View()), probe)
      ensures View() == if ok then Bind(old(View()), fresh_) else old(View())
    {
      if !probe || state == Closed || state == Attached { return false; }
      state, att := Attached, Some(fresh_);
      return true;
    }

    method MarkClosed() returns (closedTransport: Option<Att>)
      modifies this
      ensures View() == Shut(old(View()))
      ensures closedTransport == if old(state) == Closed then None else old(att)
    {
      if state == Closed { return None; }
      state, closedTransport := Closed, att;
      att := None;
    }

    method Demote(existing: nat)
      modifies this
      ensures View() == Session(old(state), None, Some(existing))
    {
      delegate, att := Some(existing), None;
    }
  }

  // --------------------------------------------------- connections and their loops

  /** What a connection's read loop is in the middle of. */
  datatype Task = Idle | Resuming(target: nat, phase: Phase) | Closing(target: nat)
  datatype Phase = AfterDetach | Read(own: Att) | Bound | Failing

  /**
   Sessions and tasks by connection; joined are the connections that connected
   as sessions of their own. abandoned is history: detached sessions whose
   takeover returned without attaching or closing them.
   */
  datatype State = State(sessions: seq<Session>, tasks: seq<Task>, joined: set<nat>, serial: nat, abandoned: set<nat>)

  datatype Event = NewConn | Connect(c: nat, probe: bool) | BeginTakeover(c: nat, existing: nat) | ReadOwn(c: nat)
                 | AttachExisting(c: nat, probe: bool) | CloseExisting(c: nat) | Demote(c: nat)
                 | CloseObject(c: nat) | LoopCheck(c: nat) | LoopClose(c: nat)

  function Canonical(s: State, c: nat): nat
    requires c < |s.sessions|
  {
    if s.sessions[c].delegate.Some? then s.sessions[c].delegate.value else c
  }

  function CloseOne(s: State, t: nat): State {
    if t >= |s.sessions| then s
    else s.(sessions := s.sessions[t := Shut(s.sessions[t])], abandoned := s.abandoned - {t})
  }

  /** t is served over the transport of connection c. */
  predicate Serves(s: State, t: nat, c: nat) {
    t < |s.sessions| && s.sessions[t].att.Some? && s.sessions[t].att.value.conn == c
  }

  /** closeFromAttachment and closeFromLoop: whom connection c closes when its loop ends, if anyone. */
  function LoopDecision(s: State, c: nat): Option<nat>
    requires c < |s.sessions|
  {
    var x := s.sessions[c];
    if x.delegate.Some? then
      if Serves(s, x.delegate.value, c) then Some(x.delegate.value) else None
    else if x.att == Some(Own(c)) then Some(c) else None
  }

  function SetTask(s: State, c: nat, t: Task): State
    requires c < |s.tasks|
  {
    s.(tasks := s.tasks[c := t])
  }

  function Next(s: State, e: Event): State
    requires |s.tasks| == |s.sessions|
    ensures |Next(s, e).tasks| == |Next(s, e).sessions|
  {
    if e.NewConn? then
      s.(sessions := s.sessions + [Session(Authenticating, Some(Own(|s.sessions|)), None)], tasks := s.tasks + [Idle])
    else if e.c >= |s.sessions| then s
    else
      var x, task := s.sessions[e.c], s.tasks[e.c];
      match e
      case Connect(c, probe) =>
        if task != Idle || x.state != Authenticating || x.delegate.Some? || x.att.None? then s
        else if !CanAttach(x, probe) then CloseOne(s, c)
        else s.(sessions := s.sessions[c := Bind(x, x.att.value)], joined := s.joined + {c})
      case BeginTakeover(c, existing) =>
        if task != Idle || c in s.joined || x.delegate.Some? || existing !in s.joined || existing >= |s.sessions| then s
        else SetTask(s.(sessions := s.sessions[existing := Detach(s.sessions[existing])]), c,
                     Resuming(existing, AfterDetach))
      case ReadOwn(c) =>
        if !task.Resuming? || task.phase != AfterDetach then s
        else if x.att.Some? then SetTask(s, c, Resuming(task.target, Read(x.att.value)))
        else var left := task.target < |s.sessions| && s.sessions[task.target].state == Detached;
             SetTask(s, c, Idle).(abandoned := if left then s.abandoned + {task.target} else s.abandoned)
      case AttachExisting(c, probe) =>
        if !task.Resuming? || !task.phase.Read? || task.target >= |s.sessions| then s
        else if !CanAttach(s.sessions[task.target], probe) then SetTask(s, c, Resuming(task.target, Failing))
        else var att := Handoff(s.serial, task.phase.own.conn);
             SetTask(s, c, Resuming(task.target, Bound)).(
               sessions := s.sessions[task.target := Bind(s.sessions[task.target], att)], serial := s.serial + 1,
               abandoned := s.abandoned - {task.target})
      case CloseExisting(c) =>
        if !task.Resuming? || task.phase != Failing then s else SetTask(CloseOne(s, task.target), c, Idle)
      case Demote(c) =>
        if !task.Resuming? || task.phase != Bound then s
        else SetTask(s.(sessions := s.sessions[c := x.(delegate := Some(task.target), att := None)]), c, Idle)
      case CloseObject(c) => CloseOne(s, Canonical(s, c))
      case LoopCheck(c) =>
        if task != Idle || LoopDecision(s, c).None? then s else SetTask(s, c, Closing(LoopDecision(s, c).value))
      case LoopClose(c) =>
        if !task.Closing? then s else SetTask(CloseOne(s, task.target), c, Idle)
  }

  const INIT := State([], [], {}, 0, {})

  function Run(es: seq<Event>): (s: State)
    ensures |s.tasks| == |s.sessions|
  {
    if es == [] then INIT else Next(Run(es[..|es| - 1]), es[|es| - 1])
  }

  // -------------------------------------------------------------- invariant

  /** Attachment and state of a session agree. */
  predicate StateOk(s: State, c: nat)
    requires c < |s.sessions|
  {
    var x := s.sessions[c];
    (x.state == Attached ==> x.att.Some? && c in s.joined) &&
    (x.state == Authenticating ==> c !in s.joined && (x.delegate.None? ==> x.att == Some(Own(c)))) &&
    (x.state == Detached || x.state == Closed ==> x.att.None?) &&
    (x.state == Detached ==> c in s.joined)
  }

  /** A shell is no session of its own and delegates to one that is; so a delegate never delegates. */
  predicate ShellOk(s: State, c: nat)
    requires c < |s.sessions| == |s.tasks|
  {
    var x, t := s.sessions[c], s.tasks[c];
    (c in s.joined ==> x.delegate.None? && !t.Resuming?) &&
    (x.delegate.Some? ==>
       x.att.None? && !t.Resuming? && x.delegate.value < |s.sessions| && x.delegate.value in s.joined) &&
    (t.Resuming? ==> t.target < |s.sessions| && t.target in s.joined &&
                     (t.phase.Read? ==> t.phase.own == Own(c)))
  }

  /** The transport of x serves x itself through its own attachment, or the session x was handed to. */
  predicate AttOk(s: State, t: nat)
    requires t < |s.sessions| == |s.tasks|
  {
    s.sessions[t].att.None? ||
    match s.sessions[t].att.value
    case Own(x) => x == t
    case Handoff(_, x) =>
      x < |s.sessions| && x != t && t in s.joined &&
      (s.sessions[x].delegate == Some(t) || s.tasks[x] == Resuming(t, Bound))
  }

  /** Some takeover of t is past its Detach and will attach or close it. */
  predicate Busy(s: State, c: nat, t: nat)
    requires |s.sessions| == |s.tasks|
  {
    c < |s.tasks| && s.tasks[c].Resuming? && s.tasks[c].target == t && s.tasks[c].phase != Bound
  }

  predicate DetachedOk(s: State, t: nat)
    requires t < |s.sessions| == |s.tasks|
  {
    (t in s.abandoned ==> s.sessions[t].state == Detached) &&
    (s.sessions[t].state == Detached ==> t in s.abandoned || exists c | 0 <= c < |s.tasks| :: Busy(s, c, t))
  }

  predicate Inv(s: State) {
    |s.tasks| == |s.sessions| && (forall c | c in s.joined :: c < |s.sessions|) &&
    (forall t | t in s.abandoned :: t < |s.sessions|) &&
    (forall c | 0 <= c < |s.sessions| :: StateOk(s, c)) &&
    (forall c | 0 <= c < |s.sessions| :: ShellOk(s, c)) &&
    (forall c | 0 <= c < |s.sessions| :: AttOk(s, c)) &&
    (forall c | 0 <= c < |s.sessions| :: DetachedOk(s, c))
  }

  lemma {:induction false} NextKeepsState(s: State, e: Event, c: nat)
    requires Inv(s) && c < |Next(s, e).sessions|
    ensures StateOk(Next(s, e), c)
  {
    if c < |s.sessions| { assert StateOk(s, c) && ShellOk(s, c); }
    if !e.NewConn? && e.c < |s.sessions| { assert StateOk(s, e.c) && ShellOk(s, e.c); }
  }

  lemma {:induction false} NextKeepsShell(s: State, e: Event, c: nat)
    requires Inv(s) && c < |Next(s, e).sessions|
    ensures ShellOk(Next(s, e), c)
  {
    if c < |s.sessions| { assert StateOk(s, c) && ShellOk(s, c); }
    if !e.NewConn? && e.c < |s.sessions| { assert StateOk(s, e.c) && ShellOk(s, e.c); }
  }

  lemma {:induction false} NextKeepsAtt(s: State, e: Event, t: nat)
    requires Inv(s) && t < |Next(s, e).sessions|
    ensures AttOk(Next(s, e), t)
  {
    if t < |s.sessions| { assert StateOk(s, t) && ShellOk(s, t) && AttOk(s, t); }
    if !e.NewConn? && e.c < |s.sessions| { assert StateOk(s, e.c) && ShellOk(s, e.c) && AttOk(s, e.c); }
  }

  lemma {:induction false} NextKeepsDetached(s: State, e: Event, t: nat)
    requires Inv(s) && t < |Next(s, e).sessions|
    ensures DetachedOk(Next(s, e), t)
  {
    var n := Next(s, e);
    if t < |s.sessions| {
      assert StateOk(s, t) && DetachedOk(s, t);
      if c :| 0 <= c < |s.tasks| && Busy(s, c, t) {
        assert Busy(n, c, t) || n.sessions[t].state != Detached || t in n.abandoned;
      }
      if e.BeginTakeover? && e.existing == t && n != s {
        assert Busy(n, e.c, t);
      }
    }
  }

  lemma {:induction false} NextKeepsInv(s: State, e: Event)
    requires Inv(s)
    ensures Inv(Next(s, e))
  {
    var n := Next(s, e);
    forall c | 0 <= c < |n.sessions| ensures StateOk(n, c) && ShellOk(n, c) && AttOk(n, c) && DetachedOk(n, c) {
      NextKeepsState(s, e, c);
      NextKeepsShell(s, e, c);
      NextKeepsAtt(s, e, c);
      NextKeepsDetached(s, e, c);
    }
  }

  lemma {:induction false} RunKeepsInv(es: seq<Event>)
    ensures Inv(Run(es))
    decreases |es|
  {
    if es != [] {
      RunKeepsInv(es[..|es| - 1]);
      NextKeepsInv(Run(es[..|es| - 1]), es[|es| - 1]);
    }
  }

  // ------------------------------------------------- who may close what

  /**
   The comparison of delegates, attachments and transports comes to one rule: a
   connection whose loop is not inside a handler closes the one session served
   over its transport, and nobody if there is none.
   */
  lemma {:induction false} DecisionIsService(es: seq<Event>, c: nat, t: nat)
    requires c < |Run(es).sessions| && !Run(es).tasks[c].Resuming?
    ensures LoopDecision(Run(es), c) == Some(t) <==> Serves(Run(es), t, c)
  {
    RunKeepsInv(es);
    var s := Run(es);
    assert ShellOk(s, c) && AttOk(s, c);
    if t < |s.sessions| { assert AttOk(s, t); }
  }

  /** So a loop that ends, undisturbed, closes that session and leaves every other as it was. */
  lemma {:induction false} LoopExitClosesServed(es: seq<Event>, c: nat, t: nat)
    requires c < |Run(es).sessions| && t < |Run(es).sessions| && Run(es).tasks[c] == Idle
    ensures var s := Run(es);
            Next(Next(s, LoopCheck(c)), LoopClose(c)).sessions[t] ==
            if Serves(s, t, c) then Shut(s.sessions[t]) else s.sessions[t]
  {
    var s := Run(es);
    DecisionIsService(es, c, t);
    if LoopDecision(s, c).Some? {
      DecisionIsService(es, c, LoopDecision(s, c).value);
    }
  }

  /** Closing a shell reaches its session in one hop: the session delegates to nobody. */
  lemma {:induction false} DelegateNeverDelegates(es: seq<Event>, c: nat)
    requires c < |Run(es).sessions| && Run(es).sessions[c].delegate.Some?
    ensures var t := Run(es).sessions[c].delegate.value;
            t < |Run(es).sessions| && t in Run(es).joined && Run(es).sessions[t].delegate.None? &&
            Canonical(Run(es), t) == t
  {
    RunKeepsInv(es);
    var s := Run(es);
    assert ShellOk(s, c) && ShellOk(s, s.sessions[c].delegate.value);
  }

  /** The event takes t off its attachment: it is enabled and detaches, demotes or closes t. */
  predicate Displaces(s: State, e: Event, t: nat)
    requires |s.tasks| == |s.sessions|
  {
    !e.NewConn? && e.c < |s.sessions| &&
    var x, task := s.sessions[e.c], s.tasks[e.c];
    match e
    case BeginTakeover(c, existing) =>
      existing == t && task == Idle && c !in s.joined && x.delegate.None? && t in s.joined && t < |s.sessions|
    case Connect(c, probe) => c == t && !probe && task == Idle && x.state == Authenticating && x.delegate.None?
    case Demote(c) => c == t && task.Resuming? && task.phase == Bound
    case CloseObject(c) => Canonical(s, c) == t
    case CloseExisting(c) => task.Resuming? && task.phase == Failing && task.target == t
    case LoopClose(c) => task.Closing? && task.target == t
    case _ => false
  }

  /** A served session stays so exactly until something displaces it. */
  lemma {:induction false} ServiceEndsIff(s: State, e: Event, c: nat, t: nat)
    requires Inv(s) && Serves(s, t, c)
    ensures Serves(Next(s, e), t, c) <==> !Displaces(s, e, t)
  {
    assert StateOk(s, t) && ShellOk(s, t);
    if !e.NewConn? && e.c < |s.sessions| { assert StateOk(s, e.c) && ShellOk(s, e.c); }
  }

  /**
   And it begins exactly with a new connection, or when a takeover binds: the probe
   of the transport succeeded, the taking connection was not closed when it read its
   attachment, and the session is still detached.
   */
  lemma {:induction false} ServiceBeginsIff(s: State, e: Event, c: nat, t: nat)
    requires Inv(s) && !Serves(s, t, c)
    ensures Serves(Next(s, e), t, c) <==>
            (e == NewConn && t == c == |s.sessions|) ||
            (e == AttachExisting(c, true) && c < |s.sessions| && s.tasks[c] == Resuming(t, Read(Own(c))) &&
             t < |s.sessions| && s.sessions[t].state == Detached)
  {
    if t < |s.sessions| { assert StateOk(s, t) && ShellOk(s, t); }
    if !e.NewConn? && e.c < |s.sessions| { assert StateOk(s, e.c) && ShellOk(s, e.c) && AttOk(s, e.c); }
    if !e.NewConn? && e.c < |s.sessions| && s.tasks[e.c].Resuming? { assert StateOk(s, s.tasks[e.c].target); }
  }

  /** A connection becomes a session of its own iff it connects, with a live transport, while still authenticating. */
  lemma {:induction false} JoinsIff(s: State, e: Event, c: nat)
    requires Inv(s) && c !in s.joined
    ensures c in Next(s, e).joined <==>
            e == Connect(c, true) && c < |s.sessions| && s.tasks[c] == Idle && s.sessions[c].state == Authenticating &&
            s.sessions[c].delegate.None?
  {
    if !e.NewConn? && e.c < |s.sessions| { assert StateOk(s, e.c) && ShellOk(s, e.c); }
  }

  /** Connect as its one step: attached over its own transport, or closed when the transport is dead. */
  lemma {:induction false} ConnectAttachesOrCloses(es: seq<Event>, c: nat, probe: bool)
    requires var s := Run(es); c < |s.sessions| && s.tasks[c] == Idle && c !in s.joined && s.sessions[c].delegate.None?
    requires Run(es).sessions[c].state != Closed
    ensures var s, n := Run(es), Next(Run(es), Connect(c, probe));
            n.sessions == s.sessions[c := if probe then Session(Attached, Some(Own(c)), None)
                                          else Session(Closed, None, None)] &&
            n.joined == (if probe then s.joined + {c} else s.joined)
  {
    RunKeepsInv(es);
    var s := Run(es);
    assert StateOk(s, c) && ShellOk(s, c);
  }

  /** The events of one takeover of t by connection c. */
  function Resume(c: nat, t: nat, probe: bool): seq<Event> {
    [BeginTakeover(c, t), ReadOwn(c), AttachExisting(c, probe), if probe then Demote(c) else CloseExisting(c)]
  }

  /**
   An undisturbed takeover of a session that is not closed: it ends up served over
   the taking connection's transport, and that connection is a shell of it; or,
   when the transport is dead, it is closed. No other session is touched.
   */
  lemma {:induction false} TakeoverBindsOrCloses(es: seq<Event>, c: nat, t: nat, probe: bool)
    requires var s := Run(es); c < |s.sessions| && s.tasks[c] == Idle && c !in s.joined && s.sessions[c].delegate.None?
    requires Run(es).sessions[c].state != Closed && t in Run(es).joined
    requires t < |Run(es).sessions| && Run(es).sessions[t].state != Closed
    ensures var s, n := Run(es), Run(es + Resume(c, t, probe));
            n.tasks == s.tasks && n.joined == s.joined &&
            n.sessions == if probe then s.sessions[t := Session(Attached, Some(Handoff(s.serial, c)), None)]
                                                  [c := s.sessions[c].(delegate := Some(t), att := None)]
                          else s.sessions[t := Session(Closed, None, None)]
  {
    RunKeepsInv(es);
    var s := Run(es);
    assert StateOk(s, c) && ShellOk(s, c) && StateOk(s, t) && ShellOk(s, t);
    var r := Resume(c, t, probe);
    RunSnoc(es, r[0]);
    RunSnoc(es + [r[0]], r[1]);
    RunSnoc(es + [r[0]] + [r[1]], r[2]);
    RunSnoc(es + [r[0]] + [r[1]] + [r[2]], r[3]);
    assert es + r == es + [r[0]] + [r[1]] + [r[2]] + [r[3]];
    assert s.tasks[c := Resuming(t, AfterDetach)][c := Idle] == s.tasks;
    TakeoverSteps(s, c, t, probe);
  }

  lemma {:induction false} TakeoverSteps(s: State, c: nat, t: nat, probe: bool)
    requires |s.tasks| == |s.sessions| && c < |s.sessions| && t < |s.sessions| && c != t
    requires s.tasks[c] == Idle && c !in s.joined && t in s.joined && s.sessions[c].delegate.None?
    requires s.sessions[c].att == Some(Own(c)) && s.sessions[t].delegate.None?
    requires s.sessions[t].state == Attached || (s.sessions[t].state == Detached && s.sessions[t].att.None?)
    ensures var r := Resume(c, t, probe);
            var n := Next(Next(Next(Next(s, r[0]), r[1]), r[2]), r[3]);
            n.tasks == s.tasks && n.joined == s.joined &&
            n.sessions == if probe then s.sessions[t := Session(Attached, Some(Handoff(s.serial, c)), None)]
                                                  [c := s.sessions[c].(delegate := Some(t), att := None)]
                          else s.sessions[t := Session(Closed, None, None)]
  {
    var torn := Session(Detached, None, None);
    var s1 := State(s.sessions[t := torn], s.tasks[c := Resuming(t, AfterDetach)], s.joined, s.serial, s.abandoned);
    var s2 := s1.(tasks := s.tasks[c := Resuming(t, Read(Own(c)))]);
    assert Next(s, BeginTakeover(c, t)) == s1;
    assert s1.tasks[c := Resuming(t, Read(Own(c)))] == s2.tasks;
    assert Next(s1, ReadOwn(c)) == s2;
    if probe {
      var bound := Session(Attached, Some(Handoff(s.serial, c)), None);
      var s3 := Next(s2, AttachExisting(c, true));
      assert s3.sessions == s.sessions[t := bound] && s3.tasks == s.tasks[c := Resuming(t, Bound)];
      assert s3.tasks[c := Idle] == s.tasks;
    } else {
      var s3 := Next(s2, AttachExisting(c, false));
      assert s3.sessions == s.sessions[t := torn] && s3.tasks == s.tasks[c := Resuming(t, Failing)];
      assert s3.tasks[c := Idle] == s.tasks;
      assert s3.sessions[t := Session(Closed, None, None)] == s.sessions[t := Session(Closed, None, None)];
    }
  }

  /** While the loop of c is about to close t, it stays so, and a service that ended does not come back. */
  lemma {:induction false} ServiceDoesNotReturn(s: State, e: Event, c: nat, t: nat)
    requires Inv(s) && c < |s.tasks| && t < |s.sessions| && s.tasks[c] == Closing(t) && e != LoopClose(c)
    ensures c < |Next(s, e).tasks| && t < |Next(s, e).sessions| && Next(s, e).tasks[c] == Closing(t)
    ensures !Serves(s, t, c) ==> !Serves(Next(s, e), t, c)
  {
    assert StateOk(s, t) && ShellOk(s, t);
    if !e.NewConn? && e.c < |s.sessions| { assert StateOk(s, e.c) && ShellOk(s, e.c); }
  }

  function ServesAt(es: seq<Event>, t: nat, c: nat): nat -> bool {
    (k: nat) => k <= |es| && Serves(Run(es[..k]), t, c)
  }

  function DisplacedAt(es: seq<Event>, t: nat): nat -> bool {
    (k: nat) => k < |es| && Displaces(Run(es[..k]), es[k], t)
  }

  /** The loop of c is about to close t. */
  predicate Dying(s: State, c: nat, t: nat)
    requires |s.tasks| == |s.sessions|
  {
    c < |s.tasks| && t < |s.sessions| && s.tasks[c] == Closing(t)
  }

  lemma {:induction false} StaysDying(es: seq<Event>, checked: nat, now: nat, c: nat, t: nat)
    requires checked <= now <= |es| && Dying(Run(es[..checked]), c, t)
    requires forall k | checked <= k < now :: es[k] != LoopClose(c)
    ensures Dying(Run(es[..now]), c, t)
    decreases now
  {
    if checked < now {
      var before, e := es[..now - 1], es[now - 1];
      StaysDying(es, checked, now - 1, c, t);
      RunKeepsInv(before);
      ServiceDoesNotReturn(Run(before), e, c, t);
      RunSnoc(before, e);
      assert es[..now] == before + [e];
    }
  }

  lemma {:induction false} ServedStep(es: seq<Event>, k: nat, c: nat, t: nat)
    requires k < |es| && Dying(Run(es[..k]), c, t) && es[k] != LoopClose(c)
    ensures ServesAt(es, t, c)(k + 1) <==> ServesAt(es, t, c)(k) && !DisplacedAt(es, t)(k)
  {
    var s, e := Run(es[..k]), es[k];
    RunKeepsInv(es[..k]);
    ServiceDoesNotReturn(s, e, c, t);
    if Serves(s, t, c) { ServiceEndsIff(s, e, c, t); }
    assert es[..k + 1] == es[..k] + [e];
    RunSnoc(es[..k], e);
  }

  /**
   The check and the Close of a dying loop are two steps. When it closes, the
   session it checked is still served over its transport iff nothing displaced
   the session in between.
   */
  lemma {:induction false} ServedAtCloseIff(es: seq<Event>, checked: nat, now: nat, c: nat, t: nat)
    requires checked <= now <= |es| && Serves(Run(es[..checked]), t, c) && Dying(Run(es[..checked]), c, t)
    requires forall k | checked <= k < now :: es[k] != LoopClose(c)
    ensures Dying(Run(es[..now]), c, t)
    ensures Serves(Run(es[..now]), t, c) <==> forall k: nat | checked <= k < now :: !DisplacedAt(es, t)(k)
  {
    forall k: nat | checked <= k < now
      ensures ServesAt(es, t, c)(k + 1) <==> ServesAt(es, t, c)(k) && !DisplacedAt(es, t)(k)
    {
      StaysDying(es, checked, k, c, t);
      ServedStep(es, k, c, t);
    }
    KeptIff(ServesAt(es, t, c), DisplacedAt(es, t), checked, now);
    StaysDying(es, checked, now, c, t);
  }

  lemma {:induction false} RunSnoc(es: seq<Event>, e: Event)
    ensures Run(es + [e]) == Next(Run(es), e)
  {
    assert (es + [e])[..|es|] == es;
  }

  /** One more step of a run whose state is known. */
  lemma {:induction false} Then(es: seq<Event>, s: State, e: Event, n: State) returns (more: seq<Event>)
    requires Run(es) == s && |s.tasks| == |s.sessions| && Next(s, e) == n
    ensures Run(more) == n
  {
    RunSnoc(es, e);
    more := es + [e];
  }

  const JOINED := Session(Attached, Some(Own(0)), None)
  const DETACHED := Session(Detached, None, None)

  function Newcomer(c: nat): Session {
    Session(Authenticating, Some(Own(c)), None)
  }

  /** A connection that connected, and a second one. */
  lemma {:induction false} TwoConnections() returns (es: seq<Event>)
    ensures Run(es) == State([JOINED, Newcomer(1)], [Idle, Idle], {0}, 0, {})
  {
    var s1 := State([Newcomer(0)], [Idle], {}, 0, {});
    var s2 := State([JOINED], [Idle], {0}, 0, {});
    es := Then([], INIT, NewConn, s1);
    es := Then(es, s1, Connect(0, true), s2);
    es := Then(es, s2, NewConn, State([JOINED, Newcomer(1)], [Idle, Idle], {0}, 0, {}));
  }

  /** The second one takes the first over with nothing in the way. */
  lemma {:induction false} Resumed() returns (es: seq<Event>)
    ensures Run(es) == State([Session(Attached, Some(Handoff(0, 1)), None), Session(Authenticating, None, Some(0))],
                             [Idle, Idle], {0}, 1, {})
  {
    es := TwoConnections();
    var served := Session(Attached, Some(Handoff(0, 1)), None);
    var s0 := State([JOINED, Newcomer(1)], [Idle, Idle], {0}, 0, {});
    var s1 := State([DETACHED, Newcomer(1)], [Idle, Resuming(0, AfterDetach)], {0}, 0, {});
    var s2 := State([DETACHED, Newcomer(1)], [Idle, Resuming(0, Read(Own(1)))], {0}, 0, {});
    var s3 := State([served, Newcomer(1)], [Idle, Resuming(0, Bound)], {0}, 1, {});
    var s4 := State([served, Session(Authenticating, None, Some(0))], [Idle, Idle], {0}, 1, {});
    es := Then(es, s0, BeginTakeover(1, 0), s1);
    es := Then(es, s1, ReadOwn(1), s2);
    es := Then(es, s2, AttachExisting(1, true), s3);
    es := Then(es, s3, Demote(1), s4);
  }

  const SHELL := Session(Authenticating, None, Some(0))

  /** The shell's loop has checked, and a third connection begins to take over. */
  lemma {:induction false} ShellChecked() returns (es: seq<Event>)
    ensures Run(es) == State([DETACHED, SHELL, Newcomer(2)], [Idle, Closing(0), Resuming(0, AfterDetach)], {0}, 1, {})
  {
    es := Resumed();
    var first := Session(Attached, Some(Handoff(0, 1)), None);
    var s0 := State([first, SHELL], [Idle, Idle], {0}, 1, {});
    var s1 := State([first, SHELL], [Idle, Closing(0)], {0}, 1, {});
    var s2 := State([first, SHELL, Newcomer(2)], [Idle, Closing(0), Idle], {0}, 1, {});
    var s3 := State([DETACHED, SHELL, Newcomer(2)], [Idle, Closing(0), Resuming(0, AfterDetach)], {0}, 1, {});
    es := Then(es, s0, LoopCheck(1), s1);
    es := Then(es, s1, NewConn, s2);
    es := Then(es, s2, BeginTakeover(2, 0), s3);
  }

  /** Without that condition a dying shell closes a session that a newer connection already serves. */
  lemma {:induction false} StaleCheckClosesNewerService() returns (es: seq<Event>)
    ensures |Run(es).tasks| == 3 && Serves(Run(es), 0, 2) && Run(es).tasks[1] == Closing(0)
    ensures |Next(Run(es), LoopClose(1)).sessions| == 3 && Next(Run(es), LoopClose(1)).sessions[0].state == Closed
  {
    es := ShellChecked();
    var s3 := State([DETACHED, SHELL, Newcomer(2)], [Idle, Closing(0), Resuming(0, AfterDetach)], {0}, 1, {});
    var s4 := State([DETACHED, SHELL, Newcomer(2)], [Idle, Closing(0), Resuming(0, Read(Own(2)))], {0}, 1, {});
    var s5 := State([Session(Attached, Some(Handoff(1, 2)), None), SHELL, Newcomer(2)],
                    [Idle, Closing(0), Resuming(0, Bound)], {0}, 2, {});
    es := Then(es, s3, ReadOwn(2), s4);
    es := Then(es, s4, AttachExisting(2, true), s5);
  }

  // ------------------------------------------------- detached sessions

  /** With no takeover of it under way, a session is detached iff a takeover abandoned it. */
  lemma {:induction false} DetachedIffAbandoned(es: seq<Event>, t: nat)
    requires t < |Run(es).sessions| && forall c | 0 <= c < |Run(es).tasks| :: !Busy(Run(es), c, t)
    ensures Run(es).sessions[t].state == Detached <==> t in Run(es).abandoned
  {
    RunKeepsInv(es);
    assert DetachedOk(Run(es), t);
  }

  /** And that happens exactly when the connection taking over was closed before its attachment was read. */
  lemma {:induction false} AbandonedIffConnectionClosed(es: seq<Event>, e: Event, t: nat)
    requires t !in Run(es).abandoned
    ensures t in Next(Run(es), e).abandoned <==>
            e.ReadOwn? && e.c < |Run(es).tasks| && Run(es).tasks[e.c] == Resuming(t, AfterDetach) &&
            Run(es).sessions[e.c].state == Closed && t < |Run(es).sessions| && Run(es).sessions[t].state == Detached
  {
    RunKeepsInv(es);
    var s := Run(es);
    if e.ReadOwn? && e.c < |s.tasks| {
      assert StateOk(s, e.c) && ShellOk(s, e.c);
    }
  }

  /** It can: the session stays in the hub with no attachment and nobody about to close it. */
  lemma {:induction false} TakeoverCanAbandon() returns (es: seq<Event>)
    ensures Run(es) == State([DETACHED, Session(Closed, None, None)], [Idle, Idle], {0}, 0, {0})
  {
    es := TwoConnections();
    var s0 := State([JOINED, Newcomer(1)], [Idle, Idle], {0}, 0, {});
    var s1 := State([DETACHED, Newcomer(1)], [Idle, Resuming(0, AfterDetach)], {0}, 0, {});
    var s2 := State([DETACHED, Session(Closed, None, None)], [Idle, Resuming(0, AfterDetach)], {0}, 0, {});
    es := Then(es, s0, BeginTakeover(1, 0), s1);
    es := Then(es, s1, CloseObject(1), s2);
    es := Then(es, s2, ReadOwn(1), State([DETACHED, Session(Closed, None, None)], [Idle, Idle], {0}, 0, {0}));
  }
}

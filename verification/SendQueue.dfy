/**
 The outbound queue of a session: two bounded lanes, one writer, and callers
 that wait for the result of their frame (internal/session/session.go).
 */
module SendQueue {
  import opened Options

  const CONTROL_DEPTH := 32
  const DATA_DEPTH := 256

  /** id is the position among all accepted frames; caller is the goroutine that sent it. */
  datatype Frame = Frame(id: nat, control: bool, caller: nat)

  datatype SendError = NotAttached | QueueFull

  datatype Dequeued = Waiting | QueueClosed | Got(frame: Frame)

  datatype Queue = Queue(control: seq<Frame>, data: seq<Frame>, closed: bool)

  predicate LaneFull(q: Queue, control: bool) {
    if control then |q.control| >= CONTROL_DEPTH else |q.data| >= DATA_DEPTH
  }

  function Refusal(q: Queue, control: bool): Option<SendError> {
    if q.closed then Some(NotAttached) else if LaneFull(q, control) then Some(QueueFull) else None
  }

  function Enqueued(q: Queue, f: Frame): Queue {
    if Refusal(q, f.control).Some? then q
    else if f.control then q.(control := q.control + [f]) else q.(data := q.data + [f])
  }

  function Head(q: Queue): Dequeued {
    if q.closed then QueueClosed
    else if q.control != [] then Got(q.control[0])
    else if q.data != [] then Got(q.data[0])
    else Waiting
  }

  function Dequeue(q: Queue): Queue {
    if !Head(q).Got? then q
    else if q.control != [] then q.(control := q.control[1..]) else q.(data := q.data[1..])
  }

  class OutQueue {
    var control: seq<Frame>
    var data: seq<Frame>
    var closed: bool

    ghost function View(): Queue
      reads this
    {
      Queue(control, data, closed)
    }

    constructor ()
      ensures View() == Queue([], [], false)
    {
      control, data, closed := [], [], false;
    }

    method TryEnqueue(frame: Frame) returns (err: Option<SendError>)
      modifies this
      ensures View() == Enqueued(old(View()), frame)
      ensures err == if old(closed) then Some(NotAttached)
                     else if (if frame.control then |old(control)| >= 32 else |old(data)| >= 256) then Some(QueueFull)
                     else None
    {
      if closed { return Some(NotAttached); }
      if frame.control {
        if |control| >= CONTROL_DEPTH { return Some(QueueFull); }
        control := control + [frame];
      } else {
        if |data| >= DATA_DEPTH { return Some(QueueFull); }
        data := data + [frame];
      }
      return None;
    }

    /** One pass of the wait loop: Waiting means the writer goes on waiting. */
    method TryDequeue() returns (r: Dequeued)
      modifies this
      ensures View() == Dequeue(old(View())) && r == Head(old(View()))
    {
      if closed { return QueueClosed; }
      if |control| > 0 {
        r := Got(control[0]);
        control := control[1..];
      } else if |data| > 0 {
        r := Got(data[0]);
        data := data[1..];
      } else {
        r := Waiting;
      }
    }

    /** The frames whose callers are told ErrSessionNotAttached. */
    method Close() returns (failed: seq<Frame>)
      modifies this
      ensures View() == Queue(if old(closed) then old(control) else [], if old(closed) then old(data) else [], true)
      ensures failed == if old(closed) then [] else old(control) + old(data)
    {
      if closed { return []; }
      closed := true;
      failed := control + data;
      control, data := [], [];
    }
  }

  // ------------------------------------------------ callers, queue and writer

  /**
   accepted, taken, wire and failed are histories: frames accepted, handed to
   the writer, written, and answered with an error. seen[i] is how many frames
   had been accepted when taken[i] was. waiting maps a caller to the frame it
   waits for; gaveUp are the frames whose caller stopped waiting.
   */
  datatype State = State(q: Queue, inflight: Option<Frame>, gone: bool, accepted: seq<Frame>, taken: seq<Frame>,
                         seen: seq<nat>, wire: seq<Frame>, failed: seq<Frame>, waiting: map<nat, nat>, gaveUp: set<nat>)

  datatype Event = Send(control: bool, caller: nat) | GiveUp(caller: nat) | WriterTake | WriterDone(ok: bool)
                 | CloseQueue

  /** The callers answered when these frames are. */
  function Answer(waiting: map<nat, nat>, fs: seq<Frame>): map<nat, nat> {
    map c | c in waiting && forall f | f in fs :: f.id != waiting[c] :: waiting[c]
  }

  function Next(s: State, e: Event): State {
    match e
    case Send(control, caller) =>
      var f := Frame(|s.accepted|, control, caller);
      if caller in s.waiting || Refusal(s.q, control).Some? then s
      else s.(q := Enqueued(s.q, f), accepted := s.accepted + [f], waiting := s.waiting[caller := f.id])
    case GiveUp(caller) =>
      if caller !in s.waiting then s
      else s.(waiting := s.waiting - {caller}, gaveUp := s.gaveUp + {s.waiting[caller]})
    case WriterTake =>
      if s.gone || s.inflight.Some? || !Head(s.q).Got? then s
      else var f := Head(s.q).frame;
           s.(q := Dequeue(s.q), inflight := Some(f), taken := s.taken + [f], seen := s.seen + [|s.accepted|])
    case WriterDone(ok) =>
      if s.inflight.None? then s
      else var f := s.inflight.value;
           if ok then s.(inflight := None, wire := s.wire + [f], waiting := Answer(s.waiting, [f]))
           else s.(inflight := None, gone := true, failed := s.failed + [f], waiting := Answer(s.waiting, [f]))
    case CloseQueue =>
      if s.q.closed then s
      else var fs := s.q.control + s.q.data;
           s.(q := Queue([], [], true), failed := s.failed + fs, waiting := Answer(s.waiting, fs))
  }

  const INIT := State(Queue([], [], false), None, false, [], [], [], [], [], map[], {})

  function Run(es: seq<Event>): State {
    if es == [] then INIT else Next(Run(es[..|es| - 1]), es[|es| - 1])
  }

  function Held(s: State): seq<Frame> {
    if s.inflight.Some? then [s.inflight.value] else []
  }

  function Lane(fs: seq<Frame>, control: bool): seq<Frame> {
    if fs == [] then [] else
    var rest := Lane(fs[..|fs| - 1], control);
    if fs[|fs| - 1].control == control then rest + [fs[|fs| - 1]] else rest
  }

  function QueueLane(q: Queue, control: bool): seq<Frame> {
    if control then q.control else q.data
  }

  // ---------------------------------------------------- bounds and conservation

  predicate Bounded(s: State) {
    |s.q.control| <= CONTROL_DEPTH && |s.q.data| <= DATA_DEPTH
  }

  predicate Numbered(s: State) {
    forall i | 0 <= i < |s.accepted| :: s.accepted[i].id == i
  }

  predicate Conserved(s: State) {
    multiset(s.accepted) ==
    multiset(Held(s)) + multiset(s.q.control) + multiset(s.q.data) + multiset(s.wire) + multiset(s.failed)
  }

  predicate Counted(s: State) {
    Bounded(s) && Numbered(s) && Conserved(s)
  }

  lemma {:induction false} NextKeepsBounds(s: State, e: Event)
    requires Bounded(s) && Numbered(s)
    ensures Bounded(Next(s, e)) && Numbered(Next(s, e))
  {
  }

  lemma {:induction false} SendConserves(s: State, e: Event)
    requires Conserved(s) && e.Send?
    ensures Conserved(Next(s, e))
  {
    var f := Frame(|s.accepted|, e.control, e.caller);
    assert multiset(s.accepted + [f]) == multiset(s.accepted) + multiset{f};
    assert multiset(QueueLane(s.q, e.control) + [f]) == multiset(QueueLane(s.q, e.control)) + multiset{f};
  }

  lemma {:induction false} Pop(fs: seq<Frame>)
    requires fs != []
    ensures multiset(fs) == multiset([fs[0]]) + multiset(fs[1..])
  {
    assert fs == [fs[0]] + fs[1..];
  }

  lemma {:induction false} TakeConserves(s: State)
    requires Conserved(s)
    ensures Conserved(Next(s, WriterTake))
  {
    var n := Next(s, WriterTake);
    if n != s {
      assert Held(s) == [] && Held(n) == [Head(s.q).frame];
      if s.q.control != [] {
        Pop(s.q.control);
        assert n.q.control == s.q.control[1..] && n.q.data == s.q.data;
      } else {
        Pop(s.q.data);
        assert n.q.data == s.q.data[1..] && n.q.control == s.q.control;
      }
    }
  }

  lemma {:induction false} DoneConserves(s: State, ok: bool)
    requires Conserved(s)
    ensures Conserved(Next(s, WriterDone(ok)))
  {
    if s.inflight.Some? {
      var f := s.inflight.value;
      assert Held(s) == [f] && Held(Next(s, WriterDone(ok))) == [];
      Appended(s.wire, [f]);
      Appended(s.failed, [f]);
    }
  }

  lemma {:induction false} CloseConserves(s: State)
    requires Conserved(s)
    ensures Conserved(Next(s, CloseQueue))
  {
    assert Held(Next(s, CloseQueue)) == Held(s);
    Appended(s.q.control, s.q.data);
    Appended(s.failed, s.q.control + s.q.data);
  }

  lemma {:induction false} Appended(a: seq<Frame>, b: seq<Frame>)
    ensures multiset(a + b) == multiset(a) + multiset(b)
  {
  }

  lemma {:induction false} NextKeepsCounted(s: State, e: Event)
    requires Counted(s)
    ensures Counted(Next(s, e))
  {
    NextKeepsBounds(s, e);
    match e
    case Send(_, _) => SendConserves(s, e);
    case GiveUp(_) => assert Held(Next(s, e)) == Held(s);
    case WriterTake => TakeConserves(s);
    case WriterDone(ok) => DoneConserves(s, ok);
    case CloseQueue => CloseConserves(s);
  }

  lemma {:induction false} RunCounted(es: seq<Event>)
    ensures Counted(Run(es))
    decreases |es|
  {
    if es != [] {
      RunCounted(es[..|es| - 1]);
      NextKeepsCounted(Run(es[..|es| - 1]), es[|es| - 1]);
    }
  }

  /** In every run a send is refused iff the queue is closed or its lane holds 32 Control or 256 Data frames. */
  lemma {:induction false} RefusedIff(es: seq<Event>, control: bool, caller: nat)
    requires caller !in Run(es).waiting
    ensures var s, n := Run(es), Next(Run(es), Send(control, caller));
            (n == s <==> s.q.closed || (if control then |s.q.control| == 32 else |s.q.data| == 256)) &&
            (n != s ==> n.accepted == s.accepted + [Frame(|s.accepted|, control, caller)] &&
                        caller in n.waiting && n.waiting[caller] == |s.accepted|)
  {
    RunCounted(es);
    var s := Run(es);
    assert (s.accepted + [Frame(|s.accepted|, control, caller)]) != s.accepted;
  }

  /**
   Once the queue is closed and the writer holds nothing, every accepted frame
   has been answered exactly once, written or failed.
   */
  lemma {:induction false} EveryFrameIsAnsweredOnce(es: seq<Event>, id: nat)
    requires Run(es).q.closed && Run(es).inflight.None? && id < |Run(es).accepted|
    ensures var s := Run(es); (multiset(s.wire) + multiset(s.failed))[s.accepted[id]] == 1
  {
    RunCounted(es);
    var s := Run(es);
    ClosedIsEmpty(es);
    OnceOnly(s.accepted, id);
  }

  lemma {:induction false} ClosedIsEmpty(es: seq<Event>)
    ensures Run(es).q.closed ==> Run(es).q.control == [] && Run(es).q.data == []
    decreases |es|
  {
    if es != [] { ClosedIsEmpty(es[..|es| - 1]); }
  }

  /** No frame is written twice. */
  lemma {:induction false} WrittenOnce(es: seq<Event>, i: nat, j: nat)
    requires i < j < |Run(es).wire|
    ensures Run(es).wire[i].id != Run(es).wire[j].id
  {
    RunCounted(es);
    WireIdsDiffer(Run(es), i, j);
  }

  lemma {:induction false} WireIdsDiffer(s: State, i: nat, j: nat)
    requires Counted(s) && i < j < |s.wire|
    ensures s.wire[i].id != s.wire[j].id
  {
    var f, g, later := s.wire[i], s.wire[j], s.wire[i + 1..];
    assert f in multiset(s.wire) && g in multiset(s.wire);
    assert f in multiset(s.accepted) && g in multiset(s.accepted);
    assert f in s.accepted && g in s.accepted;
    OnceOnly(s.accepted, f.id);
    assert s.wire == s.wire[..i] + [f] + later;
    assert multiset(s.wire) == multiset(s.wire[..i]) + multiset([f]) + multiset(later);
    assert multiset(later)[f] == 0;
    assert later[j - i - 1] == g && g in multiset(later);
  }

  lemma {:induction false} OnceOnly(fs: seq<Frame>, k: nat)
    requires k < |fs| && forall i | 0 <= i < |fs| :: fs[i].id == i
    ensures multiset(fs)[fs[k]] == 1
  {
    assert fs == fs[..k] + [fs[k]] + fs[k + 1..];
    assert fs[k] !in fs[..k] && fs[k] !in fs[k + 1..];
    assert multiset(fs) == multiset(fs[..k]) + multiset([fs[k]]) + multiset(fs[k + 1..]);
  }

  // -------------------------------------------------------------- the lanes

  lemma {:induction false} LaneSnoc(fs: seq<Frame>, f: Frame, control: bool)
    ensures Lane(fs + [f], control) == Lane(fs, control) + if f.control == control then [f] else []
  {
    assert (fs + [f])[..|fs|] == fs;
  }

  lemma {:induction false} LaneOfPrefix(fs: seq<Frame>, gs: seq<Frame>, control: bool)
    requires fs <= gs
    ensures Lane(fs, control) <= Lane(gs, control)
    decreases |gs|
  {
    if |fs| < |gs| {
      LaneOfPrefix(fs, gs[..|gs| - 1], control);
    } else {
      assert fs == gs;
    }
  }

  lemma {:induction false} LaneMembers(fs: seq<Frame>, f: Frame, control: bool)
    ensures f in Lane(fs, control) <==> f in fs && f.control == control
    decreases |fs|
  {
    if fs != [] {
      LaneMembers(fs[..|fs| - 1], f, control);
      assert fs == fs[..|fs| - 1] + [fs[|fs| - 1]];
    }
  }

  predicate Typed(q: Queue) {
    (forall f | f in q.control :: f.control) && forall f | f in q.data :: !f.control
  }

  /** While the queue is open, a lane is what was accepted on it and not yet taken, in order. */
  predicate LaneOk(s: State, control: bool) {
    Lane(s.taken, control) <= Lane(s.accepted, control) &&
    (!s.q.closed ==> Lane(s.taken, control) + QueueLane(s.q, control) == Lane(s.accepted, control))
  }

  /** The writer writes what it takes, in that order, until a write fails. */
  predicate WriterOk(s: State) {
    s.wire + Held(s) <= s.taken && (!s.gone ==> s.wire + Held(s) == s.taken) && (s.gone ==> s.inflight.None?)
  }

  lemma {:induction false} NextKeepsTyped(s: State, e: Event)
    requires Typed(s.q) && WriterOk(s)
    ensures Typed(Next(s, e).q) && WriterOk(Next(s, e))
  {
  }

  lemma {:induction false} SendKeepsLane(s: State, kind: bool, caller: nat, control: bool)
    requires Typed(s.q) && LaneOk(s, control)
    ensures LaneOk(Next(s, Send(kind, caller)), control)
  {
    LaneSnoc(s.accepted, Frame(|s.accepted|, kind, caller), control);
  }

  lemma {:induction false} TakeKeepsLane(s: State, control: bool)
    requires Typed(s.q) && LaneOk(s, control)
    ensures LaneOk(Next(s, WriterTake), control)
  {
    var n := Next(s, WriterTake);
    if n != s {
      var f := Head(s.q).frame;
      LaneSnoc(s.taken, f, control);
      if f.control == control {
        assert QueueLane(s.q, control) == [f] + QueueLane(n.q, control);
        Shifted(Lane(s.taken, control), QueueLane(s.q, control), f, QueueLane(n.q, control));
      } else {
        assert QueueLane(s.q, control) == QueueLane(n.q, control);
        assert Lane(s.taken, control) + [] == Lane(s.taken, control);
      }
    }
  }

  lemma {:induction false} Shifted(a: seq<Frame>, b: seq<Frame>, f: Frame, c: seq<Frame>)
    requires b == [f] + c
    ensures a + b == a + [f] + c && a + [f] <= a + b
  {
  }

  lemma {:induction false} NextKeepsLane(s: State, e: Event, control: bool)
    requires Typed(s.q) && LaneOk(s, control)
    ensures LaneOk(Next(s, e), control)
  {
    match e
    case Send(kind, caller) => SendKeepsLane(s, kind, caller, control);
    case WriterTake => TakeKeepsLane(s, control);
    case _ =>
  }

  /** A Data frame is taken only after every Control frame accepted by then. */
  predicate PriorityAt(s: State, i: nat)
    requires i < |s.taken|
  {
    |s.seen| == |s.taken| && s.seen[i] <= |s.accepted| &&
    (!s.taken[i].control ==>
       forall id | 0 <= id < s.seen[i] :: s.accepted[id].control ==> s.accepted[id] in s.taken[..i])
  }

  predicate PriorityOk(s: State) {
    |s.seen| == |s.taken| && forall i | 0 <= i < |s.taken| :: PriorityAt(s, i)
  }

  lemma {:induction false} TakenControl(s: State, id: nat)
    requires LaneOk(s, true) && !s.q.closed && s.q.control == [] && id < |s.accepted| && s.accepted[id].control
    ensures s.accepted[id] in s.taken
  {
    LaneMembers(s.accepted, s.accepted[id], true);
    LaneMembers(s.taken, s.accepted[id], true);
  }

  lemma {:induction false} NextKeepsPriority(s: State, e: Event)
    requires LaneOk(s, true) && Typed(s.q) && PriorityOk(s)
    ensures PriorityOk(Next(s, e))
  {
    var n := Next(s, e);
    forall i | 0 <= i < |n.taken| ensures PriorityAt(n, i) {
      if i < |s.taken| {
        assert PriorityAt(s, i) && n.taken[..i] == s.taken[..i];
      } else {
        assert n.taken[..i] == s.taken;
        if !n.taken[i].control {
          forall id | 0 <= id < n.seen[i] && n.accepted[id].control ensures n.accepted[id] in n.taken[..i] {
            TakenControl(s, id);
          }
        }
      }
    }
  }

  lemma {:induction false} RunLanes(es: seq<Event>)
    ensures var s := Run(es); Typed(s.q) && WriterOk(s) && LaneOk(s, true) && LaneOk(s, false) && PriorityOk(s)
    decreases |es|
  {
    if es != [] {
      var s, e := Run(es[..|es| - 1]), es[|es| - 1];
      RunLanes(es[..|es| - 1]);
      NextKeepsTyped(s, e);
      NextKeepsLane(s, e, true);
      NextKeepsLane(s, e, false);
      NextKeepsPriority(s, e);
    }
  }

  /** On each lane, what reaches the wire is a prefix of what was accepted: no reordering and no holes. */
  lemma {:induction false} LanesAreFifo(es: seq<Event>, control: bool)
    ensures Lane(Run(es).wire, control) <= Lane(Run(es).accepted, control)
  {
    RunLanes(es);
    var s := Run(es);
    assert s.wire <= s.taken;
    LaneOfPrefix(s.wire, s.taken, control);
    assert LaneOk(s, control);
  }

  /** A Data frame on the wire comes after every Control frame accepted before the writer took it. */
  lemma {:induction false} ControlGoesFirst(es: seq<Event>, i: nat, id: nat)
    requires var s := Run(es); i < |s.wire| && !s.wire[i].control
    requires var s := Run(es); i < |s.seen| && id < s.seen[i] && id < |s.accepted| && s.accepted[id].control
    ensures Run(es).accepted[id] in Run(es).wire[..i]
  {
    RunLanes(es);
    var s := Run(es);
    assert s.wire <= s.taken;
    assert s.taken[..i] == s.wire[..i] && s.taken[i] == s.wire[i];
    assert PriorityAt(s, i);
  }

  // ----------------------------------------------------- one caller's frames

  /** w goes out before g: right, unless g is an earlier Data frame its caller stopped waiting for. */
  predicate Fine(s: State, w: Frame, g: Frame) {
    w.caller == g.caller && w.id > g.id ==> w.control && !g.control && g.id in s.gaveUp
  }

  predicate Sorted(fs: seq<Frame>) {
    forall i, j | 0 <= i < j < |fs| :: fs[i].id < fs[j].id
  }

  predicate Queued(s: State, f: Frame) {
    f in s.q.control || f in s.q.data
  }

  predicate WaitedFor(s: State, f: Frame) {
    f.id in s.gaveUp || (f.caller in s.waiting && s.waiting[f.caller] == f.id)
  }

  /** What leaves or has left, in order. */
  function Out(s: State): seq<Frame> {
    s.wire + Held(s)
  }

  ghost predicate SortedLanes(s: State) {
    Sorted(s.q.control) && Sorted(s.q.data) &&
    forall f, g | f in Held(s) && g in QueueLane(s.q, f.control) :: f.id < g.id
  }

  ghost predicate IdsOk(s: State) {
    (forall f | Queued(s, f) || f in Held(s) :: f.id < |s.accepted| && f == s.accepted[f.id] && WaitedFor(s, f)) &&
    (forall f | f in s.wire :: f.id < |s.accepted|)
  }

  ghost predicate OrderOk(s: State) {
    (forall g, w | Queued(s, g) && Queued(s, w) && g.caller == w.caller && g.id < w.id :: g.id in s.gaveUp) &&
    (forall i, j | 0 <= i < j < |Out(s)| :: Fine(s, Out(s)[i], Out(s)[j])) &&
    (forall w, g | w in Out(s) && Queued(s, g) :: Fine(s, w, g))
  }

  ghost predicate CallerOk(s: State) {
    Typed(s.q) && SortedLanes(s) && IdsOk(s) && OrderOk(s)
  }

  lemma {:induction false} SendKeepsLanes(s: State, e: Event)
    requires Typed(s.q) && SortedLanes(s) && IdsOk(s) && e.Send?
    ensures Typed(Next(s, e).q) && SortedLanes(Next(s, e))
  {
    var f := Frame(|s.accepted|, e.control, e.caller);
    assert forall g | g in QueueLane(s.q, e.control) :: Queued(s, g);
    SortedSnoc(QueueLane(s.q, e.control), f);
  }

  lemma {:induction false} SortedSnoc(fs: seq<Frame>, f: Frame)
    requires Sorted(fs) && forall g | g in fs :: g.id < f.id
    ensures Sorted(fs + [f])
  {
  }

  lemma {:induction false} SendKeepsIds(s: State, e: Event)
    requires IdsOk(s) && e.Send?
    ensures IdsOk(Next(s, e))
  {
    var n := Next(s, e);
    var f := Frame(|s.accepted|, e.control, e.caller);
    forall g | Queued(n, g) || g in Held(n)
      ensures g.id < |n.accepted| && g == n.accepted[g.id] && WaitedFor(n, g)
    {
      if n != s && g != f {
        assert Queued(s, g) || g in Held(s);
      }
    }
  }

  lemma {:induction false} SendKeepsOrder(s: State, e: Event)
    requires CallerOk(s) && e.Send?
    ensures OrderOk(Next(s, e))
  {
    var n := Next(s, e);
    assert Out(n) == Out(s);
    forall i, j | 0 <= i < j < |Out(n)| ensures Fine(n, Out(n)[i], Out(n)[j]) {
      assert Fine(s, Out(s)[i], Out(s)[j]);
    }
    forall w, g | w in Out(n) && Queued(n, g) ensures Fine(n, w, g) {
      if Queued(s, g) { assert Fine(s, w, g); }
    }
  }

  /** Nothing joins the queue or the outgoing frames, and nobody stops having given up. */
  lemma {:induction false} FewerKeepOrder(s: State, n: State)
    requires OrderOk(s) && Out(n) <= Out(s) && s.gaveUp <= n.gaveUp
    requires forall f :: Queued(n, f) ==> Queued(s, f)
    ensures OrderOk(n)
  {
    forall i, j | 0 <= i < j < |Out(n)| ensures Fine(n, Out(n)[i], Out(n)[j]) {
      assert Fine(s, Out(s)[i], Out(s)[j]);
    }
    forall w, g | w in Out(n) && Queued(n, g) ensures Fine(n, w, g) {
      assert Fine(s, w, g);
    }
  }

  lemma {:induction false} GiveUpKeepsCaller(s: State, e: Event)
    requires CallerOk(s) && e.GiveUp?
    ensures CallerOk(Next(s, e))
  {
    FewerKeepOrder(s, Next(s, e));
  }

  lemma {:induction false} CloseKeepsCaller(s: State)
    requires CallerOk(s)
    ensures CallerOk(Next(s, CloseQueue))
  {
    FewerKeepOrder(s, Next(s, CloseQueue));
  }

  lemma {:induction false} DoneKeepsCaller(s: State, e: Event)
    requires CallerOk(s) && e.WriterDone?
    ensures CallerOk(Next(s, e))
  {
    FewerKeepOrder(s, Next(s, e));
  }

  lemma {:induction false} TakeKeepsLanes(s: State)
    requires Typed(s.q) && SortedLanes(s)
    ensures var n := Next(s, WriterTake); Typed(n.q) && SortedLanes(n)
  {
    var n := Next(s, WriterTake);
    if n != s {
      var f := Head(s.q).frame;
      assert Held(n) == [f];
      assert QueueLane(s.q, f.control) == [f] + QueueLane(n.q, f.control);
      assert QueueLane(s.q, !f.control) == QueueLane(n.q, !f.control);
    }
  }

  lemma {:induction false} TakeKeepsIds(s: State)
    requires IdsOk(s)
    ensures IdsOk(Next(s, WriterTake))
  {
    var n := Next(s, WriterTake);
    forall f | Queued(n, f) || f in Held(n)
      ensures f.id < |n.accepted| && f == n.accepted[f.id] && WaitedFor(n, f)
    {
      assert Queued(s, f) || f in Held(s);
    }
  }

  lemma {:induction false} TakeKeepsOrder(s: State)
    requires CallerOk(s)
    ensures OrderOk(Next(s, WriterTake))
  {
    var n := Next(s, WriterTake);
    if n != s {
      var f := Head(s.q).frame;
      assert Out(n) == Out(s) + [f] && Queued(s, f);
      forall i, j | 0 <= i < j < |Out(n)| ensures Fine(n, Out(n)[i], Out(n)[j]) {
        if j < |Out(s)| { assert Fine(s, Out(s)[i], Out(s)[j]); } else { assert Fine(s, Out(s)[i], f); }
      }
      forall w, g | w in Out(n) && Queued(n, g) ensures Fine(n, w, g) {
        assert Queued(s, g);
        if w in Out(s) { assert Fine(s, w, g); }
      }
    }
  }

  lemma {:induction false} RunCallers(es: seq<Event>)
    ensures CallerOk(Run(es))
    decreases |es|
  {
    if es != [] {
      var s, e := Run(es[..|es| - 1]), es[|es| - 1];
      RunCallers(es[..|es| - 1]);
      match e
      case Send(_, _) => SendKeepsLanes(s, e); SendKeepsIds(s, e); SendKeepsOrder(s, e);
      case GiveUp(_) => GiveUpKeepsCaller(s, e);
      case WriterTake => TakeKeepsLanes(s); TakeKeepsIds(s); TakeKeepsOrder(s);
      case WriterDone(_) => DoneKeepsCaller(s, e);
      case CloseQueue => CloseKeepsCaller(s);
    }
  }

  // ------------------------------------------------------- who goes first

  /** One lane's frames are taken in the order of their ids, and before those still in it. */
  predicate InOrder(taken: seq<Frame>, lane: seq<Frame>, control: bool, bound: nat) {
    Sorted(lane) &&
    (forall i, j | 0 <= i < j < |taken| && taken[i].control == control == taken[j].control ::
       taken[i].id < taken[j].id) &&
    (forall i, j | 0 <= i < |taken| && taken[i].control == control && 0 <= j < |lane| :: taken[i].id < lane[j].id) &&
    (forall i | 0 <= i < |taken| :: taken[i].id < bound) && (forall j | 0 <= j < |lane| :: lane[j].id < bound)
  }

  predicate TakenInOrder(s: State) {
    InOrder(s.taken, s.q.control, true, |s.accepted|) && InOrder(s.taken, s.q.data, false, |s.accepted|)
  }

  lemma {:induction false} OneMoreInLane(taken: seq<Frame>, lane: seq<Frame>, control: bool, f: Frame)
    requires InOrder(taken, lane, control, f.id)
    ensures InOrder(taken, lane + [f], control, f.id + 1) && InOrder(taken, lane, control, f.id + 1)
  {
  }

  lemma {:induction false} HeadIsTaken(taken: seq<Frame>, lane: seq<Frame>, control: bool, bound: nat)
    requires InOrder(taken, lane, control, bound) && lane != [] && lane[0].control == control
    ensures InOrder(taken + [lane[0]], lane[1..], control, bound)
  {
  }

  lemma {:induction false} OtherIsTaken(taken: seq<Frame>, lane: seq<Frame>, control: bool, bound: nat, f: Frame)
    requires InOrder(taken, lane, control, bound) && f.control != control && f.id < bound
    ensures InOrder(taken + [f], lane, control, bound)
  {
  }

  lemma {:induction false} SendKeepsTaken(s: State, control: bool, caller: nat)
    requires TakenInOrder(s)
    ensures TakenInOrder(Next(s, Send(control, caller)))
  {
    var f, n := Frame(|s.accepted|, control, caller), Next(s, Send(control, caller));
    if n != s {
      OneMoreInLane(s.taken, s.q.control, true, f);
      OneMoreInLane(s.taken, s.q.data, false, f);
      assert n.taken == s.taken && |n.accepted| == f.id + 1;
      assert n.q.control == (if control then s.q.control + [f] else s.q.control);
      assert n.q.data == (if control then s.q.data else s.q.data + [f]);
    }
  }

  lemma {:induction false} ControlIsTaken(s: State)
    requires Typed(s.q) && TakenInOrder(s) && s.q.control != []
    ensures var f := s.q.control[0];
            InOrder(s.taken + [f], s.q.control[1..], true, |s.accepted|) &&
            InOrder(s.taken + [f], s.q.data, false, |s.accepted|)
  {
    var f := s.q.control[0];
    assert f in s.q.control;
    HeadIsTaken(s.taken, s.q.control, true, |s.accepted|);
    OtherIsTaken(s.taken, s.q.data, false, |s.accepted|, f);
  }

  lemma {:induction false} DataIsTaken(s: State)
    requires Typed(s.q) && TakenInOrder(s) && s.q.data != []
    ensures var f := s.q.data[0];
            InOrder(s.taken + [f], s.q.data[1..], false, |s.accepted|) &&
            InOrder(s.taken + [f], s.q.control, true, |s.accepted|)
  {
    var f := s.q.data[0];
    assert f in s.q.data;
    HeadIsTaken(s.taken, s.q.data, false, |s.accepted|);
    OtherIsTaken(s.taken, s.q.control, true, |s.accepted|, f);
  }

  lemma {:induction false} TakeKeepsTaken(s: State)
    requires Typed(s.q) && TakenInOrder(s)
    ensures TakenInOrder(Next(s, WriterTake))
  {
    if s.q.control != [] { ControlIsTaken(s); } else if s.q.data != [] { DataIsTaken(s); }
  }

  lemma {:induction false} LaneIsEmptied(taken: seq<Frame>, lane: seq<Frame>, control: bool, bound: nat)
    requires InOrder(taken, lane, control, bound)
    ensures InOrder(taken, [], control, bound)
  {
  }

  lemma {:induction false} CloseKeepsTaken(s: State)
    requires TakenInOrder(s)
    ensures TakenInOrder(Next(s, CloseQueue))
  {
    LaneIsEmptied(s.taken, s.q.control, true, |s.accepted|);
    LaneIsEmptied(s.taken, s.q.data, false, |s.accepted|);
  }

  lemma {:induction false} NextTakesInOrder(s: State, e: Event)
    requires Typed(s.q) && TakenInOrder(s)
    ensures TakenInOrder(Next(s, e))
  {
    match e
    case Send(control, caller) => SendKeepsTaken(s, control, caller);
    case WriterTake => TakeKeepsTaken(s);
    case CloseQueue => CloseKeepsTaken(s);
    case _ => assert Next(s, e).taken == s.taken && Next(s, e).accepted == s.accepted;
  }

  lemma {:induction false} RunTakesInOrder(es: seq<Event>)
    ensures TakenInOrder(Run(es))
    decreases |es|
  {
    if es != [] {
      RunTakesInOrder(es[..|es| - 1]);
      RunLanes(es[..|es| - 1]);
      NextTakesInOrder(Run(es[..|es| - 1]), es[|es| - 1]);
    }
  }

  /** Nothing accepted or taken is forgotten, and what is taken later has seen what was accepted by now. */
  predicate Later(s: State, n: State) {
    s.accepted <= n.accepted && s.taken <= n.taken && |n.seen| == |n.taken| &&
    forall i | |s.taken| <= i < |n.taken| :: n.seen[i] >= |s.accepted|
  }

  lemma {:induction false} NextIsLater(s: State, m: State, e: Event)
    requires Later(s, m)
    ensures Later(s, Next(m, e))
  {
  }

  lemma {:induction false} RunLater(es: seq<Event>, k: nat)
    requires k <= |es|
    ensures Later(Run(es[..k]), Run(es))
    decreases |es|
  {
    if k == |es| {
      assert es[..k] == es;
      RunLanes(es);
    } else {
      var n := |es| - 1;
      RunLater(es[..n], k);
      assert es[..n][..k] == es[..k];
      NextIsLater(Run(es[..k]), Run(es[..n]), es[n]);
    }
  }

  /** In an open queue every accepted frame has been taken or is in its lane. */
  lemma {:induction false} TakenOrQueued(s: State, f: Frame)
    requires LaneOk(s, f.control) && !s.q.closed && f in s.accepted
    ensures f in s.taken || f in QueueLane(s.q, f.control)
  {
    LaneMembers(s.accepted, f, f.control);
    LaneMembers(s.taken, f, f.control);
  }

  /** The k-th event of the run is the Send that w was accepted by. */
  predicate AcceptedAt(es: seq<Event>, k: nat, w: Frame) {
    k < |es| && |Run(es[..k]).accepted| == w.id && |Run(es[..k + 1]).accepted| == w.id + 1
  }

  lemma {:induction false} AtAcceptance(es: seq<Event>, k: nat, w: Frame)
    requires AcceptedAt(es, k, w)
    ensures !Run(es[..k]).q.closed && Run(es[..k + 1]).taken == Run(es[..k]).taken
  {
    assert es[..k + 1] == es[..k] + [es[k]];
    RunSnoc(es[..k], es[k]);
  }

  /** Positions among the taken frames are unique. */
  lemma {:induction false} OnePosition(s: State, i: nat, j: nat)
    requires TakenInOrder(s) && i < |s.taken| && j < |s.taken| && s.taken[i] == s.taken[j]
    ensures i == j
  {
  }

  /** Taken before the other was accepted: first, and no longer in its lane. */
  lemma {:induction false} AlreadyTaken(s: State, a: State, p: nat, q: nat)
    requires TakenInOrder(s) && TakenInOrder(a) && a.taken <= s.taken && p < |s.taken| && q < |s.taken|
    requires s.taken[q] in a.taken && s.taken[p].id >= |a.accepted|
    ensures q < p && s.taken[q] !in QueueLane(a.q, s.taken[q].control)
  {
    var i :| 0 <= i < |a.taken| && a.taken[i] == s.taken[q];
    assert s.taken[i] == s.taken[q];
    OnePosition(s, i, q);
    assert forall j | 0 <= j < |a.taken| :: s.taken[j] == a.taken[j];
  }

  /** Both were still to be taken once both were accepted: Control first, and each lane in order. */
  lemma {:induction false} NotYetTaken(s: State, p: nat, q: nat)
    requires TakenInOrder(s) && PriorityOk(s) && Numbered(s) && p < |s.taken| && q < |s.taken|
    requires s.taken[p] in s.accepted && s.taken[q] in s.accepted && s.taken[q].id < s.taken[p].id
    requires s.seen[p] > s.taken[p].id && s.seen[q] > s.taken[p].id
    ensures p < q <==> s.taken[p].control && !s.taken[q].control
  {
    var w, g := s.taken[p], s.taken[q];
    assert s.accepted[w.id] == w && s.accepted[g.id] == g;
    if w.control && !g.control {
      assert PriorityAt(s, q);
      assert w in s.taken[..q];
      var i :| 0 <= i < q && s.taken[i] == w;
      OnePosition(s, i, p);
    } else if !w.control && g.control {
      assert PriorityAt(s, p);
      assert g in s.taken[..p];
      var i :| 0 <= i < p && s.taken[i] == g;
      OnePosition(s, i, q);
    }
  }

  /** What stands behind a prefix of the taken frames is not in it. */
  lemma {:induction false} BehindPrefix(s: State, taken: seq<Frame>, i: nat)
    requires taken <= s.taken && i < |s.taken| && s.taken[i] !in taken
    ensures i >= |taken|
  {
    assert forall j | 0 <= j < |taken| :: taken[j] == s.taken[j];
  }

  /**
   Of two frames that were taken, g sent before w, w goes out first iff w is a
   Control frame and g was in the Data lane when w was accepted.
   */
  lemma {:induction false} TakenFirstIff(s: State, a: State, b: State, p: nat, q: nat)
    requires TakenInOrder(s) && TakenInOrder(a) && PriorityOk(s) && Numbered(s) && Typed(a.q)
    requires LaneOk(a, true) && LaneOk(a, false) && !a.q.closed && Later(a, s) && Later(b, s) && b.taken == a.taken
    requires p < |s.taken| && q < |s.taken| && s.taken[q].id < s.taken[p].id
    requires |a.accepted| == s.taken[p].id < |b.accepted|
    requires s.taken[p] in s.accepted && s.taken[q] in a.accepted
    ensures p < q <==> s.taken[p].control && !s.taken[q].control && s.taken[q] in a.q.data
  {
    var w, g := s.taken[p], s.taken[q];
    TakenOrQueued(a, g);
    if g in a.taken {
      AlreadyTaken(s, a, p, q);
    } else {
      BehindPrefix(s, a.taken, q);
      assert w !in a.taken;
      BehindPrefix(s, a.taken, p);
      NotYetTaken(s, p, q);
    }
  }

  lemma {:induction false} WrittenWereAccepted(s: State, i: nat)
    requires Counted(s) && i < |s.wire|
    ensures s.wire[i].id < |s.accepted| && s.accepted[s.wire[i].id] == s.wire[i]
  {
    var f := s.wire[i];
    assert f in multiset(s.wire);
    assert f in multiset(s.accepted);
    assert f in s.accepted;
  }

  /**
   Of two frames that reach the wire, g sent before w, w goes out first iff w is a
   Control frame and g was still in the Data lane when w was accepted.
   */
  lemma {:induction false} OvertakesIff(es: seq<Event>, k: nat, p: nat, q: nat)
    requires var s := Run(es); p < |s.wire| && q < |s.wire| && s.wire[q].id < s.wire[p].id
    requires AcceptedAt(es, k, Run(es).wire[p])
    ensures var s := Run(es);
            p < q <==> s.wire[p].control && !s.wire[q].control && s.wire[q] in Run(es[..k]).q.data
  {
    var s := Run(es);
    RunLanes(es);
    RunCounted(es);
    RunLater(es, k);
    WrittenWereAccepted(s, p);
    WrittenWereAccepted(s, q);
    assert s.wire <= s.taken;
    assert s.taken[p] == s.wire[p] && s.taken[q] == s.wire[q];
    var a, b := Run(es[..k]), Run(es[..k + 1]);
    assert a.accepted[s.wire[q].id] == s.wire[q];
    AtAcceptance(es, k, s.wire[p]);
    RunLater(es, k + 1);
    RunLanes(es[..k]);
    RunTakesInOrder(es[..k]);
    RunTakesInOrder(es);
    TakenFirstIff(s, a, b, p, q);
  }

  /**
   The frames of one caller reach the wire in the order it sent them, except that
   a Control frame overtakes an earlier Data frame exactly when that one is still
   in its lane; and only a caller that stopped waiting for it sends in that moment.
   */
  lemma {:induction false} CallersSeeTheirOrder(es: seq<Event>, k: nat, p: nat, q: nat)
    requires var s := Run(es); p < |s.wire| && q < |s.wire| && s.wire[q].id < s.wire[p].id
    requires Run(es).wire[p].caller == Run(es).wire[q].caller && AcceptedAt(es, k, Run(es).wire[p])
    ensures var s := Run(es);
            (p < q <==> s.wire[p].control && !s.wire[q].control && s.wire[q] in Run(es[..k]).q.data) &&
            (p < q ==> s.wire[q].id in s.gaveUp)
  {
    OvertakesIff(es, k, p, q);
    RunCallers(es);
    var s := Run(es);
    assert Out(s)[p] == s.wire[p] && Out(s)[q] == s.wire[q];
    if p < q {
      assert Fine(s, Out(s)[p], Out(s)[q]);
    }
  }

  // ------------------------------------------------------- nobody waits for ever

  /** The frame a caller waits for is queued or in the writer's hand. */
  ghost predicate WaiterOk(s: State, c: nat)
    requires c in s.waiting
  {
    exists f :: (Queued(s, f) || f in Held(s)) && f.id == s.waiting[c] && f.caller == c
  }

  ghost predicate WaitersOk(s: State) {
    forall c | c in s.waiting :: WaiterOk(s, c)
  }

  lemma {:induction false} NextKeepsWaiter(s: State, e: Event, c: nat)
    requires WaitersOk(s) && c in Next(s, e).waiting
    ensures WaiterOk(Next(s, e), c)
  {
    var n := Next(s, e);
    if c in s.waiting && n.waiting[c] == s.waiting[c] {
      assert WaiterOk(s, c);
      var f :| (Queued(s, f) || f in Held(s)) && f.id == s.waiting[c] && f.caller == c;
      assert Queued(n, f) || f in Held(n);
    } else {
      var f := Frame(|s.accepted|, e.control, e.caller);
      assert Queued(n, f);
    }
  }

  lemma {:induction false} RunKeepsWaiters(es: seq<Event>)
    ensures WaitersOk(Run(es))
    decreases |es|
  {
    if es != [] {
      var s, e := Run(es[..|es| - 1]), es[|es| - 1];
      RunKeepsWaiters(es[..|es| - 1]);
      forall c | c in Next(s, e).waiting ensures WaiterOk(Next(s, e), c) {
        NextKeepsWaiter(s, e, c);
      }
    }
  }

  /** Once the queue is closed and the writer holds nothing, no caller waits. */
  lemma {:induction false} NobodyWaitsForEver(es: seq<Event>)
    requires Run(es).q.closed && Run(es).inflight.None?
    ensures Run(es).waiting == map[]
  {
    RunKeepsWaiters(es);
    ClosedIsEmpty(es);
    var s := Run(es);
    assert forall c | c in s.waiting :: WaiterOk(s, c);
  }

  lemma {:induction false} RunSnoc(es: seq<Event>, e: Event)
    ensures Run(es + [e]) == Next(Run(es), e)
  {
    assert (es + [e])[..|es|] == es;
  }

  /** Both lanes hold a frame of the caller, the Data frame first, and the writer is free. */
  lemma {:induction false} BothLanesFilled(caller: nat) returns (es: seq<Event>)
    ensures var s := Run(es);
            s.q == Queue([Frame(1, true, caller)], [Frame(0, false, caller)], false) && s.wire == [] &&
            s.inflight.None? && !s.gone
  {
    es := [];
    RunSnoc(es, Send(false, caller));
    es := es + [Send(false, caller)];
    RunSnoc(es, GiveUp(caller));
    es := es + [GiveUp(caller)];
    RunSnoc(es, Send(true, caller));
    es := es + [Send(true, caller)];
  }

  lemma {:induction false} WriteOne(s: State)
    requires !s.gone && s.inflight.None? && Head(s.q).Got?
    ensures var n := Next(Next(s, WriterTake), WriterDone(true));
            n.q == Dequeue(s.q) && n.wire == s.wire + [Head(s.q).frame] && !n.gone && n.inflight.None?
  {
  }

  /** And it does: a caller that stops waiting for a Data frame can see its next Control frame go first. */
  lemma {:induction false} GivingUpCanReorder(caller: nat) returns (es: seq<Event>)
    ensures Run(es).wire == [Frame(1, true, caller), Frame(0, false, caller)]
  {
    es := BothLanesFilled(caller);
    for i := 0 to 2
      invariant var s := Run(es); !s.gone && s.inflight.None?
      invariant Run(es).q == Queue(if i == 0 then [Frame(1, true, caller)] else [],
                                   if i < 2 then [Frame(0, false, caller)] else [], false)
      invariant Run(es).wire == [Frame(1, true, caller), Frame(0, false, caller)][..i]
    {
      WriteOne(Run(es));
      RunSnoc(es, WriterTake);
      RunSnoc(es + [WriterTake], WriterDone(true));
      es := es + [WriterTake] + [WriterDone(true)];
    }
  }
}

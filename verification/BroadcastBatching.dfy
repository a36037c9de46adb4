/**
 Broadcast batching for one channel (internal/runtime/broadcast_batcher.go): a
 bounded accumulator filled by the channel's one delivery worker and emptied by
 one flusher, with an oversize bypass.

 Every lock region is a step. A broadcast is two steps, so that the worker and
 the flusher interleave while a batch is in flight.
 */
module BroadcastBatching {
  /** Offset 0 marks a transient publication, outside the logged stream. */
  datatype Pub = Pub(offset: nat, payload: string)

  datatype Settings = Settings(maxMessages: nat, maxBatchBytes: nat, maxMessageSize: nat)

  /** What configuration validation guarantees, the frame budget included (internal/config/config.go). */
  predicate ValidSettings(cfg: Settings) {
    cfg.maxMessages >= 2 && cfg.maxBatchBytes >= 1024 && 2 * cfg.maxBatchBytes <= cfg.maxMessageSize
  }

  datatype Acc = Acc(buf: seq<Pub>, bytes: nat, inFlight: nat, closed: bool)

  const EMPTY_ACC := Acc([], 0, 0, false)

  function TotalBytes(pubs: seq<Pub>): nat {
    if pubs == [] then 0 else TotalBytes(pubs[..|pubs| - 1]) + |pubs[|pubs| - 1].payload|
  }

  /** The buffer cannot take a payload of this size now. */
  predicate Full(cfg: Settings, acc: Acc, size: nat) {
    |acc.buf| >= cfg.maxMessages || acc.bytes + size > cfg.maxBatchBytes
  }

  function Push(acc: Acc, pub: Pub): Acc {
    acc.(buf := acc.buf + [pub], bytes := acc.bytes + |pub.payload|)
  }

  function SwapOut(acc: Acc): Acc {
    if acc.buf == [] then acc else acc.(buf := [], bytes := 0, inFlight := acc.inFlight + 1)
  }

  function Settle(acc: Acc): Acc {
    acc.(inFlight := if acc.inFlight > 0 then acc.inFlight - 1 else 0)
  }

  predicate Bounded(cfg: Settings, acc: Acc) {
    |acc.buf| <= cfg.maxMessages && acc.bytes == TotalBytes(acc.buf) <= cfg.maxBatchBytes
  }

  /** The oversize bypass need not wait any longer. */
  predicate Drains(acc: Acc) {
    (acc.buf == [] && acc.inFlight == 0) || acc.closed
  }

  /** What one pass of the append loop found. */
  datatype Attempt = MustWait | FellThrough | Buffered(signal: bool)

  class ChannelAccumulator {
    const cfg: Settings
    var buf: seq<Pub>
    var bytes: nat
    var inFlight: nat
    var closed: bool

    ghost function View(): Acc
      reads this
    {
      Acc(buf, bytes, inFlight, closed)
    }

    ghost predicate Valid()
      reads this
    {
      ValidSettings(cfg) && Bounded(cfg, View())
    }

    constructor (cfg: Settings)
      requires ValidSettings(cfg)
      ensures Valid() && this.cfg == cfg && View() == EMPTY_ACC
    {
      this.cfg, buf, bytes, inFlight, closed := cfg, [], 0, 0, false;
    }

    /** The locked region of append: wait at either cap, never drop, never exceed. */
    method TryAppend(pub: Pub) returns (r: Attempt)
      requires Valid()
      modifies this
      ensures Valid()
      ensures r.MustWait? <==>
              !old(closed) && (|old(buf)| == cfg.maxMessages ||
                               TotalBytes(old(buf)) + |pub.payload| > cfg.maxBatchBytes)
      ensures r.FellThrough? <==> old(closed)
      ensures View() == if r.Buffered? then Push(old(View()), pub) else old(View())
      ensures r.Buffered? ==>
                r.signal == (old(buf) == [] || |buf| == cfg.maxMessages || TotalBytes(buf) == cfg.maxBatchBytes)
    {
      var size := |pub.payload|;
      if !closed && (|buf| >= cfg.maxMessages || bytes + size > cfg.maxBatchBytes) {
        return MustWait;
      }
      if closed {
        return FellThrough;
      }
      var wasEmpty := |buf| == 0;
      buf := buf + [pub];
      bytes := bytes + size;
      assert buf[..|buf| - 1] == old(buf);
      var threshold := |buf| >= cfg.maxMessages || bytes >= cfg.maxBatchBytes;
      return Buffered(wasEmpty || threshold);
    }

    /** The first locked region of flush; an empty batch means there was nothing to do. */
    method BeginFlush() returns (batch: seq<Pub>)
      requires Valid()
      modifies this
      ensures Valid()
      ensures batch == old(buf) && View() == SwapOut(old(View()))
      ensures |batch| <= cfg.maxMessages && 2 * TotalBytes(batch) <= cfg.maxMessageSize
    {
      batch := buf;
      if |buf| == 0 {
        return;
      }
      buf := [];
      bytes := 0;
      inFlight := inFlight + 1;
    }

    /** The second locked region of flush. */
    method EndFlush()
      requires Valid() && inFlight > 0
      modifies this
      ensures Valid() && View() == Settle(old(View()))
    {
      inFlight := inFlight - 1;
    }

    /** flush without interference: one batch, broadcast between the two locked regions. */
    method Flush() returns (batch: seq<Pub>)
      requires Valid()
      modifies this
      ensures Valid() && batch == old(buf)
      ensures View() == old(View()).(buf := [], bytes := 0)
    {
      batch := BeginFlush();
      if |batch| > 0 {
        EndFlush();
      }
    }

    /** The wait condition of the oversize bypass. */
    method Drained() returns (drained: bool)
      requires Valid()
      ensures drained <==> Drains(View())
    {
      drained := !((|buf| > 0 || inFlight > 0) && !closed);
    }

    method Close()
      requires Valid()
      modifies this`closed
      ensures Valid() && View() == old(View()).(closed := true)
    {
      closed := true;
    }
  }

  // ------------------------------------------------------- worker and flusher

  /** Leaving: it found no accumulator, or the one it got has been closed and unregistered since. */
  datatype Worker = Idle | Appending(pub: Pub) | Draining(pub: Pub) | Leaving(pub: Pub)

  /** Absent: the channel has no accumulator. Exited: closed, but not yet unregistered. */
  datatype Flusher = Absent | Waiting | Broadcasting(batch: seq<Pub>) | Reaping | Exited

  /**
   acc and flusher are the registered accumulator's. wire is what the hub has
   broadcast; accepted and stranded are history: every logged publication handed
   to Deliver, and what was left in accumulators that were unregistered.
   */
  datatype State = State(acc: Acc, worker: Worker, flusher: Flusher, wire: seq<Pub>, accepted: seq<Pub>,
                         stranded: seq<Pub>)

  const INIT := State(EMPTY_ACC, Idle, Absent, [], [], [])

  /** batching tells whether the policy and the subscriber count select batching for this delivery. */
  datatype Event =
    | Deliver(pub: Pub, batching: bool)
    | WorkerStep
    | FlushBegin
    | FlushEnd
    | ReapCheck
    | ReapClose
    | ReapRemove

  function Next(cfg: Settings, s: State, e: Event): State {
    match e
    case Deliver(pub, batching) =>
      if !s.worker.Idle? then s else
      var s1 := if pub.offset == 0 then s else s.(accepted := s.accepted + [pub]);
      if pub.offset == 0 || !batching then s1.(wire := s.wire + [pub])
      else if |pub.payload| > cfg.maxBatchBytes then
        s1.(worker := if s.flusher.Absent? then Leaving(pub) else Draining(pub))
      else if s.flusher.Absent? then s1.(acc := EMPTY_ACC, flusher := Waiting, worker := Appending(pub))
      else s1.(worker := Appending(pub))
    case WorkerStep =>
      (match s.worker
       case Idle => s
       case Appending(pub) =>
         if !s.acc.closed && Full(cfg, s.acc, |pub.payload|) then s
         else if s.acc.closed then s.(worker := Idle, wire := s.wire + [pub])
         else s.(worker := Idle, acc := Push(s.acc, pub))
       case Draining(pub) => if !Drains(s.acc) then s else s.(worker := Idle, wire := s.wire + [pub])
       case Leaving(pub) => s.(worker := Idle, wire := s.wire + [pub]))
    case FlushBegin =>
      if !s.flusher.Waiting? || s.acc.buf == [] then s
      else s.(flusher := Broadcasting(s.acc.buf), acc := SwapOut(s.acc))
    case FlushEnd =>
      if !s.flusher.Broadcasting? then s
      else s.(flusher := Waiting, wire := s.wire + s.flusher.batch, acc := Settle(s.acc))
    case ReapCheck =>
      if s.flusher.Waiting? && s.acc.buf == [] then s.(flusher := Reaping) else s
    case ReapClose =>
      if s.flusher.Reaping? then s.(flusher := Exited, acc := s.acc.(closed := true)) else s
    case ReapRemove =>
      if !s.flusher.Exited? then s
      else State(EMPTY_ACC, if s.worker.Idle? then Idle else Leaving(s.worker.pub), Absent, s.wire, s.accepted,
                 s.stranded + s.acc.buf)
  }

  function Run(cfg: Settings, s: State, es: seq<Event>): State {
    if es == [] then s else Next(cfg, Run(cfg, s, es[..|es| - 1]), es[|es| - 1])
  }

  function Logged(pubs: seq<Pub>): seq<Pub> {
    if pubs == [] then [] else
    Logged(pubs[..|pubs| - 1]) + if pubs[|pubs| - 1].offset > 0 then [pubs[|pubs| - 1]] else []
  }

  function InFlight(s: State): seq<Pub> {
    if s.flusher.Broadcasting? then s.flusher.batch else []
  }

  /** The buffer, while there is a flusher to empty it. */
  function Live(s: State): seq<Pub> {
    if s.acc.closed then [] else s.acc.buf
  }

  function Pending(s: State): seq<Pub> {
    if s.worker.Idle? then [] else [s.worker.pub]
  }

  /** What lies in closed accumulators. */
  function Stranded(s: State): seq<Pub> {
    s.stranded + if s.acc.closed then s.acc.buf else []
  }

  /** The logged publications on their way to the wire, oldest first. */
  function Held(s: State): seq<Pub> {
    InFlight(s) + Live(s) + Pending(s)
  }

  predicate AllLogged(pubs: seq<Pub>) {
    forall i | 0 <= i < |pubs| :: pubs[i].offset > 0
  }

  // -------------------------------------------------------------- invariants

  /** Structure and bounds, in every reachable state. */
  predicate Inv(cfg: Settings, s: State) {
    Bounded(cfg, s.acc) && AllLogged(s.acc.buf) && AllLogged(InFlight(s)) && AllLogged(Pending(s)) &&
    s.acc.inFlight == (if s.flusher.Broadcasting? then 1 else 0) &&
    (s.flusher.Broadcasting? ==>
       s.flusher.batch != [] && |s.flusher.batch| <= cfg.maxMessages &&
       TotalBytes(s.flusher.batch) <= cfg.maxBatchBytes) &&
    (s.worker.Appending? ==> |s.worker.pub.payload| <= cfg.maxBatchBytes) &&
    (s.acc.closed <==> s.flusher.Exited?) && (s.flusher.Absent? ==> s.acc == EMPTY_ACC) &&
    (s.worker.Appending? || s.worker.Draining? ==> !s.flusher.Absent?) && (s.worker.Leaving? ==> s.flusher.Absent?)
  }

  lemma TotalBytesOfPush(pubs: seq<Pub>, pub: Pub)
    ensures TotalBytes(pubs + [pub]) == TotalBytes(pubs) + |pub.payload|
  {
    assert (pubs + [pub])[..|pubs|] == pubs;
  }

  lemma {:induction false} WorkerKeepsInv(cfg: Settings, s: State)
    requires Inv(cfg, s)
    ensures Inv(cfg, Next(cfg, s, WorkerStep))
  {
    if s.worker.Appending? {
      TotalBytesOfPush(s.acc.buf, s.worker.pub);
    }
  }

  lemma {:induction false} NextKeepsInv(cfg: Settings, s: State, e: Event)
    requires ValidSettings(cfg) && Inv(cfg, s)
    ensures Inv(cfg, Next(cfg, s, e))
  {
    if e.WorkerStep? {
      WorkerKeepsInv(cfg, s);
    }
  }

  lemma {:induction false} RunKeepsInv(cfg: Settings, es: seq<Event>)
    requires ValidSettings(cfg)
    ensures Inv(cfg, Run(cfg, INIT, es))
  {
    if es != [] {
      RunKeepsInv(cfg, es[..|es| - 1]);
      NextKeepsInv(cfg, Run(cfg, INIT, es[..|es| - 1]), es[|es| - 1]);
    }
  }

  lemma {:induction false} LoggedOfConcat(a: seq<Pub>, b: seq<Pub>)
    ensures Logged(a + b) == Logged(a) + Logged(b)
    decreases |b|
  {
    if b == [] {
      assert a + b == a;
    } else {
      assert (a + b)[..|a + b| - 1] == a + b[..|b| - 1];
      LoggedOfConcat(a, b[..|b| - 1]);
    }
  }

  lemma {:induction false} LoggedOfLogged(a: seq<Pub>)
    requires AllLogged(a)
    ensures Logged(a) == a
  {
    if a != [] {
      LoggedOfLogged(a[..|a| - 1]);
      assert a == a[..|a| - 1] + [a[|a| - 1]];
    }
  }

  // -------------------------------------------------- steps as moves of parts

  /** Where the accepted logged publications are. */
  datatype Parts = Parts(sent: seq<Pub>, flight: seq<Pub>, buf: seq<Pub>, pending: seq<Pub>, stranded: seq<Pub>,
                         accepted: seq<Pub>)

  function PartsOf(s: State): Parts {
    Parts(Logged(s.wire), InFlight(s), Live(s), Pending(s), Stranded(s), s.accepted)
  }

  /** How a step moves publications between the parts. */
  datatype Move = Stay | Take(pub: Pub) | Bypass(pub: Pub) | Buffer | Send | Lift | Land | Strand

  function Moved(p: Parts, m: Move): Parts {
    match m
    case Stay => p
    case Take(pub) => p.(pending := [pub], accepted := p.accepted + [pub])
    case Bypass(pub) => p.(sent := p.sent + [pub], accepted := p.accepted + [pub])
    case Buffer => p.(buf := p.buf + p.pending, pending := [])
    case Send => p.(sent := p.sent + p.pending, pending := [])
    case Lift => p.(flight := p.buf, buf := [])
    case Land => p.(sent := p.sent + p.flight, flight := [])
    case Strand => p.(stranded := p.stranded + p.buf, buf := [])
  }

  function MoveOf(cfg: Settings, s: State, e: Event): Move {
    match e
    case Deliver(pub, batching) =>
      if !s.worker.Idle? || pub.offset == 0 then Stay else if batching then Take(pub) else Bypass(pub)
    case WorkerStep =>
      if Next(cfg, s, e) == s then Stay
      else if s.worker.Appending? && !s.acc.closed then Buffer else Send
    case FlushBegin => if s.flusher.Waiting? && s.acc.buf != [] then Lift else Stay
    case FlushEnd => if s.flusher.Broadcasting? then Land else Stay
    case ReapClose => if s.flusher.Reaping? then Strand else Stay
    case _ => Stay
  }

  /** The worker holds one publication at a time, sends it only past an empty channel, and one batch is in flight. */
  predicate Ready(p: Parts, m: Move) {
    (m.Take? || m.Bypass? ==> p.pending == []) && (m.Lift? ==> p.flight == []) &&
    (m.Send? ==> p.flight == [] && p.buf == [])
  }

  lemma {:induction false} LoggedOfSent(wire: seq<Pub>, added: seq<Pub>)
    requires AllLogged(added)
    ensures Logged(wire + added) == Logged(wire) + added
  {
    LoggedOfConcat(wire, added);
    LoggedOfLogged(added);
  }

  lemma {:induction false} LoggedOfTransient(wire: seq<Pub>, pub: Pub)
    requires pub.offset == 0
    ensures Logged(wire + [pub]) == Logged(wire)
  {
    assert (wire + [pub])[..|wire|] == wire;
  }

  /** The step e makes its move. */
  predicate MovesAs(cfg: Settings, s: State, e: Event) {
    PartsOf(Next(cfg, s, e)) == Moved(PartsOf(s), MoveOf(cfg, s, e)) && Ready(PartsOf(s), MoveOf(cfg, s, e))
  }

  lemma {:induction false} DeliverMoves(cfg: Settings, s: State, pub: Pub, batching: bool)
    requires Inv(cfg, s)
    ensures MovesAs(cfg, s, Deliver(pub, batching))
  {
    var n := Next(cfg, s, Deliver(pub, batching));
    if s.worker.Idle? {
      if pub.offset == 0 {
        LoggedOfTransient(s.wire, pub);
        assert PartsOf(n) == PartsOf(s);
      } else if !batching {
        LoggedOfSent(s.wire, [pub]);
        assert n.wire == s.wire + [pub];
      } else {
        assert n.wire == s.wire;
      }
    }
  }

  /** The worker sends what it holds past everything else. */
  lemma {:induction false} SendIsAMove(s: State)
    requires !s.worker.Idle? && s.worker.pub.offset > 0
    ensures PartsOf(s.(worker := Idle, wire := s.wire + [s.worker.pub])) == Moved(PartsOf(s), Send)
  {
    LoggedOfSent(s.wire, [s.worker.pub]);
  }

  lemma {:induction false} AppendMoves(cfg: Settings, s: State)
    requires Inv(cfg, s) && s.worker.Appending?
    ensures MovesAs(cfg, s, WorkerStep)
  {
    var n := Next(cfg, s, WorkerStep);
    assert s.worker.pub == Pending(s)[0];
    if s.acc.closed {
      SendIsAMove(s);
    } else if n != s {
      assert n.acc.buf == s.acc.buf + Pending(s) && n.wire == s.wire;
    }
  }

  lemma {:induction false} DrainMoves(cfg: Settings, s: State)
    requires Inv(cfg, s) && s.worker.Draining?
    ensures MovesAs(cfg, s, WorkerStep)
  {
    assert s.worker.pub == Pending(s)[0];
    if Drains(s.acc) {
      SendIsAMove(s);
    }
  }

  lemma {:induction false} LeaveMoves(cfg: Settings, s: State)
    requires Inv(cfg, s) && s.worker.Leaving?
    ensures MovesAs(cfg, s, WorkerStep)
  {
    assert s.worker.pub == Pending(s)[0];
    SendIsAMove(s);
  }

  lemma {:induction false} WorkerMoves(cfg: Settings, s: State)
    requires Inv(cfg, s)
    ensures MovesAs(cfg, s, WorkerStep)
  {
    match s.worker
    case Idle =>
    case Appending(_) => AppendMoves(cfg, s);
    case Draining(_) => DrainMoves(cfg, s);
    case Leaving(_) => LeaveMoves(cfg, s);
  }

  lemma {:induction false} FlushBeginMoves(cfg: Settings, s: State)
    requires Inv(cfg, s)
    ensures MovesAs(cfg, s, FlushBegin)
  {
    if s.flusher.Waiting? && s.acc.buf != [] {
      assert Next(cfg, s, FlushBegin).wire == s.wire;
    }
  }

  lemma {:induction false} FlushEndMoves(cfg: Settings, s: State)
    requires Inv(cfg, s)
    ensures MovesAs(cfg, s, FlushEnd)
  {
    if s.flusher.Broadcasting? {
      LoggedOfSent(s.wire, s.flusher.batch);
      assert Next(cfg, s, FlushEnd).wire == s.wire + s.flusher.batch;
    }
  }

  lemma {:induction false} ReapMoves(cfg: Settings, s: State, e: Event)
    requires Inv(cfg, s) && (e.ReapCheck? || e.ReapClose? || e.ReapRemove?)
    ensures MovesAs(cfg, s, e)
  {
    if e.ReapRemove? && s.flusher.Exited? {
      assert Pending(Next(cfg, s, e)) == Pending(s);
    }
  }

  /** Every step is one of the moves, made only when its source or target is empty as it needs. */
  lemma {:induction false} StepMoves(cfg: Settings, s: State, e: Event)
    requires Inv(cfg, s)
    ensures MovesAs(cfg, s, e)
  {
    match e
    case Deliver(pub, batching) => DeliverMoves(cfg, s, pub, batching);
    case WorkerStep => WorkerMoves(cfg, s);
    case FlushBegin => FlushBeginMoves(cfg, s);
    case FlushEnd => FlushEndMoves(cfg, s);
    case _ => ReapMoves(cfg, s, e);
  }

  // ------------------------------------------------------------ conservation

  /** Each accepted logged publication is on the wire, held or stranded, exactly as often as accepted. */
  predicate ConservedParts(p: Parts) {
    multiset(p.sent) + multiset(p.flight) + multiset(p.buf) + multiset(p.pending) + multiset(p.stranded) ==
    multiset(p.accepted)
  }

  lemma {:induction false} MoveConserves(p: Parts, m: Move)
    requires ConservedParts(p) && Ready(p, m)
    ensures ConservedParts(Moved(p, m))
  {}

  /**
   Nothing is dropped or duplicated in any run, whatever switches batching on or
   off, across any number of reaps and fresh accumulators.
   */
  lemma {:induction false} NothingLostOrRepeated(cfg: Settings, es: seq<Event>)
    requires ValidSettings(cfg)
    ensures ConservedParts(PartsOf(Run(cfg, INIT, es)))
  {
    if es != [] {
      var s := Run(cfg, INIT, es[..|es| - 1]);
      RunKeepsInv(cfg, es[..|es| - 1]);
      NothingLostOrRepeated(cfg, es[..|es| - 1]);
      StepMoves(cfg, s, es[|es| - 1]);
      MoveConserves(PartsOf(s), MoveOf(cfg, s, es[|es| - 1]));
    }
  }

  // ------------------------------------------------------------------- order

  function Stream(p: Parts): seq<Pub> {
    p.sent + (p.flight + p.buf + p.pending)
  }

  predicate Ordered(p: Parts) {
    Stream(p) == p.accepted
  }

  /** Wire, flight, buffer and the worker's hands, end to end, are the accepted stream. */
  predicate InOrder(s: State) {
    Logged(s.wire) + Held(s) == s.accepted
  }

  predicate SteadyMove(p: Parts, m: Move) {
    (m.Bypass? ==> p.flight == [] && p.buf == []) && (m.Strand? ==> p.buf == [])
  }

  /** No unbatched delivery overtakes what the channel holds, and no accumulator is closed with a full buffer. */
  predicate Steady(s: State, e: Event) {
    (e.Deliver? && s.worker.Idle? && e.pub.offset > 0 && !e.batching ==> InFlight(s) == [] && Live(s) == []) &&
    (e.ReapClose? && s.flusher.Reaping? ==> s.acc.buf == [])
  }

  lemma {:induction false} SteadyIsSteady(cfg: Settings, s: State, e: Event)
    requires Inv(cfg, s)
    ensures Steady(s, e) <==> SteadyMove(PartsOf(s), MoveOf(cfg, s, e))
  {
    match e
    case Deliver(_, _) =>
    case ReapClose =>
    case _ =>
  }

  lemma {:induction false} Grow(p: Parts, pub: Pub)
    requires p.pending == []
    ensures Stream(Moved(p, Take(pub))) == Stream(p) + [pub]
    ensures Stream(Moved(p, Bypass(pub))) == p.sent + [pub] + (p.flight + p.buf)
    ensures Stream(p) == p.sent + (p.flight + p.buf)
  {
    assert p.flight + p.buf + p.pending == p.flight + p.buf;
  }

  lemma {:induction false} Shift(p: Parts, m: Move)
    requires m.Buffer? || m.Send? || m.Lift? || m.Land? || (m.Strand? && p.buf == [])
    requires Ready(p, m)
    ensures Stream(Moved(p, m)) == Stream(p)
  {
    match m
    case Buffer => assert p.flight + (p.buf + p.pending) + [] == p.flight + p.buf + p.pending;
    case Send => assert p.sent + p.pending + ([] + [] + []) == p.sent + ([] + [] + p.pending);
    case Lift => assert p.buf + [] + p.pending == [] + p.buf + p.pending;
    case Land => assert p.sent + p.flight + ([] + p.buf + p.pending) == p.sent + (p.flight + p.buf + p.pending);
    case Strand =>
  }

  lemma {:induction false} OrderedMove(p: Parts, m: Move)
    requires Ordered(p) && Ready(p, m) && SteadyMove(p, m)
    ensures Ordered(Moved(p, m))
  {
    match m
    case Stay =>
    case Take(pub) => Grow(p, pub);
    case Bypass(pub) => Grow(p, pub);
    case _ => Shift(p, m);
  }

  lemma {:induction false} OrderStep(cfg: Settings, s: State, e: Event)
    requires Inv(cfg, s) && InOrder(s) && Steady(s, e)
    ensures InOrder(Next(cfg, s, e))
  {
    StepMoves(cfg, s, e);
    SteadyIsSteady(cfg, s, e);
    OrderedMove(PartsOf(s), MoveOf(cfg, s, e));
  }

  /** Every step of the run was steady. */
  predicate SteadyRun(cfg: Settings, es: seq<Event>) {
    es == [] ||
    (SteadyRun(cfg, es[..|es| - 1]) && Steady(Run(cfg, INIT, es[..|es| - 1]), es[|es| - 1]))
  }

  /**
   While batching stays on for the channel, in every interleaving of worker and
   flusher, the logged publications leave in the order they were accepted, each
   once, oversize ones included.
   */
  lemma {:induction false} OrderKept(cfg: Settings, es: seq<Event>)
    requires ValidSettings(cfg) && SteadyRun(cfg, es)
    ensures InOrder(Run(cfg, INIT, es))
    decreases |es|
  {
    if es != [] {
      var init := es[..|es| - 1];
      OrderKept(cfg, init);
      RunKeepsInv(cfg, init);
      OrderStep(cfg, Run(cfg, INIT, init), es[|es| - 1]);
    }
  }

  predicate AllBatched(es: seq<Event>) {
    forall i | 0 <= i < |es| :: (es[i].Deliver? ==> es[i].batching) && !es[i].ReapClose?
  }

  /** Plain case: batching on for every delivery and no reap. */
  lemma {:induction false} BatchedRunsAreSteady(cfg: Settings, es: seq<Event>)
    requires AllBatched(es)
    ensures SteadyRun(cfg, es)
    decreases |es|
  {
    if es != [] {
      BatchedRunsAreSteady(cfg, es[..|es| - 1]);
    }
  }

  predicate Increasing(pubs: seq<Pub>) {
    forall i, j | 0 <= i < j < |pubs| :: pubs[i].offset < pubs[j].offset
  }

  /** Moving a publication ahead of others puts it out of place. */
  lemma {:induction false} SqueezedIn(w: seq<Pub>, h: seq<Pub>, pub: Pub, all: seq<Pub>)
    requires Increasing(all + [pub]) && (forall i | 0 <= i < |h| :: h[i] in all)
    ensures w + [pub] + h == all + [pub] <==> h == [] && w == all
  {
    if h != [] {
      var x := h[|h| - 1];
      var k :| 0 <= k < |all| && all[k] == x;
      assert (all + [pub])[k].offset < (all + [pub])[|all|].offset;
      assert (w + [pub] + h)[|w| + |h|] == x && x != (all + [pub])[|all|];
    } else {
      assert w + [pub] + h == w + [pub] && (w + [pub])[..|w|] == w && (all + [pub])[..|all|] == all;
    }
  }

  lemma {:induction false} HeldIsAccepted(p: Parts, h: seq<Pub>)
    requires ConservedParts(p) && h == p.flight + p.buf
    ensures forall i | 0 <= i < |h| :: h[i] in p.accepted
    ensures |Stream(p)| + |p.stranded| == |p.accepted|
  {
    forall i | 0 <= i < |h| ensures h[i] in p.accepted {
      assert h[i] in multiset(p.flight) || h[i] in multiset(p.buf);
      assert h[i] in multiset(p.accepted);
    }
    assert |multiset(p.accepted)| == |p.accepted|;
  }

  /** Exactly the steady moves keep the order, and nothing brings it back. */
  lemma {:induction false} OrderedMoveIff(p: Parts, m: Move)
    requires ConservedParts(p) && Ready(p, m) && Increasing(Moved(p, m).accepted)
    ensures Ordered(Moved(p, m)) <==> Ordered(p) && SteadyMove(p, m)
  {
    match m
    case Stay =>
    case Take(pub) =>
      Grow(p, pub);
      assert (Stream(p) + [pub])[..|Stream(p)|] == Stream(p) && (p.accepted + [pub])[..|p.accepted|] == p.accepted;
    case Bypass(pub) =>
      Grow(p, pub);
      HeldIsAccepted(p, p.flight + p.buf);
      SqueezedIn(p.sent, p.flight + p.buf, pub, p.accepted);
      assert p.flight + p.buf == [] ==> p.flight == [] && p.buf == [] && Stream(p) == p.sent;
    case Strand =>
      if p.buf == [] {
        Shift(p, m);
      } else {
        HeldIsAccepted(p, p.flight + p.buf);
      }
    case _ => Shift(p, m);
  }

  lemma {:induction false} OrderStepIff(cfg: Settings, s: State, e: Event)
    requires Inv(cfg, s) && ConservedParts(PartsOf(s)) && Increasing(Next(cfg, s, e).accepted)
    ensures InOrder(Next(cfg, s, e)) <==> InOrder(s) && Steady(s, e)
  {
    StepMoves(cfg, s, e);
    SteadyIsSteady(cfg, s, e);
    OrderedMoveIff(PartsOf(s), MoveOf(cfg, s, e));
  }

  lemma {:induction false} AcceptedGrows(cfg: Settings, es: seq<Event>, i: nat)
    requires i <= |es|
    ensures Run(cfg, INIT, es[..i]).accepted <= Run(cfg, INIT, es).accepted
    decreases |es|
  {
    if i == |es| {
      assert es[..i] == es;
    } else {
      AcceptedGrows(cfg, es[..|es| - 1], i);
      assert es[..|es| - 1][..i] == es[..i];
    }
  }

  /**
   The side condition is exact. When offsets are accepted in increasing order,
   the stream of a run is in order at its end iff every one of its steps was
   steady: one overtaking delivery, or one buffer closed with something in it,
   and it never is again.
   */
  lemma {:induction false} OrderKeptIff(cfg: Settings, es: seq<Event>)
    requires ValidSettings(cfg) && Increasing(Run(cfg, INIT, es).accepted)
    ensures InOrder(Run(cfg, INIT, es)) <==> SteadyRun(cfg, es)
    decreases |es|
  {
    if es != [] {
      var init := es[..|es| - 1];
      AcceptedGrows(cfg, es, |init|);
      OrderKeptIff(cfg, init);
      RunKeepsInv(cfg, init);
      NothingLostOrRepeated(cfg, init);
      OrderStepIff(cfg, Run(cfg, INIT, init), es[|init|]);
    }
  }

  /** One event more. */
  lemma {:induction false} Then(cfg: Settings, es: seq<Event>, e: Event, n: State) returns (more: seq<Event>)
    requires Next(cfg, Run(cfg, INIT, es), e) == n
    ensures more == es + [e] && Run(cfg, INIT, more) == n
  {
    more := es + [e];
    assert more[..|es|] == es;
  }

  /** The first publication of a channel, buffered in a new accumulator. */
  lemma {:induction false} FirstBuffered(cfg: Settings, a: Pub) returns (es: seq<Event>)
    requires ValidSettings(cfg) && a.offset > 0 && |a.payload| <= cfg.maxBatchBytes
    ensures es == [Deliver(a, true), WorkerStep]
    ensures Run(cfg, INIT, es) == State(Acc([a], |a.payload|, 0, false), Idle, Waiting, [], [a], [])
  {
    es := Then(cfg, [], Deliver(a, true), State(EMPTY_ACC, Appending(a), Waiting, [], [a], []));
    es := Then(cfg, es, WorkerStep, State(Acc([a], |a.payload|, 0, false), Idle, Waiting, [], [a], []));
  }

  /** A run in which the subscriber count drops between two publications, and the second goes out first. */
  lemma {:induction false} DroppingBelowThresholdReorders(cfg: Settings, a: Pub, b: Pub)
    requires ValidSettings(cfg) && 0 < a.offset < b.offset && |a.payload| <= cfg.maxBatchBytes
    ensures var s := Run(cfg, INIT, [Deliver(a, true), WorkerStep, Deliver(b, false)]);
            s.accepted == [a, b] && s.wire == [b] && s.acc.buf == [a]
  {
    var es := FirstBuffered(cfg, a);
    es := Then(cfg, es, Deliver(b, false), State(Acc([a], |a.payload|, 0, false), Idle, Waiting, [b], [a, b], []));
    assert es == [Deliver(a, true), WorkerStep, Deliver(b, false)];
  }

  // ------------------------------------------------------------- liveness

  /** The worker waits inside append or inside the drain of the oversize bypass. */
  predicate Blocked(cfg: Settings, s: State) {
    !s.worker.Idle? && Next(cfg, s, WorkerStep) == s
  }

  /**
   Backpressure is exact, in every run: a producer waits iff its publication would
   take the open buffer past one of the two caps; an oversize one waits iff the
   open accumulator still holds or broadcasts anything.
   */
  lemma {:induction false} WaitsIff(cfg: Settings, es: seq<Event>)
    requires ValidSettings(cfg)
    ensures var s := Run(cfg, INIT, es);
            Blocked(cfg, s) <==>
            match s.worker
            case Appending(pub) =>
              !s.acc.closed && (|s.acc.buf| == cfg.maxMessages ||
                                TotalBytes(s.acc.buf) + |pub.payload| > cfg.maxBatchBytes)
            case Draining(_) => !s.acc.closed && InFlight(s) + s.acc.buf != []
            case _ => false
  {
    RunKeepsInv(cfg, es);
  }

  /** How many flusher steps the worker can still have to wait for. */
  function Rank(s: State): nat {
    (if s.acc.buf != [] then 2 else 0) + (if s.flusher.Broadcasting? then 1 else 0) +
    (if s.flusher.Exited? then 0 else if s.flusher.Reaping? then 1 else 2)
  }

  /**
   A blocked worker always has an enabled flusher step, and whichever steps the
   scheduler takes, each one that does anything brings the worker closer: after
   at most five it is no longer blocked. Backpressure cannot deadlock.
   */
  lemma BackpressureEnds(cfg: Settings, s: State)
    requires ValidSettings(cfg) && Inv(cfg, s) && Blocked(cfg, s)
    ensures Rank(s) <= 5
    ensures exists e: Event :: (e.FlushBegin? || e.FlushEnd? || e.ReapClose?) && Next(cfg, s, e) != s
    ensures forall e: Event :: Next(cfg, s, e) == s || Rank(Next(cfg, s, e)) < Rank(s)
  {
    if s.flusher.Broadcasting? {
      assert Next(cfg, s, FlushEnd) != s;
    } else if s.flusher.Waiting? {
      assert s.acc.buf != [];
      assert Next(cfg, s, FlushBegin) != s;
    } else {
      assert s.flusher.Reaping?;
      assert Next(cfg, s, ReapClose) != s;
    }
  }

  // ----------------------------------------------------------------- reaping

  /** What a step strands: the buffer of an accumulator closed with something in it. */
  function Strands(s: State, e: Event): seq<Pub> {
    if e.ReapClose? && s.flusher.Reaping? then s.acc.buf else []
  }

  lemma {:induction false} StepStrands(cfg: Settings, s: State, e: Event)
    requires Inv(cfg, s)
    ensures Stranded(Next(cfg, s, e)) == Stranded(s) + Strands(s, e)
  {
    StepMoves(cfg, s, e);
  }

  /** What is stranded stays stranded: no step of any continuation takes it out again. */
  lemma {:induction false} StrandedForever(cfg: Settings, s: State, es: seq<Event>)
    requires ValidSettings(cfg) && Inv(cfg, s)
    ensures Inv(cfg, Run(cfg, s, es)) && Stranded(s) <= Stranded(Run(cfg, s, es))
  {
    if es != [] {
      StrandedForever(cfg, s, es[..|es| - 1]);
      StepStrands(cfg, Run(cfg, s, es[..|es| - 1]), es[|es| - 1]);
      NextKeepsInv(cfg, Run(cfg, s, es[..|es| - 1]), es[|es| - 1]);
    }
  }

  /** No reap of the run closed an accumulator with something in it. */
  predicate ReapsEmpty(cfg: Settings, es: seq<Event>) {
    es == [] ||
    (ReapsEmpty(cfg, es[..|es| - 1]) && Strands(Run(cfg, INIT, es[..|es| - 1]), es[|es| - 1]) == [])
  }

  /**
   A reap under way began with an idle check that found the buffer empty, so
   whatever the buffer holds now was put there after that check.
   */
  lemma {:induction false} ReapingSince(cfg: Settings, es: seq<Event>) returns (i: nat)
    requires Run(cfg, INIT, es).flusher.Reaping?
    ensures i < |es| && es[i].ReapCheck? && Run(cfg, INIT, es[..i]).acc.buf == []
    ensures forall j | i < j <= |es| :: Run(cfg, INIT, es[..j]).flusher.Reaping?
    decreases |es|
  {
    var n := |es| - 1;
    var init := es[..n];
    i := n;
    assert es[..n + 1] == es;
    if Run(cfg, INIT, init).flusher.Reaping? {
      i := ReapingSince(cfg, init);
      assert init[..i] == es[..i];
      forall j | i < j <= |es| ensures Run(cfg, INIT, es[..j]).flusher.Reaping? {
        assert j <= n ==> init[..j] == es[..j];
      }
    }
  }

  /**
   A run loses publications iff some reap closed an accumulator into which one
   was buffered after the flusher's idle check. Otherwise everything accepted is
   on the wire or on its way to it.
   */
  lemma {:induction false} ReapStrandsIffBuffered(cfg: Settings, es: seq<Event>)
    requires ValidSettings(cfg)
    ensures Stranded(Run(cfg, INIT, es)) == [] <==> ReapsEmpty(cfg, es)
    decreases |es|
  {
    if es != [] {
      var init := es[..|es| - 1];
      ReapStrandsIffBuffered(cfg, init);
      RunKeepsInv(cfg, init);
      StepStrands(cfg, Run(cfg, INIT, init), es[|init|]);
    }
  }

  lemma {:induction false} IdleCheckPassed(cfg: Settings, a: Pub) returns (es: seq<Event>)
    requires ValidSettings(cfg) && a.offset > 0 && |a.payload| <= cfg.maxBatchBytes
    ensures Run(cfg, INIT, es) == State(EMPTY_ACC, Idle, Reaping, [a], [a], [])
  {
    es := FirstBuffered(cfg, a);
    es := Then(cfg, es, FlushBegin, State(Acc([], 0, 1, false), Idle, Broadcasting([a]), [], [a], []));
    es := Then(cfg, es, FlushEnd, State(EMPTY_ACC, Idle, Waiting, [a], [a], []));
    es := Then(cfg, es, ReapCheck, State(EMPTY_ACC, Idle, Reaping, [a], [a], []));
  }

  /** Such a run: the idle timer fires, a publication is buffered, the reap completes. */
  lemma {:induction false} ReapRaceReachable(cfg: Settings, a: Pub, b: Pub) returns (es: seq<Event>)
    requires ValidSettings(cfg) && 0 < a.offset < b.offset
    requires |a.payload| <= cfg.maxBatchBytes && |b.payload| <= cfg.maxBatchBytes
    ensures var s := Run(cfg, INIT, es);
            s.accepted == [a, b] && s.wire == [a] && Held(s) == [] && Stranded(s) == [b] && s.flusher.Absent?
  {
    es := IdleCheckPassed(cfg, a);
    es := Then(cfg, es, Deliver(b, true), State(EMPTY_ACC, Appending(b), Reaping, [a], [a, b], []));
    es := Then(cfg, es, WorkerStep, State(Acc([b], |b.payload|, 0, false), Idle, Reaping, [a], [a, b], []));
    es := Then(cfg, es, ReapClose, State(Acc([b], |b.payload|, 0, true), Idle, Exited, [a], [a, b], []));
    es := Then(cfg, es, ReapRemove, State(EMPTY_ACC, Idle, Absent, [a], [a, b], [b]));
  }
}

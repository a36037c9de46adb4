/**
 Running a cluster command at most once: any number of deliveries of one command
 id race on a key of the shared store (pkg/redisbroker/cluster_command_bus.go).
 */
module CommandDedupe {
  import opened Options

  datatype Status = Pending | Succeeded | Failed | InProgress | Unknown

  /** What running the configured handler gives: nothing configured, an error, no result, or a result. */
  datatype Outcome = NoHandler | Errored | NilResult | Returned(status: Option<Status>)

  /** A result counts as a success when the handler leaves the status open, pending, or says so. */
  predicate Success(o: Outcome) {
    o.Returned? && (o.status.None? || o.status.value == Pending || o.status.value == Succeeded)
  }

  function Final(o: Outcome): (st: Status)
    ensures st != Pending && (st == Succeeded <==> Success(o))
  {
    if Success(o) then Succeeded else if o.Returned? then o.status.value else Failed
  }

  /** handleMessage's result record: it starts as a failure and the handler's result replaces it. */
  method CompleteResult(o: Outcome) returns (status: Status)
    ensures status == Final(o)
  {
    var open: Option<Status> := Some(Failed);
    if o != NoHandler {
      if o == Errored {
        open := Some(Failed);
      } else if o != NilResult {
        open := o.status;
      }
    }
    if open == None || open == Some(Pending) {
      open := Some(Succeeded);
    }
    status := open.value;
  }

  /** What a sender is told. */
  datatype Reply = DedupeFailed | StillRunning | UnknownFinalState | Result(status: Status)

  function ReplyFor(stored: Status): Reply {
    if stored == Pending then StillRunning else Result(stored)
  }

  /** Where one delivery is in handleMessage and claimCommandExecution. */
  datatype Phase = Start | Lost | Vanished | LostAgain | Claimed | Ran(status: Status) | Answered

  /**
   key is the command's entry in the store. runs, answers and expirations are
   histories: what claimed deliveries got, what was replied, how often the
   entry ran out.
   */
  datatype State = State(key: Option<Status>, deliveries: seq<Phase>, runs: seq<Outcome>, claims: nat,
                         answers: seq<Reply>, expirations: nat)

  datatype Event = Deliver | SetNX(d: nat, err: bool) | Load(d: nat, err: bool) | Handle(d: nat, outcome: Outcome)
                 | Store(d: nat, err: bool) | Expire | Resolve | TimeOut

  function Move(s: State, d: nat, p: Phase): State
    requires d < |s.deliveries|
  {
    s.(deliveries := s.deliveries[d := p])
  }

  function Tell(s: State, d: nat, r: Reply): State
    requires d < |s.deliveries|
  {
    Move(s, d, Answered).(answers := s.answers + [r])
  }

  function Next(s: State, e: Event): State {
    match e
    case Deliver => s.(deliveries := s.deliveries + [Start])
    case Expire => if s.key.None? then s else s.(key := None, expirations := s.expirations + 1)
    // A sender that finds the command known answers from the entry; otherwise it enqueues a delivery.
    case Resolve =>
      if s.key.None? then s.(deliveries := s.deliveries + [Start])
      else s.(answers := s.answers + [ReplyFor(s.key.value)])
    case TimeOut =>
      if s.key.Some? && s.key.value != Pending then s.(answers := s.answers + [Result(s.key.value)])
      else s.(answers := s.answers + [UnknownFinalState])
    case SetNX(d, err) =>
      if d >= |s.deliveries| || !(s.deliveries[d].Start? || s.deliveries[d].Vanished?) then s
      else if err then Tell(s, d, DedupeFailed)
      else if s.key.None? then Move(s, d, Claimed).(key := Some(Pending), claims := s.claims + 1)
      else Move(s, d, if s.deliveries[d].Start? then Lost else LostAgain)
    case Load(d, err) =>
      if d >= |s.deliveries| || !(s.deliveries[d].Lost? || s.deliveries[d].LostAgain?) then s
      else if err then Tell(s, d, DedupeFailed)
      else if s.key.Some? then Tell(s, d, ReplyFor(s.key.value))
      else if s.deliveries[d].Lost? then Move(s, d, Vanished)
      else Tell(s, d, StillRunning)
    case Handle(d, outcome) =>
      if d >= |s.deliveries| || !s.deliveries[d].Claimed? then s
      else Move(s, d, Ran(Final(outcome))).(runs := s.runs + [outcome])
    case Store(d, err) =>
      if d >= |s.deliveries| || !s.deliveries[d].Ran? then s
      else if err then Tell(s, d, UnknownFinalState)
      else Tell(s, d, Result(s.deliveries[d].status)).(key := Some(s.deliveries[d].status))
  }

  const INIT := State(None, [], [], 0, [], 0)

  function Run(es: seq<Event>): State {
    if es == [] then INIT else Next(Run(es[..|es| - 1]), es[|es| - 1])
  }

  // ----------------------------------------------------------- at most once

  function ClaimedCount(ps: seq<Phase>): nat {
    if ps == [] then 0 else ClaimedCount(ps[..|ps| - 1]) + if ps[|ps| - 1].Claimed? then 1 else 0
  }

  lemma {:induction false} ClaimedCountSet(ps: seq<Phase>, d: nat, p: Phase)
    requires d < |ps|
    ensures ClaimedCount(ps[d := p]) ==
            ClaimedCount(ps) + (if p.Claimed? then 1 else 0) - (if ps[d].Claimed? then 1 else 0)
    decreases |ps|
  {
    var n := |ps| - 1;
    if d == n {
      assert ps[d := p][..n] == ps[..n];
    } else {
      assert ps[d := p][..n] == ps[..n][d := p];
      ClaimedCountSet(ps[..n], d, p);
    }
  }

  /** Each claim has run or is about to, and each claim but the first took an expired entry. */
  predicate Bounded(s: State) {
    |s.runs| + ClaimedCount(s.deliveries) == s.claims &&
    s.claims <= s.expirations + if s.key.Some? then 1 else 0
  }

  function One(b: bool): nat {
    if b then 1 else 0
  }

  /** A step that moves one delivery and accounts for it, in claims and in runs. */
  lemma {:induction false} MoveKeepsBounded(s: State, n: State, d: nat, p: Phase)
    requires Bounded(s) && d < |s.deliveries| && n.deliveries == s.deliveries[d := p]
    requires |n.runs| + One(p.Claimed?) + s.claims == |s.runs| + One(s.deliveries[d].Claimed?) + n.claims
    requires n.claims + s.expirations + One(s.key.Some?) <= s.claims + n.expirations + One(n.key.Some?)
    ensures Bounded(n)
  {
    ClaimedCountSet(s.deliveries, d, p);
  }

  lemma {:induction false} ClaimKeepsBounded(s: State, d: nat, err: bool)
    requires Bounded(s) && d < |s.deliveries|
    ensures Bounded(Next(s, SetNX(d, err)))
  {
    var n := Next(s, SetNX(d, err));
    if n != s {
      MoveKeepsBounded(s, n, d, n.deliveries[d]);
    }
  }

  lemma {:induction false} LoadKeepsBounded(s: State, d: nat, err: bool)
    requires Bounded(s) && d < |s.deliveries|
    ensures Bounded(Next(s, Load(d, err)))
  {
    var n := Next(s, Load(d, err));
    if n != s {
      MoveKeepsBounded(s, n, d, n.deliveries[d]);
    }
  }

  lemma {:induction false} RunKeepsBounded(s: State, d: nat, e: Event)
    requires Bounded(s) && d < |s.deliveries| && (e.Handle? || e.Store?) && e.d == d
    ensures Bounded(Next(s, e))
  {
    var n := Next(s, e);
    if n != s {
      MoveKeepsBounded(s, n, d, n.deliveries[d]);
    }
  }

  lemma {:induction false} DeliveryKeepsBounded(s: State)
    requires Bounded(s)
    ensures Bounded(s.(deliveries := s.deliveries + [Start]))
  {
    assert (s.deliveries + [Start])[..|s.deliveries|] == s.deliveries;
  }

  lemma {:induction false} NextKeepsBounded(s: State, e: Event)
    requires Bounded(s)
    ensures Bounded(Next(s, e))
  {
    match e
    case Deliver => DeliveryKeepsBounded(s);
    case Resolve => DeliveryKeepsBounded(s);
    case Expire =>
    case TimeOut =>
    case SetNX(d, err) => if d < |s.deliveries| { ClaimKeepsBounded(s, d, err); }
    case Load(d, err) => if d < |s.deliveries| { LoadKeepsBounded(s, d, err); }
    case _ => if e.d < |s.deliveries| { RunKeepsBounded(s, e.d, e); }
  }

  lemma {:induction false} RunBounded(es: seq<Event>)
    ensures Bounded(Run(es))
    decreases |es|
  {
    if es != [] {
      RunBounded(es[..|es| - 1]);
      NextKeepsBounded(Run(es[..|es| - 1]), es[|es| - 1]);
    }
  }

  /** However many deliveries race, the handler runs at most once, and once more per expiry of the entry. */
  lemma {:induction false} RunsAreBounded(es: seq<Event>)
    ensures |Run(es).runs| <= 1 + Run(es).expirations
  {
    RunBounded(es);
  }

  lemma {:induction false} RunSnoc(es: seq<Event>, e: Event)
    ensures Run(es + [e]) == Next(Run(es), e)
  {
    assert (es + [e])[..|es|] == es;
  }

  /** The bound is met: every expiry lets the handler run again. */
  lemma {:induction false} BoundIsTight(k: nat, o: Outcome) returns (es: seq<Event>)
    ensures var s := Run(es);
            s.expirations == k && |s.runs| == k + 1 && s.key == Some(Pending) && |s.deliveries| == k + 1
    decreases k
  {
    if k == 0 {
      es := [];
    } else {
      var before := BoundIsTight(k - 1, o);
      RunSnoc(before, Expire);
      es := before + [Expire];
    }
    OneMoreRun(Run(es), k, o);
    RunSnoc(es, Deliver);
    RunSnoc(es + [Deliver], SetNX(k, false));
    RunSnoc(es + [Deliver] + [SetNX(k, false)], Handle(k, o));
    es := es + [Deliver] + [SetNX(k, false)] + [Handle(k, o)];
  }

  lemma {:induction false} OneMoreRun(s: State, k: nat, o: Outcome)
    requires |s.deliveries| == k && s.key.None?
    ensures var n := Next(Next(Next(s, Deliver), SetNX(k, false)), Handle(k, o));
            n.expirations == s.expirations && |n.runs| == |s.runs| + 1 && n.key == Some(Pending) &&
            |n.deliveries| == k + 1
  {
  }

  // ------------------------------------------------------ what replies mean

  /** Some run of the handler ended with this status. */
  predicate Happened(s: State, st: Status) {
    exists i | 0 <= i < |s.runs| :: Final(s.runs[i]) == st
  }

  predicate Honest(s: State) {
    (s.key.Some? && s.key.value != Pending ==> Happened(s, s.key.value)) &&
    (forall d | 0 <= d < |s.deliveries| && s.deliveries[d].Ran? :: Happened(s, s.deliveries[d].status)) &&
    (forall i | 0 <= i < |s.answers| && s.answers[i].Result? :: Happened(s, s.answers[i].status))
  }

  lemma {:induction false} HappenedLasts(s: State, e: Event, st: Status)
    requires Happened(s, st)
    ensures Happened(Next(s, e), st)
  {
    var i :| 0 <= i < |s.runs| && Final(s.runs[i]) == st;
    assert Next(s, e).runs[i] == s.runs[i];
  }

  lemma {:induction false} NextKeepsHonest(s: State, e: Event)
    requires Honest(s)
    ensures Honest(Next(s, e))
  {
    var n := Next(s, e);
    forall st | Happened(s, st) ensures Happened(n, st) { HappenedLasts(s, e, st); }
    if e.Handle? && n != s {
      assert n.runs[|s.runs|] == e.outcome;
      assert Happened(n, Final(e.outcome));
    }
  }

  lemma {:induction false} RunHonest(es: seq<Event>)
    ensures Honest(Run(es))
    decreases |es|
  {
    if es != [] {
      RunHonest(es[..|es| - 1]);
      NextKeepsHonest(Run(es[..|es| - 1]), es[|es| - 1]);
    }
  }

  /** A sender told that the command succeeded can rely on it: the handler ran and returned a success. */
  lemma {:induction false} SuccessIsReal(es: seq<Event>, i: nat)
    requires i < |Run(es).answers| && Run(es).answers[i] == Result(Succeeded)
    ensures exists k | 0 <= k < |Run(es).runs| :: Success(Run(es).runs[k])
  {
    RunHonest(es);
    var s := Run(es);
    var k :| 0 <= k < |s.runs| && Final(s.runs[k]) == Succeeded;
    assert Success(s.runs[k]);
  }

  /** While the entry lasts, all senders that get a result get the result of the one run. */
  lemma {:induction false} ResultsAgree(es: seq<Event>, i: nat)
    requires Run(es).expirations == 0 && i < |Run(es).answers| && Run(es).answers[i].Result?
    ensures |Run(es).runs| == 1 && Run(es).answers[i].status == Final(Run(es).runs[0])
  {
    RunHonest(es);
    RunsAreBounded(es);
    var s := Run(es);
    var k :| 0 <= k < |s.runs| && Final(s.runs[k]) == s.answers[i].status;
  }

  // ------------------------------------------------- what the entry holds

  /** The step persists the result of its delivery's run. */
  predicate Stores(s: State, e: Event) {
    e.Store? && !e.err && e.d < |s.deliveries| && s.deliveries[e.d].Ran?
  }

  /** The step claims the command for its delivery. */
  predicate Claims(s: State, e: Event) {
    e.SetNX? && !e.err && e.d < |s.deliveries| && (s.deliveries[e.d].Start? || s.deliveries[e.d].Vanished?) &&
    s.key.None?
  }

  predicate Touches(s: State, e: Event) {
    Stores(s, e) || Claims(s, e) || (e.Expire? && s.key.Some?)
  }

  /** The i-th event of the run was the last to persist a result, to claim, or to let the entry run out. */
  predicate LastTouch(es: seq<Event>, i: nat) {
    i < |es| && Touches(Run(es[..i]), es[i]) && forall j | i < j < |es| :: !Touches(Run(es[..j]), es[j])
  }

  /** A persisted result stands: nothing was persisted, claimed or run out since. */
  predicate ResultStands(es: seq<Event>, i: nat) {
    LastTouch(es, i) && Stores(Run(es[..i]), es[i])
  }

  predicate ClaimStands(es: seq<Event>, i: nat) {
    LastTouch(es, i) && Claims(Run(es[..i]), es[i])
  }

  lemma {:induction false} TouchStep(s: State, e: Event)
    ensures Next(s, e).key == if Stores(s, e) then Some(s.deliveries[e.d].status)
                              else if Claims(s, e) then Some(Pending)
                              else if Touches(s, e) then None else s.key
  {
  }

  lemma {:induction false} EarlierTouch(es: seq<Event>, i: nat)
    requires es != [] && LastTouch(es, i) && i < |es| - 1
    ensures LastTouch(es[..|es| - 1], i) && es[..|es| - 1][..i] == es[..i]
    ensures !Touches(Run(es[..|es| - 1]), es[|es| - 1])
  {
    var init := es[..|es| - 1];
    assert init[..i] == es[..i];
    forall j | i < j < |init| ensures !Touches(Run(init[..j]), init[j]) {
      assert init[..j] == es[..j];
    }
  }

  /** The entry is what the last of these events made of it. */
  lemma {:induction false} EntryIsLastTouch(es: seq<Event>, i: nat)
    requires LastTouch(es, i)
    ensures var s, e := Run(es[..i]), es[i];
            Run(es).key == if Stores(s, e) then Some(s.deliveries[e.d].status)
                           else if Claims(s, e) then Some(Pending) else None
    decreases |es|
  {
    var n := |es| - 1;
    TouchStep(Run(es[..n]), es[n]);
    if i < n {
      EarlierTouch(es, i);
      EntryIsLastTouch(es[..n], i);
    }
  }

  /** An entry that is there was claimed or stored, and stands since. */
  lemma {:induction false} EntryStands(es: seq<Event>) returns (i: nat)
    requires Run(es).key.Some?
    ensures ResultStands(es, i) || ClaimStands(es, i)
    decreases |es|
  {
    var n := |es| - 1;
    var init, s := es[..n], Run(es[..n]);
    TouchStep(s, es[n]);
    i := n;
    if !Touches(s, es[n]) {
      i := EntryStands(init);
      assert init[..i] == es[..i];
      forall j | i < j < |es| ensures !Touches(Run(es[..j]), es[j]) {
        assert j < n ==> init[..j] == es[..j];
      }
    }
  }

  /** A delivery that ran was handled once, and carries what the handler gave. */
  lemma {:induction false} RanByHandler(es: seq<Event>, d: nat) returns (h: nat)
    requires d < |Run(es).deliveries| && Run(es).deliveries[d].Ran?
    ensures h < |es| && es[h].Handle? && es[h].d == d && d < |Run(es[..h]).deliveries|
    ensures Run(es[..h]).deliveries[d].Claimed? && Run(es).deliveries[d].status == Final(es[h].outcome)
    decreases |es|
  {
    var n := |es| - 1;
    var init, s := es[..n], Run(es[..n]);
    h := n;
    if d < |s.deliveries| && s.deliveries[d].Ran? {
      h := RanByHandler(init, d);
      assert init[..h] == es[..h];
    }
  }

  /** The delivery found the entry gone when it looked after losing the claim. */
  predicate FoundGone(es: seq<Event>, d: nat) {
    exists i | 0 <= i < |es| :: FindsGone(Run(es[..i]), es[i], d)
  }

  predicate FindsGone(s: State, e: Event, d: nat) {
    e == Load(d, false) && d < |s.deliveries| && s.deliveries[d].Lost? && s.key.None?
  }

  lemma {:induction false} FoundGoneStep(es: seq<Event>, d: nat)
    requires es != []
    ensures FoundGone(es, d) <==> FoundGone(es[..|es| - 1], d) || FindsGone(Run(es[..|es| - 1]), es[|es| - 1], d)
  {
    var init := es[..|es| - 1];
    if FoundGone(init, d) {
      var i :| 0 <= i < |init| && FindsGone(Run(init[..i]), init[i], d);
      assert init[..i] == es[..i];
    }
    if FoundGone(es, d) {
      var i :| 0 <= i < |es| && FindsGone(Run(es[..i]), es[i], d);
      assert i < |init| ==> init[..i] == es[..i] && init[i] == es[i];
    }
  }

  /** How a delivery gets to each place. */
  lemma {:induction false} PhaseStep(s: State, e: Event, d: nat)
    requires d < |Next(s, e).deliveries|
    ensures var q := Next(s, e).deliveries[d];
            if d >= |s.deliveries| then q.Start? && !FindsGone(s, e, d) else
            var p := s.deliveries[d];
            (FindsGone(s, e, d) ==> q.Vanished?) &&
            (q.Vanished? ==> p.Vanished? || FindsGone(s, e, d)) && (q.LostAgain? ==> p.LostAgain? || p.Vanished?) &&
            (q.Start? ==> p.Start?) && (q.Lost? ==> p.Lost? || p.Start?)
  {
  }

  lemma {:induction false} DeliveriesGrow(s: State, e: Event)
    ensures |s.deliveries| <= |Next(s, e).deliveries|
  {
  }

  /** A delivery that lost the claim a second time is one that had found the entry gone. */
  lemma {:induction false} LostAgainIff(es: seq<Event>, d: nat)
    ensures d < |Run(es).deliveries| ==>
              (Run(es).deliveries[d].Vanished? || Run(es).deliveries[d].LostAgain? ==> FoundGone(es, d)) &&
              (Run(es).deliveries[d].Start? || Run(es).deliveries[d].Lost? ==> !FoundGone(es, d))
    ensures d >= |Run(es).deliveries| ==> !FoundGone(es, d)
    decreases |es|
  {
    if es != [] {
      var s, e := Run(es[..|es| - 1]), es[|es| - 1];
      LostAgainIff(es[..|es| - 1], d);
      FoundGoneStep(es, d);
      DeliveriesGrow(s, e);
      if d < |Next(s, e).deliveries| { PhaseStep(s, e, d); }
    }
  }

  /** How a sender's or a delivery's look at the entry ends. */
  predicate Adds(s: State, e: Event, r: Reply) {
    Next(s, e).answers == s.answers + [r]
  }

  /** A look at the entry: of a delivery that lost the claim, of a sender before or after waiting. */
  predicate Looks(s: State, e: Event) {
    e.Resolve? || e.TimeOut? ||
    (e.Load? && !e.err && e.d < |s.deliveries| && (s.deliveries[e.d].Lost? || s.deliveries[e.d].LostAgain?))
  }

  /**
   The terminal result reaches everybody. While a persisted result stands, every
   look at the entry is answered with what the handler gave in the very run whose
   delivery persisted it.
   */
  lemma {:induction false} StoredResultIsAnswered(es: seq<Event>, i: nat, e: Event) returns (h: nat)
    requires ResultStands(es, i) && Looks(Run(es), e)
    ensures h < i && es[h].Handle? && es[h].d == es[i].d && Adds(Run(es), e, Result(Final(es[h].outcome)))
  {
    EntryIsLastTouch(es, i);
    h := RanByHandler(es[..i], es[i].d);
    assert es[..i][..h] == es[..h];
  }

  /** A store that fails a delivery before it has the claim ends it: its sender is told so, and nothing runs for it. */
  lemma {:induction false} StoreFailuresAreTold(s: State, e: Event)
    requires (e.SetNX? || e.Load?) && e.err && e.d < |s.deliveries|
    requires var p := s.deliveries[e.d]; if e.SetNX? then p.Start? || p.Vanished? else p.Lost? || p.LostAgain?
    ensures Adds(s, e, DedupeFailed) && Next(s, e).key == s.key
    ensures Next(s, e).deliveries == s.deliveries[e.d := Answered]
  {
  }

  /** A command is sent on iff no entry stands: otherwise the sender is answered from it. */
  lemma {:induction false} SentOnIff(es: seq<Event>)
    ensures Next(Run(es), Resolve).deliveries == Run(es).deliveries + [Start] <==>
            !exists i: nat :: ResultStands(es, i) || ClaimStands(es, i)
  {
    StandsIff(es);
    assert Run(es).deliveries != Run(es).deliveries + [Start];
    if Run(es).key.Some? {
      var i := EntryStands(es);
    }
  }

  /** A delivery gets the claim iff no entry stands when it tries. */
  lemma {:induction false} ClaimsIff(es: seq<Event>, d: nat)
    requires d < |Run(es).deliveries| && (Run(es).deliveries[d].Start? || Run(es).deliveries[d].Vanished?)
    ensures Next(Run(es), SetNX(d, false)).deliveries[d].Claimed? <==>
            !exists i: nat :: ResultStands(es, i) || ClaimStands(es, i)
  {
    StandsIff(es);
    if Run(es).key.Some? {
      var i := EntryStands(es);
    }
  }

  /** The sender of the run itself is told its result, or, when that cannot be persisted, that the end is unknown. */
  lemma {:induction false} OwnRunIsAnswered(es: seq<Event>, d: nat, err: bool) returns (h: nat)
    requires d < |Run(es).deliveries| && Run(es).deliveries[d].Ran?
    ensures h < |es| && es[h].Handle? && es[h].d == d
    ensures Adds(Run(es), Store(d, err), if err then UnknownFinalState else Result(Final(es[h].outcome)))
    ensures Run(es + [Store(d, err)]).deliveries[d].Answered?
  {
    h := RanByHandler(es, d);
    RunSnoc(es, Store(d, err));
  }

  lemma {:induction false} OneReply(s: State, e: Event, r: Reply, q: Reply)
    requires Adds(s, e, r) && Adds(s, e, q)
    ensures r == q
  {
    assert (s.answers + [r])[|s.answers|] == r && (s.answers + [q])[|s.answers|] == q;
  }

  /** A standing result, a standing claim and no entry are told apart by the entry itself. */
  lemma {:induction false} StandsIff(es: seq<Event>)
    ensures (exists i: nat :: ResultStands(es, i)) <==> Run(es).key.Some? && Run(es).key.value != Pending
    ensures (exists i: nat :: ClaimStands(es, i)) <==> Run(es).key == Some(Pending)
  {
    if Run(es).key.Some? {
      var i := EntryStands(es);
    }
    forall i: nat | LastTouch(es, i)
      ensures ResultStands(es, i) ==> Run(es).key.Some? && Run(es).key.value != Pending
      ensures ClaimStands(es, i) ==> Run(es).key == Some(Pending)
    {
      EntryIsLastTouch(es, i);
      if ResultStands(es, i) {
        var h := RanByHandler(es[..i], es[i].d);
      }
    }
    if Run(es).key.Some? {
      var i := EntryStands(es);
      assert ResultStands(es, i) || ClaimStands(es, i);
    }
  }

  /** What each look adds, by the entry; a delivery that finds it gone the first time adds nothing. */
  lemma {:induction false} LookAdds(s: State, e: Event)
    requires Looks(s, e)
    ensures s.key.Some? && s.key.value != Pending ==> Adds(s, e, Result(s.key.value))
    ensures s.key == Some(Pending) ==> Adds(s, e, if e.TimeOut? then UnknownFinalState else StillRunning)
    ensures s.key.None? && e.TimeOut? ==> Adds(s, e, UnknownFinalState)
    ensures s.key.None? && e.Load? && s.deliveries[e.d].LostAgain? ==> Adds(s, e, StillRunning)
    ensures s.key.None? && (e.Resolve? || (e.Load? && s.deliveries[e.d].Lost?)) ==> Next(s, e).answers == s.answers
  {
  }

  /**
   A look is told that the command still runs iff a claim stands, or the look is
   that of a delivery that finds the entry gone for the second time.
   */
  lemma {:induction false} StillRunningIff(es: seq<Event>, e: Event)
    requires Looks(Run(es), e) && !e.TimeOut?
    ensures Adds(Run(es), e, StillRunning) <==>
            (exists i: nat :: ClaimStands(es, i)) ||
            (e.Load? && FoundGone(es, e.d) && !exists i: nat :: ResultStands(es, i))
  {
    var s := Run(es);
    if e.Load? { LostAgainIff(es, e.d); }
    StandsIff(es);
    LookAdds(s, e);
    if Adds(s, e, StillRunning) && s.key.Some? && s.key.value != Pending {
      OneReply(s, e, StillRunning, Result(s.key.value));
    }
  }

  /** A sender that gives up waiting learns the persisted result, and otherwise that the end is unknown. */
  lemma {:induction false} TimeOutAnswers(es: seq<Event>)
    ensures Adds(Run(es), TimeOut, UnknownFinalState) <==> !exists i: nat :: ResultStands(es, i)
  {
    var s := Run(es);
    StandsIff(es);
    LookAdds(s, TimeOut);
    if Adds(s, TimeOut, UnknownFinalState) && s.key.Some? && s.key.value != Pending {
      OneReply(s, TimeOut, UnknownFinalState, Result(s.key.value));
    }
  }

  /** One event more. */
  lemma {:induction false} Then(es: seq<Event>, e: Event, n: State) returns (more: seq<Event>)
    requires Next(Run(es), e) == n
    ensures more == es + [e] && Run(more) == n
  {
    RunSnoc(es, e);
    more := es + [e];
  }

  /** A run whose claim ran out before it persisted anything. */
  lemma {:induction false} OvertakenRun(a: Outcome) returns (es: seq<Event>)
    ensures Run(es) == State(None, [Ran(Final(a))], [a], 1, [], 1)
  {
    es := Then([], Deliver, State(None, [Start], [], 0, [], 0));
    es := Then(es, SetNX(0, false), State(Some(Pending), [Claimed], [], 1, [], 0));
    es := Then(es, Handle(0, a), State(Some(Pending), [Ran(Final(a))], [a], 1, [], 0));
    es := Then(es, Expire, State(None, [Ran(Final(a))], [a], 1, [], 1));
  }

  /**
   A persisted result does not always stand until the entry runs out: a run whose
   claim had run out before persists its own result over it, and the same look is
   answered differently with no expiry in between.
   */
  lemma {:induction false} OvertakenRunOverwrites(a: Outcome, b: Outcome) returns (es: seq<Event>)
    ensures Run(es).expirations == 1 && Adds(Run(es), Resolve, Result(Final(b)))
    ensures Run(es + [Store(0, false)]).expirations == 1
    ensures Adds(Run(es + [Store(0, false)]), Resolve, Result(Final(a)))
  {
    var ra, rb := Ran(Final(a)), Ran(Final(b));
    es := OvertakenRun(a);
    es := Then(es, Deliver, State(None, [ra, Start], [a], 1, [], 1));
    es := Then(es, SetNX(1, false), State(Some(Pending), [ra, Claimed], [a], 2, [], 1));
    es := Then(es, Handle(1, b), State(Some(Pending), [ra, rb], [a, b], 2, [], 1));
    es := Then(es, Store(1, false), State(Some(Final(b)), [ra, Answered], [a, b], 2, [Result(Final(b))], 1));
    var more := Then(es, Store(0, false), Next(Run(es), Store(0, false)));
    LookAdds(Run(es), Resolve);
    LookAdds(Run(more), Resolve);
  }
}

/**
 History recovery for a Connect or Subscribe request
 (internal/runtime/recover.go).

 Every recover=true subscription of a request replays history through the
 session and ends with one RecoverComplete; all of them share one budget.
 */
module Recovery {
  import opened Options
  import opened Topics
  import opened Decimals
  import opened ChannelPolicies
  import opened MemoryHistory

  const MAX_RECOVERED: nat := 1000

  /** A client's subscription; the cursor's offset is optional. */
  datatype Subscription = Subscription(channel: string, recover: bool, fresh_: bool, cursor: Option<nat>)

  /** What a resumed session brings along: server-recorded offsets and the epoch they belong to. */
  datatype Snapshot = Snapshot(offsets: map<string, nat>, epoch: string)

  /** The node as one request sees it. Channels in broken fail their history read. */
  datatype World = World(epoch: string, policies: map<string, ChannelPolicy>, logs: map<string, Log>,
                         delivered: map<string, nat>, broken: set<string>)

  datatype Status = Skipped | Caught | Truncated | Failed | EpochReset

  datatype WireGap = GapNone | GapHeadTrimmed | GapEmptyExpired | GapEpochReset

  /** The outcome of one channel; position is the echoed cursor, absent when deliberately unset. */
  datatype Result = Result(channel: string, status: Status, position: Option<nat>, epoch: string,
                           gap: WireGap, pubCount: nat)

  predicate ValidWorld(w: World) {
    (forall ch | ch in w.logs ::
       ValidLog(w.logs[ch]) && (w.logs[ch].accepted != [] ==> w.logs[ch].retained > 0) &&
       |w.logs[ch].accepted| < TWO64 - 1) &&
    (forall ch | ch in w.delivered :: w.delivered[ch] < TWO64)
  }

  function PolicyOf(w: World, ch: string): ChannelPolicy {
    if ch in w.policies then w.policies[ch] else DEFAULT_POLICY
  }

  function LogOf(w: World, ch: string): Log {
    if ch in w.logs then w.logs[ch] else NO_LOG
  }

  function DeliveredOf(w: World, ch: string): nat {
    if ch in w.delivered then w.delivered[ch] else 0
  }

  // ------------------------------------------------------- cursor and gates

  datatype Cursor = Cursor(position: Option<nat>, epochReset: bool, since: nat, skip: bool)

  /** Offsets are 64-bit; the successor of the last one is 0. */
  function After(offset: nat): nat {
    (offset + 1) % TWO64
  }

  function RecoveryCursor(w: World, sub: Subscription, resume: Option<Snapshot>): Cursor {
    if sub.fresh_ then Cursor(None, false, 0, false)
    else if resume.Some? then
      if resume.value.epoch != "" && w.epoch != "" && resume.value.epoch != w.epoch
      then Cursor(None, true, 0, false)
      else if sub.channel !in resume.value.offsets then Cursor(None, false, 0, true)
      else At(resume.value.offsets[sub.channel])
    else if sub.cursor.Some? then At(sub.cursor.value)
    else if DeliveredOf(w, sub.channel) > 0 then At(DeliveredOf(w, sub.channel))
    else Cursor(None, false, 0, true)
  }

  function At(offset: nat): Cursor {
    Cursor(Some(offset), false, After(offset), false)
  }

  /** History must not be read for the subscription. */
  predicate RecoverySkip(w: World, sub: Subscription, resume: Option<Snapshot>) {
    var pol := PolicyOf(w, sub.channel);
    if !sub.recover then true
    else if IsWildcard(sub.channel) then true
    else if !pol.recover || !pol.history || pol.transientOnly then true
    else if resume.Some? then sub.channel !in resume.value.offsets && !sub.fresh_
    else if sub.fresh_ then false
    else if sub.cursor.Some? then false
    else DeliveredOf(w, sub.channel) == 0
  }

  /** The two places that decide on skipping agree: a subscription let through has a cursor. */
  lemma {:induction false} GatesAgree(w: World, sub: Subscription, resume: Option<Snapshot>)
    requires !RecoverySkip(w, sub, resume)
    ensures !RecoveryCursor(w, sub, resume).skip
  {}

  /** On a resume, both epochs are known and they differ. */
  predicate EpochChanged(w: World, resume: Option<Snapshot>) {
    resume.Some? && resume.value.epoch != "" && w.epoch != "" && resume.value.epoch != w.epoch
  }

  /** The offset to continue after: recorded with a resumed session, else sent by the client, else delivered last. */
  function KnownOffset(w: World, sub: Subscription, resume: Option<Snapshot>): Option<nat> {
    if resume.Some? then
      if sub.channel in resume.value.offsets then Some(resume.value.offsets[sub.channel]) else None
    else if sub.cursor.Some? then sub.cursor
    else if DeliveredOf(w, sub.channel) > 0 then Some(DeliveredOf(w, sub.channel))
    else None
  }

  /**
   A subscription that is let through reads history from the beginning iff the
   client asked for a fresh start, the epoch changed, or the offset to continue
   after is the last 64-bit one; offset 0 is no reason.
   */
  lemma {:induction false} FromTheStartIff(w: World, sub: Subscription, resume: Option<Snapshot>)
    requires !RecoverySkip(w, sub, resume)
    requires KnownOffset(w, sub, resume).Some? ==> KnownOffset(w, sub, resume).value < TWO64
    ensures RecoveryCursor(w, sub, resume).since == 0 <==>
            sub.fresh_ || EpochChanged(w, resume) || KnownOffset(w, sub, resume) == Some(TWO64 - 1)
  {
    if !sub.fresh_ && !EpochChanged(w, resume) {
      assert KnownOffset(w, sub, resume).Some?;
      assert RecoveryCursor(w, sub, resume).since == After(KnownOffset(w, sub, resume).value);
    }
  }

  // ------------------------------------------------------------ one channel

  /** What recovering one channel will do, before anything is sent. */
  datatype Plan = SkipIt | OutOfQuota | ReadFails | Replay(page: Page, limit: nat)

  function LimitOf(w: World, ch: string, quota: int): nat {
    var pol := PolicyOf(w, ch);
    var limit := if 0 < pol.recoverLimit < MAX_RECOVERED then pol.recoverLimit else MAX_RECOVERED;
    var capped := if quota < limit then quota else limit;
    if capped < 0 then 0 else capped
  }

  function PlanOf(w: World, sub: Subscription, resume: Option<Snapshot>, quota: int): Plan
    requires ValidWorld(w)
  {
    var c := RecoveryCursor(w, sub, resume);
    var limit := LimitOf(w, sub.channel, quota);
    if sub.channel == "" || RecoverySkip(w, sub, resume) || c.skip then SkipIt
    else if limit == 0 then OutOfQuota
    else if sub.channel in w.broken then ReadFails
    else Replay(PageOf(LogOf(w, sub.channel), c.since, limit), limit)
  }

  /** The outcome once the first sent of the planned publications have gone out. */
  function ResultOf(w: World, sub: Subscription, resume: Option<Snapshot>, plan: Plan, sent: nat): Result
    requires plan.Replay? ==> sent <= |plan.page.pubs|
  {
    var c := RecoveryCursor(w, sub, resume);
    match plan
    case SkipIt => Result(sub.channel, Skipped, if sub.channel == "" then None else c.position, w.epoch, GapNone, 0)
    case OutOfQuota => Result(sub.channel, Truncated, c.position, w.epoch, GapNone, 0)
    case ReadFails => Result(sub.channel, Failed, c.position, w.epoch, GapNone, 0)
    case Replay(page, limit) =>
      var status := if c.epochReset then EpochReset
                    else if |page.pubs| == limit then Truncated
                    else if page.gap && page.pubs == [] then Truncated
                    else Caught;
      var position := if sent > 0 then Some(page.pubs[sent - 1].offset) else c.position;
      var gap := if c.epochReset then GapEpochReset else GapOnWire(page.reason);
      Result(sub.channel, status, position, w.epoch, gap, sent)
  }

  function GapOnWire(r: GapReason): WireGap {
    match r
    case NoGap => GapNone
    case HeadTrimmed => GapHeadTrimmed
    case EmptyExpired => GapEmptyExpired
  }

  /** In one round, even one cut short by a failed send, the frames are contiguous up to the echoed position. */
  lemma {:induction false} FramesReachTheEcho(w: World, sub: Subscription, resume: Option<Snapshot>, quota: int,
                                              sent: nat)
    requires ValidWorld(w) && PlanOf(w, sub, resume, quota).Replay?
    requires sent <= |PlanOf(w, sub, resume, quota).page.pubs|
    ensures var plan := PlanOf(w, sub, resume, quota);
            var echo, since := ResultOf(w, sub, resume, plan, sent).position, RecoveryCursor(w, sub, resume).since;
            (sent == 0 ==> echo == RecoveryCursor(w, sub, resume).position) &&
            (sent > 0 ==> echo.Some? && plan.page.pubs[0].offset == Max(since, First(LogOf(w, sub.channel)))) &&
            forall i | 0 <= i < sent :: plan.page.pubs[i].offset + (sent - 1 - i) == echo.value
  {
    var plan := PlanOf(w, sub, resume, quota);
    PageContents(LogOf(w, sub.channel), RecoveryCursor(w, sub, resume).since, plan.limit);
  }

  // ------------------------------------------------- the session and the budget

  datatype Frame = ReplayFrame(channel: string, pub: Publication) | CompleteFrame(result: Result)

  /** One call of the session's Send and whether it succeeded. */
  datatype Attempt = Attempt(frame: Frame, ok: bool)

  /** The session's outbound side: any send may fail. */
  class Session {
    const accepts: nat -> bool
    var attempts: seq<Attempt>

    constructor (accepts: nat -> bool)
      ensures this.accepts == accepts && attempts == []
    {
      this.accepts, attempts := accepts, [];
    }

    method Send(frame: Frame) returns (ok: bool)
      modifies this
      ensures ok == accepts(|old(attempts)|) && attempts == old(attempts) + [Attempt(frame, ok)]
    {
      ok := accepts(|attempts|);
      attempts := attempts + [Attempt(frame, ok)];
    }
  }

  class RecoverQuota {
    var remaining: int

    constructor ()
      ensures remaining == MAX_RECOVERED
    {
      remaining := MAX_RECOVERED;
    }
  }

  function Replays(channel: string, pubs: seq<Publication>, ok: bool): seq<Attempt> {
    seq(|pubs|, i requires 0 <= i < |pubs| => Attempt(ReplayFrame(channel, pubs[i]), ok))
  }

  /** The first sent publications of the page delivered, then one failure unless that was all of them. */
  function ReplaySends(channel: string, plan: Plan, sent: nat): seq<Attempt>
    requires plan.Replay? ==> sent <= |plan.page.pubs|
  {
    if !plan.Replay? then [] else
    var pubs := plan.page.pubs;
    Replays(channel, pubs[..sent], true) +
    if sent < |pubs| then [Attempt(ReplayFrame(channel, pubs[sent]), false)] else []
  }

  /** The sends of one channel: a prefix of the page delivered, at most one failure, then one completion. */
  predicate ChannelSends(sends: seq<Attempt>, plan: Plan, res: Result) {
    sends != [] && sends[|sends| - 1].frame == CompleteFrame(res) &&
    (if plan.Replay? then res.pubCount <= |plan.page.pubs| else res.pubCount == 0) &&
    sends[..|sends| - 1] == ReplaySends(res.channel, plan, res.pubCount)
  }

  /** One channel's turn in a request: the budget it found, what it planned, how it ended, what it sent. */
  datatype Turn = Turn(sub: Subscription, budget: int, plan: Plan, res: Result, sends: seq<Attempt>)

  predicate TurnOk(w: World, resume: Option<Snapshot>, t: Turn)
    requires ValidWorld(w)
  {
    t.plan == PlanOf(w, t.sub, resume, t.budget) && ChannelSends(t.sends, t.plan, t.res) &&
    t.res == ResultOf(w, t.sub, resume, t.plan, t.res.pubCount)
  }

  /** The request's remaining budget caps the policy's limit, which caps the global one. */
  method LimitFor(w: World, ch: string, remaining: int) returns (limit: int)
    ensures limit == LimitOf(w, ch, remaining)
  {
    var pol := PolicyOf(w, ch);
    limit := MAX_RECOVERED;
    if pol.recoverLimit > 0 && pol.recoverLimit < limit {
      limit := pol.recoverLimit;
    }
    if remaining < limit {
      limit := remaining;
    }
    if limit < 0 {
      limit := 0;
    }
  }

  /** recoverSubscription up to its completion frame: the gates, the limit, the read and the replay. */
  method ReplayChannel(w: World, c: Session, sub: Subscription, resume: Option<Snapshot>, quota: RecoverQuota)
    returns (res: Result)
    requires ValidWorld(w)
    modifies c, quota
    ensures var plan := PlanOf(w, sub, resume, old(quota.remaining));
            (plan.Replay? ==> res.pubCount <= |plan.page.pubs|) &&
            res == ResultOf(w, sub, resume, plan, res.pubCount) &&
            c.attempts == old(c.attempts) + ReplaySends(sub.channel, plan, res.pubCount)
    ensures quota.remaining == old(quota.remaining) - res.pubCount
    ensures old(quota.remaining) >= 0 ==> quota.remaining >= 0
  {
    res := Result(sub.channel, Skipped, None, w.epoch, GapNone, 0);
    if sub.channel == "" {
      return;
    }
    var cur := RecoveryCursor(w, sub, resume);
    res := res.(position := cur.position);
    if RecoverySkip(w, sub, resume) || cur.skip {
      return;
    }
    var limit := LimitFor(w, sub.channel, quota.remaining);
    if limit == 0 {
      res := res.(status := Truncated);
      return;
    }
    if sub.channel in w.broken {
      res := res.(status := Failed);
      return;
    }
    assert PlanOf(w, sub, resume, quota.remaining) ==
           Replay(PageOf(LogOf(w, sub.channel), cur.since, limit), limit);
    PlanWithinBudget(w, sub, resume, quota.remaining);
    res := ReplayRead(w, c, res, cur, limit, quota);
  }

  /** The read and the replay of a channel that passed the gates. */
  method ReplayRead(w: World, c: Session, start: Result, cur: Cursor, limit: nat, quota: RecoverQuota)
    returns (res: Result)
    requires ValidWorld(w) && limit > 0
    modifies c, quota
    ensures var page := PageOf(LogOf(w, start.channel), cur.since, limit);
            res.pubCount <= |page.pubs| && quota.remaining == old(quota.remaining) - res.pubCount &&
            c.attempts == old(c.attempts) + ReplaySends(start.channel, Replay(page, limit), res.pubCount) &&
            Concludes(start, cur, page, limit, res)
  {
    var page := PageOf(LogOf(w, start.channel), cur.since, limit);
    var sent := ReplayPage(c, start.channel, page.pubs, quota);
    res := ReplayOutcome(start, cur, page, limit, sent);
  }

  /** What a replayed channel reports: the last publication sent is the position, a full page may be cut short. */
  predicate Concludes(start: Result, cur: Cursor, page: Page, limit: nat, res: Result) {
    var sent := res.pubCount;
    sent <= |page.pubs| && res.channel == start.channel && res.epoch == start.epoch &&
    res.position == (if sent > 0 then Some(page.pubs[sent - 1].offset) else start.position) &&
    res.gap == (if cur.epochReset then GapEpochReset else GapOnWire(page.reason)) &&
    (res.status == EpochReset <==> cur.epochReset) &&
    (res.status == Truncated <==> !cur.epochReset && (|page.pubs| == limit || (page.gap && page.pubs == []))) &&
    (res.status == Caught <==> !cur.epochReset && |page.pubs| != limit && !(page.gap && page.pubs == []))
  }

  method ReplayOutcome(start: Result, cur: Cursor, page: Page, limit: nat, sent: nat) returns (res: Result)
    requires sent <= |page.pubs|
    ensures res.pubCount == sent && Concludes(start, cur, page, limit, res)
  {
    res := start.(pubCount := sent, gap := GapOnWire(page.reason));
    if sent > 0 {
      res := res.(position := Some(page.pubs[sent - 1].offset));
    }
    if cur.epochReset {
      res := res.(status := EpochReset, gap := GapEpochReset);
    } else if |page.pubs| == limit || (page.gap && |page.pubs| == 0) {
      res := res.(status := Truncated);
    } else {
      res := res.(status := Caught);
    }
  }

  /** recoverSubscription: read, replay until a send fails, complete. */
  method RecoverSubscription(w: World, c: Session, sub: Subscription, resume: Option<Snapshot>, quota: RecoverQuota)
    returns (res: Result, ghost turn: Turn)
    requires ValidWorld(w)
    modifies c, quota
    ensures TurnOk(w, resume, turn) && turn.sub == sub && turn.res == res && turn.budget == old(quota.remaining)
    ensures c.attempts == old(c.attempts) + turn.sends
    ensures quota.remaining == old(quota.remaining) - res.pubCount
    ensures old(quota.remaining) >= 0 ==> quota.remaining >= 0
  {
    ghost var plan := PlanOf(w, sub, resume, quota.remaining);
    res := ReplayChannel(w, c, sub, resume, quota);
    ghost var replays := ReplaySends(sub.channel, plan, res.pubCount);
    var ok := c.Send(CompleteFrame(res));
    turn := Turn(sub, old(quota.remaining), plan, res, replays + [Attempt(CompleteFrame(res), ok)]);
    assert turn.sends[..|turn.sends| - 1] == replays;
  }

  lemma {:induction false} PlanWithinBudget(w: World, sub: Subscription, resume: Option<Snapshot>, quota: int)
    requires ValidWorld(w) && PlanOf(w, sub, resume, quota).Replay?
    ensures |PlanOf(w, sub, resume, quota).page.pubs| <= quota
  {}

  /** The replay loop: stops at the first failed send. */
  method ReplayPage(c: Session, channel: string, pubs: seq<Publication>, quota: RecoverQuota) returns (sent: nat)
    modifies c, quota
    ensures sent <= |pubs| && quota.remaining == old(quota.remaining) - sent
    ensures c.attempts == old(c.attempts) + Replays(channel, pubs[..sent], true) +
                          if sent < |pubs| then [Attempt(ReplayFrame(channel, pubs[sent]), false)] else []
  {
    sent := 0;
    while sent < |pubs|
      invariant 0 <= sent <= |pubs| && quota.remaining == old(quota.remaining) - sent
      invariant c.attempts == old(c.attempts) + Replays(channel, pubs[..sent], true)
    {
      var ok := c.Send(ReplayFrame(channel, pubs[sent]));
      if !ok {
        return;
      }
      assert Replays(channel, pubs[..sent + 1], true) ==
             Replays(channel, pubs[..sent], true) + [Attempt(ReplayFrame(channel, pubs[sent]), true)];
      sent := sent + 1;
      quota.remaining := quota.remaining - 1;
    }
  }

  // -------------------------------------------------------------- a request

  function Requested(subs: seq<Subscription>): seq<Subscription> {
    if subs == [] then [] else
    var n := |subs| - 1;
    Requested(subs[..n]) + if subs[n].recover then [subs[n]] else []
  }

  function Spent(turns: seq<Turn>): nat {
    if turns == [] then 0 else Spent(turns[..|turns| - 1]) + turns[|turns| - 1].res.pubCount
  }

  function Sends(turns: seq<Turn>): seq<Attempt> {
    if turns == [] then [] else Sends(turns[..|turns| - 1]) + turns[|turns| - 1].sends
  }

  /** The turns of a request, one per requested channel, each drawing on what the earlier ones left. */
  predicate RequestTurns(w: World, resume: Option<Snapshot>, subs: seq<Subscription>, turns: seq<Turn>)
    requires ValidWorld(w)
  {
    |turns| == |subs| &&
    forall i | 0 <= i < |turns| ::
      turns[i].sub == subs[i] && turns[i].budget == MAX_RECOVERED - Spent(turns[..i]) && TurnOk(w, resume, turns[i])
  }

  /**
   streamRecoveries: in request order, each recover=true channel sends its
   replay frames and then exactly one completion, and the budget of 1000 is
   always what was sent plus what remains.
   */
  method StreamRecoveries(w: World, c: Session, subs: seq<Subscription>, resume: Option<Snapshot>)
    returns (remaining: nat, ghost turns: seq<Turn>)
    requires ValidWorld(w)
    modifies c
    ensures RequestTurns(w, resume, Requested(subs), turns)
    ensures c.attempts == old(c.attempts) + Sends(turns)
    ensures remaining + Spent(turns) == 1000
  {
    var quota := new RecoverQuota();
    turns := [];
    for i := 0 to |subs|
      invariant quota.remaining + Spent(turns) == MAX_RECOVERED && quota.remaining >= 0
      invariant RequestTurns(w, resume, Requested(subs[..i]), turns)
      invariant c.attempts == old(c.attempts) + Sends(turns)
    {
      RequestedSnoc(subs, i);
      if subs[i].recover {
        turns := RecoverNext(w, c, subs[i], resume, quota, Requested(subs[..i]), turns, old(c.attempts));
      }
    }
    assert subs[..|subs|] == subs;
    remaining := quota.remaining;
  }

  /** One more turn of a request. */
  method RecoverNext(w: World, c: Session, sub: Subscription, resume: Option<Snapshot>, quota: RecoverQuota,
                     ghost subs: seq<Subscription>, ghost turns: seq<Turn>, ghost base: seq<Attempt>)
    returns (ghost more: seq<Turn>)
    requires ValidWorld(w) && RequestTurns(w, resume, subs, turns) && c.attempts == base + Sends(turns)
    requires quota.remaining + Spent(turns) == MAX_RECOVERED && quota.remaining >= 0
    modifies c, quota
    ensures RequestTurns(w, resume, subs + [sub], more) && c.attempts == base + Sends(more)
    ensures quota.remaining + Spent(more) == MAX_RECOVERED && quota.remaining >= 0
  {
    var _, turn := RecoverSubscription(w, c, sub, resume, quota);
    RequestTurnsSnoc(w, resume, subs, turns, turn);
    ConcatAssociates(base, Sends(turns), turn.sends);
    more := turns + [turn];
  }

  lemma {:induction false} ConcatAssociates<T>(a: seq<T>, b: seq<T>, c: seq<T>)
    ensures (a + b) + c == a + (b + c)
  {}

  lemma {:induction false} RequestedSnoc(subs: seq<Subscription>, i: nat)
    requires i < |subs|
    ensures Requested(subs[..i + 1]) == Requested(subs[..i]) + if subs[i].recover then [subs[i]] else []
  {
    assert subs[..i + 1][..i] == subs[..i];
  }

  lemma {:induction false} RequestTurnsSnoc(w: World, resume: Option<Snapshot>, subs: seq<Subscription>,
                                            turns: seq<Turn>, turn: Turn)
    requires ValidWorld(w) && RequestTurns(w, resume, subs, turns)
    requires TurnOk(w, resume, turn) && turn.budget == MAX_RECOVERED - Spent(turns)
    ensures RequestTurns(w, resume, subs + [turn.sub], turns + [turn])
    ensures Sends(turns + [turn]) == Sends(turns) + turn.sends
    ensures Spent(turns + [turn]) == Spent(turns) + turn.res.pubCount
  {
    var more := turns + [turn];
    assert more[..|turns|] == turns;
    forall i | 0 <= i < |more| ensures more[..i] == if i < |turns| then turns[..i] else turns {}
  }

  /** Each requested channel is completed exactly once, in request order. */
  lemma {:induction false} OneCompletionEach(w: World, resume: Option<Snapshot>, subs: seq<Subscription>,
                                             turns: seq<Turn>)
    requires ValidWorld(w) && RequestTurns(w, resume, subs, turns)
    ensures |Completions(Sends(turns))| == |subs|
    ensures forall i | 0 <= i < |subs| ::
              Completions(Sends(turns))[i] == turns[i].res && turns[i].res.channel == subs[i].channel
  {
    forall i | 0 <= i < |turns| ensures Completions(turns[i].sends) == [turns[i].res] &&
                                        turns[i].res.channel == subs[i].channel {
      CompletionsOfTurn(w, resume, turns[i]);
    }
    CompletionsOfTurns(turns);
  }

  lemma {:induction false} CompletionsOfTurn(w: World, resume: Option<Snapshot>, t: Turn)
    requires ValidWorld(w) && TurnOk(w, resume, t)
    ensures Completions(t.sends) == [t.res] && t.res.channel == t.sub.channel
  {
    CompletionsOfChannel(t.sends, t.plan, t.res);
  }

  lemma {:induction false} CompletionsOfTurns(turns: seq<Turn>)
    requires forall i | 0 <= i < |turns| :: Completions(turns[i].sends) == [turns[i].res]
    ensures |Completions(Sends(turns))| == |turns|
    ensures forall i | 0 <= i < |turns| :: Completions(Sends(turns))[i] == turns[i].res
  {
    if turns != [] {
      var n := |turns| - 1;
      CompletionsOfTurns(turns[..n]);
      CompletionsOfConcat(Sends(turns[..n]), turns[n].sends);
      assert Completions(Sends(turns)) == Completions(Sends(turns[..n])) + [turns[n].res];
    }
  }

  function Completions(sends: seq<Attempt>): seq<Result> {
    if sends == [] then [] else
    Completions(sends[..|sends| - 1]) +
    if sends[|sends| - 1].frame.CompleteFrame? then [sends[|sends| - 1].frame.result] else []
  }

  lemma {:induction false} CompletionsOfConcat(a: seq<Attempt>, b: seq<Attempt>)
    ensures Completions(a + b) == Completions(a) + Completions(b)
    decreases |b|
  {
    if b == [] {
      assert a + b == a;
    } else {
      assert (a + b)[..|a + b| - 1] == a + b[..|b| - 1];
      CompletionsOfConcat(a, b[..|b| - 1]);
    }
  }

  lemma {:induction false} NoCompletions(sends: seq<Attempt>)
    requires forall i | 0 <= i < |sends| :: sends[i].frame.ReplayFrame?
    ensures Completions(sends) == []
  {
    if sends != [] {
      NoCompletions(sends[..|sends| - 1]);
    }
  }

  lemma {:induction false} CompletionsOfChannel(sends: seq<Attempt>, plan: Plan, res: Result)
    requires ChannelSends(sends, plan, res)
    ensures Completions(sends) == [res]
  {
    NoCompletions(sends[..|sends| - 1]);
  }

  // ------------------------------------------- what a request gets, on its inputs

  /** No wildcard, recovery and history on, not transient-only, and a point to start from. */
  predicate Open(w: World, sub: Subscription, resume: Option<Snapshot>) {
    !IsWildcard(sub.channel) && PolicyOf(w, sub.channel).recover && PolicyOf(w, sub.channel).history &&
    !PolicyOf(w, sub.channel).transientOnly && (sub.fresh_ || KnownOffset(w, sub, resume).Some?)
  }

  /** History is replayed for the subscription. */
  predicate Served(w: World, sub: Subscription, resume: Option<Snapshot>) {
    sub.channel != "" && Open(w, sub, resume)
  }

  /** From the start, whatever offset is known. */
  predicate StartsOver(w: World, sub: Subscription, resume: Option<Snapshot>) {
    sub.fresh_ || EpochChanged(w, resume)
  }

  /** The first offset wanted: the one after the known offset, on 64 bits. */
  function Wanted(w: World, sub: Subscription, resume: Option<Snapshot>): nat {
    var known := KnownOffset(w, sub, resume);
    if StartsOver(w, sub, resume) || known.None? then 0 else (known.value + 1) % TWO64
  }

  /** What is left of the request's 1000, and no more than the policy's limit when it sets one. */
  function Allowance(w: World, ch: string, left: nat): nat {
    var limit := PolicyOf(w, ch).recoverLimit;
    if 0 < limit < left then limit else left
  }

  /** How many publications from an offset on are retained. */
  function Available(log: Log, from: nat): nat
    requires ValidLog(log)
  {
    var lo := Max(from, First(log));
    if lo <= |log.accepted| then |log.accepted| + 1 - lo else 0
  }

  lemma {:induction false} SkipIffNotOpen(w: World, sub: Subscription, resume: Option<Snapshot>)
    ensures RecoverySkip(w, sub, resume) <==> !sub.recover || !Open(w, sub, resume)
  {
  }

  lemma {:induction false} CursorIs(w: World, sub: Subscription, resume: Option<Snapshot>)
    ensures var c, known := RecoveryCursor(w, sub, resume), KnownOffset(w, sub, resume);
            c.since == Wanted(w, sub, resume) && (c.epochReset <==> !sub.fresh_ && EpochChanged(w, resume)) &&
            c.position == if StartsOver(w, sub, resume) then None else known
  {
  }

  lemma {:induction false} PageSize(log: Log, from: nat, limit: nat)
    requires ValidLog(log) && limit > 0
    ensures |PageOf(log, from, limit).pubs| == Min(limit, Available(log, from))
    ensures PageOf(log, from, limit).gap <==> from > 0 && (log.retained == 0 || First(log) > from)
  {
  }

  lemma {:induction false} LimitIs(w: World, ch: string, left: nat)
    requires left <= MAX_RECOVERED
    ensures LimitOf(w, ch, left) == Allowance(w, ch, left)
  {
  }

  /** What the plan of a turn is, on the inputs. */
  lemma {:induction false} PlanMeans(w: World, sub: Subscription, resume: Option<Snapshot>, left: nat)
    requires ValidWorld(w) && sub.recover && left <= MAX_RECOVERED
    ensures var plan, allowance := PlanOf(w, sub, resume, left), Allowance(w, sub.channel, left);
            plan == if !Served(w, sub, resume) then SkipIt
                    else if allowance == 0 then OutOfQuota
                    else if sub.channel in w.broken then ReadFails
                    else Replay(PageOf(LogOf(w, sub.channel), Wanted(w, sub, resume), allowance), allowance)
  {
    SkipIffNotOpen(w, sub, resume);
    CursorIs(w, sub, resume);
    LimitIs(w, sub.channel, left);
    if !RecoverySkip(w, sub, resume) {
      GatesAgree(w, sub, resume);
    }
  }

  /**
   How a turn ends, on the inputs: skipped iff not served; else truncated without
   budget, failed when history cannot be read, and otherwise by what is retained.
   */
  predicate EndsAs(w: World, resume: Option<Snapshot>, t: Turn)
    requires ValidWorld(w) && t.budget >= 0
  {
    var log, from := LogOf(w, t.sub.channel), Wanted(w, t.sub, resume);
    var allowance, available := Allowance(w, t.sub.channel, t.budget), Available(log, from);
    if !Served(w, t.sub, resume) then t.res.status == Skipped
    else if allowance == 0 then t.res.status == Truncated
    else if t.sub.channel in w.broken then t.res.status == Failed
    else if !t.sub.fresh_ && EpochChanged(w, resume) then t.res.status == EpochReset
    else if available >= allowance then t.res.status == Truncated
    else if available == 0 && from > 0 && (log.retained == 0 || First(log) > from) then t.res.status == Truncated
    else t.res.status == Caught
  }

  /** History is read for the turn. */
  predicate ReadsHistory(w: World, resume: Option<Snapshot>, t: Turn) {
    Served(w, t.sub, resume) && t.budget > 0 && t.sub.channel !in w.broken
  }

  /** The position a turn reports: the last publication delivered, or where it started from. */
  predicate Reports(w: World, resume: Option<Snapshot>, t: Turn)
    requires ValidWorld(w)
  {
    var log, n, from := LogOf(w, t.sub.channel), t.res.pubCount, Wanted(w, t.sub, resume);
    t.res.position ==
    (if n > 0 then Some(Max(from, First(log)) + n - 1)
     else if t.sub.channel == "" || StartsOver(w, t.sub, resume) then None else KnownOffset(w, t.sub, resume))
  }

  /** The gap it reports: what is missing between the wanted offset and what is retained. */
  predicate ReportsGap(w: World, resume: Option<Snapshot>, t: Turn)
    requires ValidWorld(w)
  {
    var log, from := LogOf(w, t.sub.channel), Wanted(w, t.sub, resume);
    t.res.gap ==
    if !ReadsHistory(w, resume, t) then GapNone
    else if !t.sub.fresh_ && EpochChanged(w, resume) then GapEpochReset
    else if from == 0 then GapNone
    else if log.retained == 0 then GapEmptyExpired
    else if First(log) > from then GapHeadTrimmed else GapNone
  }

  /** The i-th replay: the i-th retained publication from the wanted offset on, delivered while i is below sent. */
  predicate IsReplay(a: Attempt, log: Log, channel: string, wanted: nat, i: nat, sent: nat)
    requires ValidLog(log)
  {
    var o := Max(wanted, First(log)) + i;
    o <= |log.accepted| && a == Attempt(ReplayFrame(channel, log.accepted[o - 1]), i < sent)
  }

  /** A turn replays, in order, retained publications from the wanted offset on, at most its allowance. */
  predicate ReplaysOnly(w: World, resume: Option<Snapshot>, t: Turn)
    requires ValidWorld(w) && t.budget >= 0
  {
    t.sends != [] && t.res.pubCount <= |t.sends| - 1 <= Allowance(w, t.sub.channel, t.budget) &&
    (|t.sends| > 1 ==> Served(w, t.sub, resume)) &&
    (forall i | 0 <= i < |t.sends| - 1 ::
       IsReplay(t.sends[i], LogOf(w, t.sub.channel), t.sub.channel, Wanted(w, t.sub, resume), i, t.res.pubCount))
  }

  lemma {:induction false} TurnEnds(w: World, resume: Option<Snapshot>, t: Turn)
    requires ValidWorld(w) && TurnOk(w, resume, t) && t.sub.recover && 0 <= t.budget <= MAX_RECOVERED
    ensures EndsAs(w, resume, t) && t.res.epoch == w.epoch
  {
    PlanMeans(w, t.sub, resume, t.budget);
    CursorIs(w, t.sub, resume);
    if t.plan.Replay? {
      PageSize(LogOf(w, t.sub.channel), Wanted(w, t.sub, resume), t.plan.limit);
    }
  }

  lemma {:induction false} TurnReports(w: World, resume: Option<Snapshot>, t: Turn)
    requires ValidWorld(w) && TurnOk(w, resume, t) && t.sub.recover && 0 <= t.budget <= MAX_RECOVERED
    ensures Reports(w, resume, t)
  {
    PlanMeans(w, t.sub, resume, t.budget);
    CursorIs(w, t.sub, resume);
    if t.plan.Replay? {
      PageContents(LogOf(w, t.sub.channel), Wanted(w, t.sub, resume), t.plan.limit);
    }
  }

  lemma {:induction false} TurnGap(w: World, resume: Option<Snapshot>, t: Turn)
    requires ValidWorld(w) && TurnOk(w, resume, t) && t.sub.recover && 0 <= t.budget <= MAX_RECOVERED
    ensures ReportsGap(w, resume, t)
  {
    PlanMeans(w, t.sub, resume, t.budget);
    CursorIs(w, t.sub, resume);
  }

  lemma {:induction false} SendAt(channel: string, plan: Plan, sent: nat, i: nat)
    requires plan.Replay? && sent <= |plan.page.pubs| && i < |ReplaySends(channel, plan, sent)|
    ensures i < |plan.page.pubs| &&
            ReplaySends(channel, plan, sent)[i] == Attempt(ReplayFrame(channel, plan.page.pubs[i]), i < sent)
  {
  }

  lemma {:induction false} SendCount(channel: string, plan: Plan, sent: nat)
    requires plan.Replay? ==> sent <= |plan.page.pubs|
    ensures |ReplaySends(channel, plan, sent)| ==
            if !plan.Replay? then 0 else if sent < |plan.page.pubs| then sent + 1 else sent
  {
  }

  lemma {:induction false} PageAt(log: Log, from: nat, limit: nat, i: nat)
    requires ValidLog(log) && limit > 0 && i < |PageOf(log, from, limit).pubs|
    ensures var o := Max(from, First(log)) + i;
            o <= |log.accepted| && PageOf(log, from, limit).pubs[i] == log.accepted[o - 1]
  {
    PageContents(log, from, limit);
  }

  lemma {:induction false} ReplayAt(w: World, resume: Option<Snapshot>, t: Turn, i: nat)
    requires ValidWorld(w) && TurnOk(w, resume, t) && t.sub.recover && 0 <= t.budget <= MAX_RECOVERED
    requires t.plan.Replay? && i < |t.sends| - 1
    ensures IsReplay(t.sends[i], LogOf(w, t.sub.channel), t.sub.channel, Wanted(w, t.sub, resume), i, t.res.pubCount)
  {
    PlanMeans(w, t.sub, resume, t.budget);
    assert t.sends[i] == t.sends[..|t.sends| - 1][i];
    SendAt(t.sub.channel, t.plan, t.res.pubCount, i);
    PageAt(LogOf(w, t.sub.channel), Wanted(w, t.sub, resume), t.plan.limit, i);
  }

  lemma {:induction false} ReplayCount(w: World, resume: Option<Snapshot>, t: Turn)
    requires ValidWorld(w) && TurnOk(w, resume, t) && t.sub.recover && 0 <= t.budget <= MAX_RECOVERED
    ensures t.sends != [] && t.res.pubCount <= |t.sends| - 1 <= Allowance(w, t.sub.channel, t.budget)
    ensures |t.sends| > 1 ==> Served(w, t.sub, resume) && t.plan.Replay?
  {
    PlanMeans(w, t.sub, resume, t.budget);
    SendCount(t.sub.channel, t.plan, t.res.pubCount);
    if t.plan.Replay? {
      PageSize(LogOf(w, t.sub.channel), Wanted(w, t.sub, resume), t.plan.limit);
    }
  }

  lemma {:induction false} TurnReplays(w: World, resume: Option<Snapshot>, t: Turn)
    requires ValidWorld(w) && TurnOk(w, resume, t) && t.sub.recover && 0 <= t.budget <= MAX_RECOVERED
    ensures ReplaysOnly(w, resume, t)
  {
    ReplayCount(w, resume, t);
    var log, wanted := LogOf(w, t.sub.channel), Wanted(w, t.sub, resume);
    forall i | 0 <= i < |t.sends| - 1 ensures IsReplay(t.sends[i], log, t.sub.channel, wanted, i, t.res.pubCount) {
      ReplayAt(w, resume, t, i);
    }
  }

  lemma {:induction false} TurnWithinBudget(w: World, resume: Option<Snapshot>, t: Turn)
    requires ValidWorld(w) && TurnOk(w, resume, t) && t.budget >= 0
    ensures t.res.pubCount <= t.budget
  {
    if t.plan.Replay? {
      PlanWithinBudget(w, t.sub, resume, t.budget);
    }
  }

  lemma {:induction false} SpendsWithin(w: World, resume: Option<Snapshot>, subs: seq<Subscription>, turns: seq<Turn>,
                                        i: nat)
    requires ValidWorld(w) && RequestTurns(w, resume, subs, turns) && i < |turns|
    ensures Spent(turns[..i]) <= MAX_RECOVERED ==> turns[i].res.pubCount <= MAX_RECOVERED - Spent(turns[..i])
  {
    var t := turns[i];
    assert t.budget == MAX_RECOVERED - Spent(turns[..i]) && TurnOk(w, resume, t);
    if t.budget >= 0 {
      TurnWithinBudget(w, resume, t);
    }
  }

  lemma {:induction false} SpentStep(turns: seq<Turn>, i: nat)
    requires i < |turns|
    ensures Spent(turns[..i + 1]) == Spent(turns[..i]) + turns[i].res.pubCount
  {
    assert turns[..i + 1][..i] == turns[..i];
  }

  lemma {:induction false} BudgetLasts(w: World, resume: Option<Snapshot>, subs: seq<Subscription>, turns: seq<Turn>,
                                       i: nat)
    requires ValidWorld(w) && RequestTurns(w, resume, subs, turns) && i <= |turns|
    ensures 0 <= MAX_RECOVERED - Spent(turns[..i]) <= MAX_RECOVERED
    decreases i
  {
    if i > 0 {
      BudgetLasts(w, resume, subs, turns, i - 1);
      SpentStep(turns, i - 1);
      SpendsWithin(w, resume, subs, turns, i - 1);
    }
  }

  /**
   What a request gets, stated on its inputs: each requested channel is skipped
   iff it is empty, a wildcard, switched off by its policy's recover, history or
   transient-only, or without a fresh start and any known offset; and otherwise
   ends, reports and replays as its log, its policy's limit and the shared budget say.
   */
  lemma {:induction false} RequestMeans(w: World, resume: Option<Snapshot>, subs: seq<Subscription>, turns: seq<Turn>,
                                        i: nat)
    requires ValidWorld(w) && RequestTurns(w, resume, Requested(subs), turns) && i < |turns|
    ensures turns[i].sub == Requested(subs)[i] && 0 <= turns[i].budget <= MAX_RECOVERED
    ensures turns[i].budget == 1000 - Spent(turns[..i])
    ensures EndsAs(w, resume, turns[i]) && Reports(w, resume, turns[i]) && ReportsGap(w, resume, turns[i])
    ensures ReplaysOnly(w, resume, turns[i])
    ensures turns[i].res.epoch == w.epoch
  {
    RequestedMembers(subs);
    assert Requested(subs)[i] in Requested(subs);
    BudgetLasts(w, resume, Requested(subs), turns, i);
    TurnEnds(w, resume, turns[i]);
    TurnReports(w, resume, turns[i]);
    TurnGap(w, resume, turns[i]);
    TurnReplays(w, resume, turns[i]);
  }

  /**
   No replay without a licence: every replay frame of a request is for a channel the
   request asked to recover, ordinary and switched on by its policy.
   */
  lemma {:induction false} ReplaysAreLicensed(w: World, resume: Option<Snapshot>, subs: seq<Subscription>,
                                              turns: seq<Turn>, k: nat)
    requires ValidWorld(w) && RequestTurns(w, resume, Requested(subs), turns)
    requires k < |Sends(turns)| && Sends(turns)[k].frame.ReplayFrame?
    ensures exists sub :: sub in subs && sub.recover && sub.channel == Sends(turns)[k].frame.channel &&
                          Served(w, sub, resume)
  {
    RequestedMembers(subs);
    var i, j := SentInTurn(turns, k);
    RequestMeans(w, resume, subs, turns, i);
    ReplayOfTurn(w, resume, turns[i], j);
    assert turns[i].sub in Requested(subs);
  }

  lemma {:induction false} ReplayOfTurn(w: World, resume: Option<Snapshot>, t: Turn, j: nat)
    requires ValidWorld(w) && t.budget >= 0 && ReplaysOnly(w, resume, t) && ChannelSends(t.sends, t.plan, t.res)
    requires j < |t.sends| && t.sends[j].frame.ReplayFrame?
    ensures t.sends[j].frame.channel == t.sub.channel && Served(w, t.sub, resume)
  {
    assert j < |t.sends| - 1;
    var log, wanted := LogOf(w, t.sub.channel), Wanted(w, t.sub, resume);
    assert IsReplay(t.sends[j], log, t.sub.channel, wanted, j, t.res.pubCount);
  }

  /** The k-th send of a request is some send of some turn. */
  lemma {:induction false} SentInTurn(turns: seq<Turn>, k: nat) returns (i: nat, j: nat)
    requires k < |Sends(turns)|
    ensures i < |turns| && j < |turns[i].sends| && Sends(turns)[k] == turns[i].sends[j]
    decreases |turns|
  {
    var n := |turns| - 1;
    if k < |Sends(turns[..n])| {
      i, j := SentInTurn(turns[..n], k);
    } else {
      i, j := n, k - |Sends(turns[..n])|;
    }
  }

  // ----------------------------------------------------- the announced state

  datatype RecoverState = StateNone | StateSkipped | StatePending

  /** What SubscribeAck announces before anything streams. */
  function AnnouncedState(w: World, subs: seq<Subscription>, resume: Option<Snapshot>): RecoverState {
    var anyRecover := exists i | 0 <= i < |subs| :: subs[i].recover;
    var anyWillStream := exists i | 0 <= i < |subs| :: subs[i].recover && !RecoverySkip(w, subs[i], resume);
    if !anyRecover then StateNone else if anyWillStream then StatePending else StateSkipped
  }

  /** What the stream turned out to be. */
  function ObservedState(turns: seq<Turn>): RecoverState {
    if turns == [] then StateNone
    else if exists i | 0 <= i < |turns| :: turns[i].res.status != Skipped then StatePending
    else StateSkipped
  }

  /** A subscription with the empty channel name that the gates would let through. */
  predicate EmptyButUngated(w: World, sub: Subscription, resume: Option<Snapshot>) {
    sub.channel == "" && sub.recover && Open(w, sub, resume)
  }

  predicate WillStream(w: World, sub: Subscription, resume: Option<Snapshot>) {
    sub.recover && Served(w, sub, resume)
  }

  /**
   The announcement comes true, unless the only subscription it counted on was
   an ungated empty channel, which the replay refuses.
   */
  lemma {:induction false} AnnouncementComesTrueIff(w: World, subs: seq<Subscription>, resume: Option<Snapshot>,
                                                    turns: seq<Turn>)
    requires ValidWorld(w) && RequestTurns(w, resume, Requested(subs), turns)
    ensures AnnouncedState(w, subs, resume) == ObservedState(turns) <==>
            ((exists sub :: sub in subs && EmptyButUngated(w, sub, resume)) ==>
             exists sub :: sub in subs && WillStream(w, sub, resume))
  {
    ObservedIffWillStream(w, subs, resume, turns);
    forall sub | sub in subs ensures RecoverySkip(w, sub, resume) <==> !sub.recover || !Open(w, sub, resume) {
      SkipIffNotOpen(w, sub, resume);
    }
    if sub :| sub in subs && sub.recover && Open(w, sub, resume) {
      assert WillStream(w, sub, resume) || EmptyButUngated(w, sub, resume);
    }
  }

  /** Turn by turn: a requested channel is skipped iff nothing will be streamed for it. */
  lemma {:induction false} TurnsAsGated(w: World, subs: seq<Subscription>, resume: Option<Snapshot>, turns: seq<Turn>)
    requires ValidWorld(w) && RequestTurns(w, resume, Requested(subs), turns)
    ensures |turns| == |Requested(subs)|
    ensures forall i | 0 <= i < |turns| ::
              Requested(subs)[i] in subs && Requested(subs)[i].recover &&
              (turns[i].res.status == Skipped <==> !WillStream(w, Requested(subs)[i], resume))
  {
    RequestedMembers(subs);
    var rs := Requested(subs);
    forall i | 0 <= i < |rs|
      ensures rs[i] in subs && rs[i].recover &&
              (turns[i].res.status == Skipped <==> !WillStream(w, rs[i], resume))
    {
      assert rs[i] in rs;
      SkippedIffGated(w, resume, turns[i]);
    }
  }

  lemma {:induction false} NoneIffNotRequested(subs: seq<Subscription>)
    ensures Requested(subs) == [] <==> !exists sub :: sub in subs && sub.recover
  {
    RequestedMembers(subs);
    var rs := Requested(subs);
    if sub :| sub in subs && sub.recover {
      assert sub in rs;
    }
    if rs != [] {
      assert rs[0] in rs;
    }
  }

  lemma {:induction false} SomeTurnStreams(w: World, subs: seq<Subscription>, resume: Option<Snapshot>,
                                           turns: seq<Turn>)
    requires ValidWorld(w) && RequestTurns(w, resume, Requested(subs), turns)
    ensures (exists i | 0 <= i < |turns| :: turns[i].res.status != Skipped) <==>
            exists sub :: sub in subs && WillStream(w, sub, resume)
  {
    TurnsAsGated(w, subs, resume, turns);
    RequestedMembers(subs);
    var rs := Requested(subs);
    if sub :| sub in subs && WillStream(w, sub, resume) {
      assert sub in rs;
      var j :| 0 <= j < |rs| && rs[j] == sub;
      assert turns[j].res.status != Skipped;
    }
  }

  lemma {:induction false} ObservedIffWillStream(w: World, subs: seq<Subscription>, resume: Option<Snapshot>,
                                                 turns: seq<Turn>)
    requires ValidWorld(w) && RequestTurns(w, resume, Requested(subs), turns)
    ensures ObservedState(turns).StateNone? <==> !exists sub :: sub in subs && sub.recover
    ensures ObservedState(turns).StatePending? <==> exists sub :: sub in subs && WillStream(w, sub, resume)
  {
    NoneIffNotRequested(subs);
    SomeTurnStreams(w, subs, resume, turns);
  }

  lemma {:induction false} RequestedMembers(subs: seq<Subscription>)
    ensures forall sub :: sub in Requested(subs) <==> sub in subs && sub.recover
  {
    if subs != [] {
      var n := |subs| - 1;
      RequestedMembers(subs[..n]);
      assert subs == subs[..n] + [subs[n]];
    }
  }

  lemma {:induction false} SkippedIffGated(w: World, resume: Option<Snapshot>, t: Turn)
    requires ValidWorld(w) && TurnOk(w, resume, t) && t.sub.recover
    ensures t.res.status == Skipped <==> !WillStream(w, t.sub, resume)
  {
    SkipIffNotOpen(w, t.sub, resume);
    if WillStream(w, t.sub, resume) {
      GatesAgree(w, t.sub, resume);
    }
  }

  // ------------------------------------------------------------------ rounds

  /** One round of a client that recovers a channel from its cursor, every send succeeding. */
  function RoundPubs(log: Log, cursor: nat, limit: nat): (pubs: seq<Publication>)
    requires ValidLog(log) && limit > 0
    ensures |pubs| <= limit
  {
    PageOf(log, After(cursor), limit).pubs
  }

  predicate RoundCaughtUp(log: Log, cursor: nat, limit: nat)
    requires ValidLog(log) && limit > 0
  {
    var page := PageOf(log, After(cursor), limit);
    |page.pubs| != limit && !(page.gap && page.pubs == [])
  }

  /** The round is what recoverSubscription does on a request of its own with that cursor. */
  lemma {:induction false} RoundIsRecoverSubscription(w: World, ch: string, cursor: nat)
    requires ValidWorld(w) && ch != "" && cursor < TWO64 && ch !in w.broken
    requires !RecoverySkip(w, Subscription(ch, true, false, Some(cursor)), None)
    ensures var sub, log := Subscription(ch, true, false, Some(cursor)), LogOf(w, ch);
            var plan, limit := PlanOf(w, sub, None, MAX_RECOVERED), LimitOf(w, ch, MAX_RECOVERED);
            limit > 0 && plan.Replay? && plan.page.pubs == RoundPubs(log, cursor, limit) &&
            var res := ResultOf(w, sub, None, plan, |plan.page.pubs|);
            (res.status == Caught <==> RoundCaughtUp(log, cursor, limit)) &&
            res.position == Some(Echo(log, cursor, limit))
  {}

  /** The position a round echoes. */
  function Echo(log: Log, cursor: nat, limit: nat): nat
    requires ValidLog(log) && limit > 0
  {
    var pubs := RoundPubs(log, cursor, limit);
    if pubs == [] then cursor else pubs[|pubs| - 1].offset
  }

  /** Rounds repeated from each echoed position until one is caught up, or makes no headway. */
  function Replayed(log: Log, cursor: nat, limit: nat): seq<Publication>
    requires ValidLog(log) && limit > 0 && cursor < TWO64 - 1 && |log.accepted| < TWO64 - 1
    decreases |log.accepted| - cursor
  {
    var pubs := RoundPubs(log, cursor, limit);
    if RoundCaughtUp(log, cursor, limit) || pubs == [] then pubs else
    EchoAdvances(log, cursor, limit);
    pubs + Replayed(log, Echo(log, cursor, limit), limit)
  }

  /** How many rounds that takes. */
  function Rounds(log: Log, cursor: nat, limit: nat): nat
    requires ValidLog(log) && limit > 0 && cursor < TWO64 - 1 && |log.accepted| < TWO64 - 1
    decreases |log.accepted| - cursor
  {
    var pubs := RoundPubs(log, cursor, limit);
    if RoundCaughtUp(log, cursor, limit) || pubs == [] then 1 else
    EchoAdvances(log, cursor, limit);
    1 + Rounds(log, Echo(log, cursor, limit), limit)
  }

  lemma {:induction false} EchoAdvances(log: Log, cursor: nat, limit: nat)
    requires ValidLog(log) && limit > 0 && cursor < TWO64 - 1 && RoundPubs(log, cursor, limit) != []
    ensures cursor < Echo(log, cursor, limit) <= |log.accepted|
  {
    PageContents(log, After(cursor), limit);
  }

  /** The last round of the sequence is caught up. */
  predicate EndsCaughtUp(log: Log, cursor: nat, limit: nat)
    requires ValidLog(log) && limit > 0 && cursor < TWO64 - 1 && |log.accepted| < TWO64 - 1
    decreases |log.accepted| - cursor
  {
    if RoundCaughtUp(log, cursor, limit) then true
    else if RoundPubs(log, cursor, limit) == [] then false
    else EchoAdvances(log, cursor, limit); EndsCaughtUp(log, Echo(log, cursor, limit), limit)
  }

  lemma {:induction false} UncutRound(log: Log, cursor: nat, limit: nat)
    requires ValidLog(log) && limit > 0
    ensures CutRound(log, cursor, limit, limit) == (RoundPubs(log, cursor, limit), Echo(log, cursor, limit))
  {
    var pubs := RoundPubs(log, cursor, limit);
    assert pubs[..|pubs|] == pubs;
  }

  lemma {:induction false} ShortRoundIsAll(log: Log, cursor: nat, limit: nat)
    requires ValidLog(log) && limit > 0 && cursor < TWO64 - 1 && |RoundPubs(log, cursor, limit)| < limit
    ensures RoundPubs(log, cursor, limit) == Slice(log, cursor + 1, |log.accepted|)
    ensures RoundCaughtUp(log, cursor, limit) <==> log.retained > 0
  {}

  /**
   Repeated rounds replay every retained publication after the cursor exactly
   once and in order, in len / limit + 1 rounds, and end caught up exactly when
   the channel retains anything at all.
   */
  lemma {:induction false} RoundsCatchUp(log: Log, cursor: nat, limit: nat)
    requires ValidLog(log) && limit > 0 && cursor < TWO64 - 1 && |log.accepted| < TWO64 - 1
    ensures Replayed(log, cursor, limit) == Slice(log, cursor + 1, |log.accepted|)
    ensures EndsCaughtUp(log, cursor, limit) <==> log.retained > 0
    ensures Rounds(log, cursor, limit) == |Slice(log, cursor + 1, |log.accepted|)| / limit + 1
  {
    RoundsReplayAll(log, cursor, limit);
    RoundsEnd(log, cursor, limit);
    RoundsCount(log, cursor, limit);
  }

  lemma {:induction false} ReplayedUnfolds(log: Log, cursor: nat, limit: nat)
    requires ValidLog(log) && limit > 0 && cursor < TWO64 - 1 && |log.accepted| < TWO64 - 1
    ensures var pubs := RoundPubs(log, cursor, limit);
            if |pubs| < limit then Replayed(log, cursor, limit) == pubs
            else cursor < Echo(log, cursor, limit) <= |log.accepted| &&
                 Replayed(log, cursor, limit) == pubs + Replayed(log, Echo(log, cursor, limit), limit)
  {
    if |RoundPubs(log, cursor, limit)| < limit {
      ShortRoundIsAll(log, cursor, limit);
    } else {
      EchoAdvances(log, cursor, limit);
    }
  }

  /** A round that is full moves the number behind on by limit. */
  lemma {:induction false} FullRoundMoves(log: Log, cursor: nat, limit: nat)
    requires ValidLog(log) && limit > 0 && cursor < TWO64 - 1 && |RoundPubs(log, cursor, limit)| == limit
    ensures var lo := Behind(log, cursor);
            lo + limit <= |log.accepted| && Behind(log, Echo(log, cursor, limit)) == lo + limit &&
            RoundPubs(log, cursor, limit) == log.accepted[lo..lo + limit]
  {
    UncutRound(log, cursor, limit);
    CutRoundIs(log, cursor, limit, limit);
  }

  lemma {:induction false} ReplayedIs(log: Log, cursor: nat, limit: nat)
    requires ValidLog(log) && limit > 0 && cursor < TWO64 - 1 && |log.accepted| < TWO64 - 1
    ensures Replayed(log, cursor, limit) == log.accepted[Behind(log, cursor)..]
    decreases |log.accepted| - cursor
  {
    ReplayedUnfolds(log, cursor, limit);
    if |RoundPubs(log, cursor, limit)| < limit {
      RoundIs(log, cursor, limit);
    } else {
      var lo, echo := Behind(log, cursor), Echo(log, cursor, limit);
      ReplayedIs(log, echo, limit);
      FullRoundMoves(log, cursor, limit);
      Joins(log.accepted, lo, lo + limit, RoundPubs(log, cursor, limit), Replayed(log, echo, limit));
    }
  }

  lemma {:induction false} Joins<T>(s: seq<T>, lo: nat, hi: nat, a: seq<T>, b: seq<T>)
    requires lo <= hi <= |s| && a == s[lo..hi] && b == s[hi..]
    ensures a + b == s[lo..]
  {
  }

  lemma {:induction false} RoundsReplayAll(log: Log, cursor: nat, limit: nat)
    requires ValidLog(log) && limit > 0 && cursor < TWO64 - 1 && |log.accepted| < TWO64 - 1
    ensures Replayed(log, cursor, limit) == Slice(log, cursor + 1, |log.accepted|)
  {
    ReplayedIs(log, cursor, limit);
    TailIs(log, cursor);
  }

  lemma {:induction false} RoundsEnd(log: Log, cursor: nat, limit: nat)
    requires ValidLog(log) && limit > 0 && cursor < TWO64 - 1 && |log.accepted| < TWO64 - 1
    ensures EndsCaughtUp(log, cursor, limit) <==> log.retained > 0
    decreases |log.accepted| - cursor
  {
    if |RoundPubs(log, cursor, limit)| < limit {
      ShortRoundIsAll(log, cursor, limit);
    } else {
      EchoAdvances(log, cursor, limit);
      RoundsEnd(log, Echo(log, cursor, limit), limit);
    }
  }

  lemma {:induction false} RoundsUnfold(log: Log, cursor: nat, limit: nat)
    requires ValidLog(log) && limit > 0 && cursor < TWO64 - 1 && |log.accepted| < TWO64 - 1
    ensures if |RoundPubs(log, cursor, limit)| < limit then Rounds(log, cursor, limit) == 1
            else cursor < Echo(log, cursor, limit) <= |log.accepted| &&
                 Rounds(log, cursor, limit) == 1 + Rounds(log, Echo(log, cursor, limit), limit)
  {
    if |RoundPubs(log, cursor, limit)| < limit {
      ShortRoundIsAll(log, cursor, limit);
    } else {
      EchoAdvances(log, cursor, limit);
    }
  }

  /** Full rounds while at least limit publications are left, and a last one. */
  function RoundsFor(left: nat, limit: nat): nat
    requires limit > 0
  {
    if left < limit then 1 else 1 + RoundsFor(left - limit, limit)
  }

  lemma {:induction false} RoundsForIs(left: nat, limit: nat)
    requires limit > 0
    ensures RoundsFor(left, limit) == left / limit + 1
    decreases left
  {
    if left < limit {
      Quotient(0, left, limit);
    } else {
      RoundsForIs(left - limit, limit);
      OneMoreRound(left - limit, limit);
    }
  }

  lemma {:induction false} RoundsAre(log: Log, cursor: nat, limit: nat)
    requires ValidLog(log) && limit > 0 && cursor < TWO64 - 1 && |log.accepted| < TWO64 - 1
    ensures Rounds(log, cursor, limit) == RoundsFor(|log.accepted| - Behind(log, cursor), limit)
    decreases |log.accepted| - cursor
  {
    var left, echo := |log.accepted| - Behind(log, cursor), Echo(log, cursor, limit);
    RoundsUnfold(log, cursor, limit);
    if |RoundPubs(log, cursor, limit)| < limit {
      ShortIsLess(log, cursor, limit);
    } else {
      RoundsAre(log, echo, limit);
      FullRoundMoves(log, cursor, limit);
      assert RoundsFor(left, limit) == 1 + RoundsFor(left - limit, limit);
    }
  }

  lemma {:induction false} ShortIsLess(log: Log, cursor: nat, limit: nat)
    requires ValidLog(log) && limit > 0 && cursor < TWO64 - 1 && |RoundPubs(log, cursor, limit)| < limit
    ensures |log.accepted| - Behind(log, cursor) < limit
  {
    RoundIs(log, cursor, limit);
  }

  lemma {:induction false} RoundsCount(log: Log, cursor: nat, limit: nat)
    requires ValidLog(log) && limit > 0 && cursor < TWO64 - 1 && |log.accepted| < TWO64 - 1
    ensures Rounds(log, cursor, limit) == |Slice(log, cursor + 1, |log.accepted|)| / limit + 1
  {
    RoundsAre(log, cursor, limit);
    TailIs(log, cursor);
    RoundsForIs(|log.accepted| - Behind(log, cursor), limit);
  }

  lemma {:induction false} OneMoreRound(rest: nat, limit: nat)
    requires limit > 0
    ensures (limit + rest) / limit == rest / limit + 1
  {
    Quotient(rest / limit + 1, rest % limit, limit);
    assert (rest / limit + 1) * limit + rest % limit == limit + rest;
  }

  lemma {:induction false} Quotient(q: nat, r: nat, d: nat)
    requires r < d
    ensures (q * d + r) / d == q
  {
    var a := q * d + r;
    var k := a / d;
    assert a == d * k + a % d;
    assert d * (k - q) == r - a % d;
    SmallMultiple(d, k - q);
  }

  lemma {:induction false} SmallMultiple(d: nat, y: int)
    requires d * y < d && 0 < d * y + d
    ensures y == 0
  {}

  /** The frames of a round of which only the first k sends succeed, and the position it echoes. */
  function CutRound(log: Log, cursor: nat, limit: nat, k: nat): (r: (seq<Publication>, nat))
    requires ValidLog(log) && limit > 0
  {
    var pubs := RoundPubs(log, cursor, limit);
    var sent := pubs[..Min(k, |pubs|)];
    (sent, if sent == [] then cursor else sent[|sent| - 1].offset)
  }

  /** Rounds whose sends fail after ks[0], ks[1], ... frames, each continuing from the last echo. */
  function CutRounds(log: Log, cursor: nat, limit: nat, ks: seq<nat>): (r: (seq<Publication>, nat))
    requires ValidLog(log) && limit > 0 && |log.accepted| < TWO64 - 1 && cursor < TWO64 - 1
    ensures r.1 < TWO64 - 1
    decreases |ks|
  {
    if ks == [] then ([], cursor) else
    CutRoundSplits(log, cursor, limit, ks[0]);
    var step := CutRound(log, cursor, limit, ks[0]);
    var tail := CutRounds(log, step.1, limit, ks[1..]);
    (step.0 + tail.0, tail.1)
  }

  /**
   However sends fail, rounds that continue from the echoed position lose and
   repeat nothing: what they sent, followed by what is retained after the last
   echo, is what was retained after the first cursor.
   */
  lemma {:induction false} FailedSendsLoseNothing(log: Log, cursor: nat, limit: nat, ks: seq<nat>)
    requires ValidLog(log) && limit > 0 && |log.accepted| < TWO64 - 1 && cursor < TWO64 - 1
    ensures var r := CutRounds(log, cursor, limit, ks);
            r.0 + Slice(log, r.1 + 1, |log.accepted|) == Slice(log, cursor + 1, |log.accepted|)
  {
    var left: nat -> seq<Publication> := (c: nat) => Slice(log, c + 1, |log.accepted|);
    LeftSplits(log, limit, left);
    CutRoundsTelescope(log, cursor, limit, ks, left);
  }

  lemma {:induction false} LeftSplits(log: Log, limit: nat, left: nat -> seq<Publication>)
    requires ValidLog(log) && limit > 0 && |log.accepted| < TWO64 - 1
    requires forall c: nat :: left(c) == Slice(log, c + 1, |log.accepted|)
    ensures forall c: nat, k: nat | c < TWO64 - 1 ::
              left(c) == CutRound(log, c, limit, k).0 + left(CutRound(log, c, limit, k).1)
  {
    forall c: nat, k: nat | c < TWO64 - 1
      ensures left(c) == CutRound(log, c, limit, k).0 + left(CutRound(log, c, limit, k).1)
    {
      CutRoundSplits(log, c, limit, k);
    }
  }

  /** For any account of what is left after a cursor that one cut round respects. */
  lemma {:induction false} CutRoundsTelescope(log: Log, cursor: nat, limit: nat, ks: seq<nat>,
                                              left: nat -> seq<Publication>)
    requires ValidLog(log) && limit > 0 && |log.accepted| < TWO64 - 1 && cursor < TWO64 - 1
    requires forall c: nat, k: nat | c < TWO64 - 1 ::
               left(c) == CutRound(log, c, limit, k).0 + left(CutRound(log, c, limit, k).1)
    ensures var r := CutRounds(log, cursor, limit, ks); r.0 + left(r.1) == left(cursor)
    decreases |ks|
  {
    if ks == [] {
      assert [] + left(cursor) == left(cursor);
    } else {
      CutRoundSplits(log, cursor, limit, ks[0]);
      var step := CutRound(log, cursor, limit, ks[0]);
      var tail := CutRounds(log, step.1, limit, ks[1..]);
      CutRoundsTelescope(log, step.1, limit, ks[1..], left);
      Chain(step.0, tail.0, left(cursor), left(step.1), left(tail.1));
    }
  }

  lemma {:induction false} Chain<T>(s: seq<T>, t: seq<T>, a: seq<T>, b: seq<T>, c: seq<T>)
    requires a == s + b && t + c == b
    ensures (s + t) + c == a
  {}

  lemma {:induction false} CutRoundSplits(log: Log, cursor: nat, limit: nat, k: nat)
    requires ValidLog(log) && limit > 0 && |log.accepted| < TWO64 - 1 && cursor < TWO64 - 1
    ensures var r := CutRound(log, cursor, limit, k);
            r.1 < TWO64 - 1 &&
            Slice(log, cursor + 1, |log.accepted|) == r.0 + Slice(log, r.1 + 1, |log.accepted|)
  {
    CutRoundIs(log, cursor, limit, k);
    var sent, next := CutRound(log, cursor, limit, k).0, CutRound(log, cursor, limit, k).1;
    assert sent == log.accepted[Behind(log, cursor)..Behind(log, next)];
    assert next < TWO64 - 1;
    TailSplits(log, cursor, sent, next);
  }

  lemma {:induction false} TailSplits(log: Log, cursor: nat, sent: seq<Publication>, next: nat)
    requires ValidLog(log) && Behind(log, next) == Behind(log, cursor) + |sent|
    requires sent == log.accepted[Behind(log, cursor)..Behind(log, next)]
    ensures Slice(log, cursor + 1, |log.accepted|) == sent + Slice(log, next + 1, |log.accepted|)
  {
    TailIs(log, cursor);
    TailIs(log, next);
    Joins(log.accepted, Behind(log, cursor), Behind(log, next), sent, Slice(log, next + 1, |log.accepted|));
  }

  /** How many accepted publications are at or before the cursor, or lost. */
  function Behind(log: Log, cursor: nat): (lo: nat)
    requires ValidLog(log)
    ensures lo <= |log.accepted|
  {
    Min(Max(cursor + 1, First(log)) - 1, |log.accepted|)
  }

  lemma {:induction false} TailIs(log: Log, cursor: nat)
    requires ValidLog(log)
    ensures Slice(log, cursor + 1, |log.accepted|) == log.accepted[Behind(log, cursor)..]
  {
  }

  lemma {:induction false} RoundIs(log: Log, cursor: nat, limit: nat)
    requires ValidLog(log) && limit > 0 && cursor < TWO64 - 1
    ensures var lo := Behind(log, cursor);
            RoundPubs(log, cursor, limit) == log.accepted[lo..Min(lo + limit, |log.accepted|)]
  {
  }

  lemma {:induction false} SliceOfSlice<T>(s: seq<T>, lo: nat, hi: nat, n: nat)
    requires lo + n <= hi <= |s|
    ensures s[lo..hi][..n] == s[lo..lo + n]
  {
  }

  lemma {:induction false} CutRoundIs(log: Log, cursor: nat, limit: nat, k: nat)
    requires ValidLog(log) && limit > 0 && cursor < TWO64 - 1
    ensures var r, lo := CutRound(log, cursor, limit, k), Behind(log, cursor);
            lo + |r.0| <= |log.accepted| && r.0 == log.accepted[lo..lo + |r.0|] &&
            Behind(log, r.1) == lo + |r.0| && (r.1 == cursor || r.1 <= |log.accepted|)
  {
    RoundIs(log, cursor, limit);
    var r, lo := CutRound(log, cursor, limit, k), Behind(log, cursor);
    var pubs := RoundPubs(log, cursor, limit);
    assert r.0 == pubs[..|r.0|];
    SliceOfSlice(log.accepted, lo, lo + |pubs|, |r.0|);
    if r.0 != [] {
      assert r.0[|r.0| - 1] == log.accepted[lo + |r.0| - 1];
      assert r.1 == lo + |r.0|;
    }
  }

  /** The one cursor outside that range wraps: the round replays what the client already has. */
  lemma {:induction false} LastCursorStartsOver(log: Log, limit: nat)
    requires ValidLog(log) && limit > 0 && log.retained > 0
    ensures var page := PageOf(log, After(TWO64 - 1), limit);
            page.pubs != [] && page.pubs[0].offset == First(log) && !page.gap
  {
    PageContents(log, 0, limit);
  }
}

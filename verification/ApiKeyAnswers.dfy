/**
 What every request for a Server API key gets, told by the events before it: the
 proxy's last word on the key while it stands, the breaker, or a call
 (internal/serverapi/auth.go).
 */
module ApiKeyAnswers {
  import opened Options
  import opened ApiKeyCache

  // -------------------------------------------------- the proxy's last word

  /** The step decides about a key: the proxy answers a call for it, or the key is turned away at the door. */
  predicate Decides(s: State, e: Event, key: Key) {
    Enabled(s, e) && ((e.Answer? && s.running[e.call].key == key) || (e.Reject? && e.key == key))
  }

  /** An acceptance is worth its lifetime from the start of the call, a refusal 5 seconds, an error 2. */
  function Worth(v: Verdict, start: int): Entry {
    match v
    case Allow(id, ttl) => Granted(id, start + ttl)
    case Deny => Refused(Rejected, start + 5_000_000_000)
    case Error => Refused(Unavailable, start + 2_000_000_000)
  }

  /** What was decided, and until when. */
  function Word(s: State, e: Event): Entry
    requires Enabled(s, e) && (e.Answer? || e.Reject?)
  {
    if e.Reject? then Refused(Rejected, e.at + 5_000_000_000) else Worth(e.v, s.running[e.call].start)
  }

  /** The step forgets what was decided: 1024 keys are known and this one makes room, or it is found to be over. */
  predicate Forgets(s: State, e: Event, key: Key) {
    Enabled(s, e) && key in s.r.entries &&
    (((e.Answer? || e.Reject?) && |s.r.entries| >= 1024 && e.victim == key) ||
     (e.Verify? && e.key == key && s.r.entries[key].expireAt <= e.now))
  }

  /** From the i-th event of the run on nothing was decided about the key, and nothing about it forgotten. */
  predicate Quiet(clock: int, es: seq<Event>, key: Key, i: nat) {
    forall j | i <= j < |es| ::
      !Decides(Run(clock, es[..j]), es[j], key) && !Forgets(Run(clock, es[..j]), es[j], key)
  }

  /** The i-th event decided about the key, and that was neither replaced nor forgotten since. */
  predicate Stands(clock: int, es: seq<Event>, key: Key, i: nat) {
    i < |es| && Decides(Run(clock, es[..i]), es[i], key) && Quiet(clock, es, key, i + 1)
  }

  lemma {:induction false} VerifyAt(r: Resolver, key: Key, now: int, at: int, call: nat, k: Key)
    ensures var n := Enter(r, key, now, at, call);
            (k in n.entries <==> k in r.entries && !(k == key && r.entries[k].expireAt <= now)) &&
            (k in n.entries ==> n.entries[k] == r.entries[k])
  {
  }

  lemma {:induction false} StoredAt(r: Resolver, key: Key, e: Entry, victim: Key, k: Key)
    ensures var n := StoreEntry(r, key, e, victim);
            (k in n.entries <==> k == key || (k in r.entries && !(|r.entries| >= 1024 && k == victim))) &&
            (k in n.entries ==> n.entries[k] == if k == key then e else r.entries[k])
  {
  }

  lemma {:induction false} FinishedAt(r: Resolver, key: Key, v: Verdict, start: int, at: int, victim: Key, k: Key)
    ensures var n := Finish(r, key, v, start, at, victim);
            (k in n.entries <==> k == key || (k in r.entries && !(|r.entries| >= 1024 && k == victim))) &&
            (k in n.entries ==> n.entries[k] == if k == key then Worth(v, start) else r.entries[k])
  {
    var r1 := r.(inFlight := r.inFlight - {key});
    var r2 := match v case Allow(_, _) => r1.(errors := 0, breaker := None) case Deny => r1.(errors := 0)
                      case Error => RecordError(r1, at);
    assert r2.entries == r.entries;
    assert Finish(r, key, v, start, at, victim) == StoreEntry(r2, key, Worth(v, start), victim);
    StoredAt(r2, key, Worth(v, start), victim, k);
  }

  lemma {:induction false} AnswerAt(s: State, e: Event, k: Key)
    requires Enabled(s, e) && e.Answer?
    ensures var n := Next(s, e).r.entries;
            (k in n <==> Decides(s, e, k) || (k in s.r.entries && !Forgets(s, e, k))) &&
            (k in n ==> n[k] == if Decides(s, e, k) then Word(s, e) else s.r.entries[k])
  {
    var p := s.running[e.call];
    FinishedAt(s.r, p.key, e.v, p.start, e.at, e.victim, k);
    assert Next(s, e).r == Finish(s.r, p.key, e.v, p.start, e.at, e.victim);
  }

  /** How a step changes what is known about a key. */
  lemma {:induction false} KnownStep(s: State, e: Event, k: Key)
    ensures var n := Next(s, e).r.entries;
            (k in n <==> Decides(s, e, k) || (k in s.r.entries && !Forgets(s, e, k))) &&
            (k in n ==> n[k] == if Decides(s, e, k) then Word(s, e) else s.r.entries[k])
  {
    if Enabled(s, e) {
      match e
      case Verify(key, now, at) => VerifyAt(s.r, key, now, at, s.calls, k);
      case Answer(_, _, _, _) => AnswerAt(s, e, k);
      case Reject(key, at, victim) => StoredAt(s.r, key, Refused(Rejected, at + NEGATIVE_TTL), victim, k);
      case _ =>
    }
  }

  lemma {:induction false} QuietStep(clock: int, es: seq<Event>, key: Key, i: nat)
    requires es != [] && i < |es|
    ensures var init, e := es[..|es| - 1], es[|es| - 1];
            var s := Run(clock, init);
            Quiet(clock, es, key, i) <==> Quiet(clock, init, key, i) && !Decides(s, e, key) && !Forgets(s, e, key)
  {
    var init := es[..|es| - 1];
    if Quiet(clock, es, key, i) {
      forall j | i <= j < |init|
        ensures !Decides(Run(clock, init[..j]), init[j], key) && !Forgets(Run(clock, init[..j]), init[j], key)
      {
        assert init[..j] == es[..j];
      }
    } else {
      var j :| i <= j < |es| && (Decides(Run(clock, es[..j]), es[j], key) || Forgets(Run(clock, es[..j]), es[j], key));
      assert j < |init| ==> init[..j] == es[..j] && init[j] == es[j];
    }
  }

  lemma {:induction false} StandsStep(clock: int, es: seq<Event>, key: Key, i: nat)
    requires es != [] && i < |es| - 1
    ensures var init, e := es[..|es| - 1], es[|es| - 1];
            var s := Run(clock, init);
            Stands(clock, es, key, i) <==> Stands(clock, init, key, i) && !Decides(s, e, key) && !Forgets(s, e, key)
  {
    assert es[..|es| - 1][..i] == es[..i];
    QuietStep(clock, es, key, i + 1);
  }

  predicate Holds(s: State, key: Key, word: Entry) {
    key in s.r.entries && s.r.entries[key] == word
  }

  lemma {:induction false} DecidedHolds(s: State, e: Event, key: Key)
    requires Decides(s, e, key)
    ensures Holds(Next(s, e), key, Word(s, e))
  {
    KnownStep(s, e, key);
  }

  lemma {:induction false} StillHolds(s: State, e: Event, key: Key, word: Entry)
    requires Holds(s, key, word) && !Decides(s, e, key) && !Forgets(s, e, key)
    ensures Holds(Next(s, e), key, word)
  {
    KnownStep(s, e, key);
  }

  lemma {:induction false} QuietHolds(clock: int, es: seq<Event>, key: Key, i: nat, word: Entry)
    requires i <= |es| && Quiet(clock, es, key, i) && Holds(Run(clock, es[..i]), key, word)
    ensures Holds(Run(clock, es), key, word)
    decreases |es|
  {
    var n := |es| - 1;
    if i == |es| {
      assert es[..i] == es;
    } else {
      QuietStep(clock, es, key, i);
      assert es[..n][..i] == es[..i];
      QuietHolds(clock, es[..n], key, i, word);
      StillHolds(Run(clock, es[..n]), es[n], key, word);
    }
  }

  /** The cache is the record of what stands, and of nothing else. */
  lemma {:induction false} CacheIsWhatStands(clock: int, es: seq<Event>, key: Key, i: nat)
    requires Stands(clock, es, key, i)
    ensures Holds(Run(clock, es), key, Word(Run(clock, es[..i]), es[i]))
  {
    var s := Run(clock, es[..i]);
    DecidedHolds(s, es[i], key);
    assert es[..i + 1][..i] == es[..i];
    QuietHolds(clock, es, key, i + 1, Word(s, es[i]));
  }

  lemma {:induction false} CachedStands(clock: int, es: seq<Event>, key: Key) returns (i: nat)
    requires key in Run(clock, es).r.entries
    ensures Stands(clock, es, key, i)
    decreases |es|
  {
    var n := |es| - 1;
    var s := Run(clock, es[..n]);
    KnownStep(s, es[n], key);
    i := n;
    if !Decides(s, es[n], key) {
      i := CachedStands(clock, es[..n], key);
      StandsStep(clock, es, key, i);
    }
  }

  // -------------------------------------------------- what a new request gets

  /** Some decision about the key stands and is not over at now. */
  ghost predicate Fresh(clock: int, es: seq<Event>, key: Key, now: int, i: nat) {
    Stands(clock, es, key, i) && now < Word(Run(clock, es[..i]), es[i]).expireAt
  }

  /** The breaker is open and its 30 seconds are not over. */
  predicate Tripped(s: State, now: int) {
    s.r.breaker.Some? && now < s.r.breaker.value + 30_000_000_000
  }

  lemma {:induction false} FreshIffLive(clock: int, es: seq<Event>, key: Key, now: int) returns (i: nat)
    ensures Live(Run(clock, es).r, key, now) <==> Fresh(clock, es, key, now, i)
    ensures Live(Run(clock, es).r, key, now) <==> exists j: nat :: Fresh(clock, es, key, now, j)
    ensures Live(Run(clock, es).r, key, now) ==>
              Run(clock, es).r.entries[key] == Word(Run(clock, es[..i]), es[i])
  {
    i := |es|;
    if key in Run(clock, es).r.entries {
      i := CachedStands(clock, es, key);
      CacheIsWhatStands(clock, es, key, i);
    }
    forall j: nat | Fresh(clock, es, key, now, j) ensures Live(Run(clock, es).r, key, now) {
      CacheIsWhatStands(clock, es, key, j);
    }
  }

  /** The new request is answered at once with what was decided. */
  predicate Told(s: State, n: State, request: nat, word: Entry, now: int) {
    n.awaited == s.awaited && n.waiting == s.waiting && n.calls == s.calls && n.running == s.running &&
    match word
    case Granted(id, _) => n.grants == s.grants + [Grant(request, id, now, None)] && n.refusals == s.refusals
    case Refused(err, _) => n.refusals == s.refusals + [Refusal(request, err, now, None)] && n.grants == s.grants
  }

  /** The new request waits for a call, and nobody is answered. */
  predicate Waits(s: State, n: State, request: nat, call: nat) {
    n.grants == s.grants && n.refusals == s.refusals && n.waiting == s.waiting + {request} &&
    n.awaited == s.awaited[request := call]
  }

  /**
   Every request, in every run: it gets the proxy's last word on its key while that
   stands and is not over; else it is refused while the breaker is tripped; else it
   joins the call for its key that is under way; and only else starts one.
   */
  lemma {:induction false} RequestGets(clock: int, es: seq<Event>, key: Key, now: int, at: int) returns (i: nat)
    requires Enabled(Run(clock, es), Verify(key, now, at))
    ensures Fresh(clock, es, key, now, i) || forall j: nat :: !Fresh(clock, es, key, now, j)
    ensures var s, n, request := Run(clock, es), Next(Run(clock, es), Verify(key, now, at)), |Run(clock, es).requests|;
            n.requests == s.requests + [key] &&
            if Fresh(clock, es, key, now, i) then Told(s, n, request, Word(Run(clock, es[..i]), es[i]), now)
            else if Tripped(s, now) then Told(s, n, request, Refused(Unavailable, now), now)
            else if exists c :: c in s.running && s.running[c].key == key
            then n.calls == s.calls && n.running == s.running &&
                 exists c :: c in s.running && s.running[c].key == key && Waits(s, n, request, c)
            else n.calls == s.calls + 1 && n.running == s.running[s.calls := Pending(key, now)] &&
                 Waits(s, n, request, s.calls)
  {
    i := FreshIffLive(clock, es, key, now);
    RunKeepsBounds(clock, es);
    var s := Run(clock, es);
    if c :| c in s.running && s.running[c].key == key {
      assert CallOk(s, c);
    }
    if key in s.r.inFlight {
      assert s.running[s.r.inFlight[key]].key == key;
    }
  }

  // ------------------------------------------------ what a waiting request gets

  /** What an answer comes to for those who await the call. */
  predicate Comes(left: Left, v: Verdict) {
    match v
    case Allow(id, _) => left == LeftIdentity(id)
    case Deny => left == LeftError(Rejected)
    case Error => left == LeftError(Unavailable)
  }

  /** A finished call was answered once, and left that answer. */
  lemma {:induction false} FinishedByAnswer(clock: int, es: seq<Event>, call: nat) returns (j: nat)
    requires call in Run(clock, es).done
    ensures j < |es| && es[j].Answer? && es[j].call == call && Enabled(Run(clock, es[..j]), es[j])
    ensures Comes(Run(clock, es).done[call], es[j].v)
    decreases |es|
  {
    var n := |es| - 1;
    var s := Run(clock, es[..n]);
    j := n;
    if call in s.done {
      j := FinishedByAnswer(clock, es[..n], call);
      assert es[..n][..j] == es[..j];
      RunKeepsBounds(clock, es[..n]);
      DoneStays(s, es[n], call);
    }
  }

  lemma {:induction false} DoneStays(s: State, e: Event, call: nat)
    requires CallsOk(s) && call in s.done
    ensures call in Next(s, e).done && Next(s, e).done[call] == s.done[call]
  {
    if e.Answer? && Enabled(s, e) {
      assert CallOk(s, e.call);
      var p := s.running[e.call];
      AnsweredLeaves(s, e.call, e.v, e.at, Finish(s.r, p.key, e.v, p.start, e.at, e.victim), call);
    } else {
      DoneKept(s, e);
    }
  }

  lemma {:induction false} AnsweredLeaves(s: State, answered: nat, v: Verdict, at: int, r: Resolver, call: nat)
    requires answered in s.running && call != answered && call in s.done
    ensures var n := Answered(s, answered, v, at, r); call in n.done && n.done[call] == s.done[call]
  {
  }

  lemma {:induction false} DoneKept(s: State, e: Event)
    requires !e.Answer? || !Enabled(s, e)
    ensures Next(s, e).done == s.done
  {
  }

  /** A waiting request gets, once, what the proxy answered to the very call it awaits. */
  lemma {:induction false} WaiterGets(clock: int, es: seq<Event>, request: nat, at: int) returns (j: nat)
    requires Enabled(Run(clock, es), Collect(request, at))
    ensures j < |es| && es[j].Answer? && es[j].call == Run(clock, es).awaited[request]
    ensures Enabled(Run(clock, es[..j]), es[j])
    ensures var s, n := Run(clock, es), Next(Run(clock, es), Collect(request, at));
            var call := s.awaited[request];
            n.waiting == s.waiting - {request} &&
            match es[j].v
            case Allow(id, _) => n.grants == s.grants + [Grant(request, id, at, Some(call))] && n.refusals == s.refusals
            case Deny => n.refusals == s.refusals + [Refusal(request, Rejected, at, Some(call))] && n.grants == s.grants
            case Error =>
              n.refusals == s.refusals + [Refusal(request, Unavailable, at, Some(call))] && n.grants == s.grants
  {
    j := FinishedByAnswer(clock, es, Run(clock, es).awaited[request]);
  }

  /** What the proxy's reply means for a request that awaits the call: an outage, a refusal, or the clamped identity. */
  predicate ReplyMeans(cfg: Config, reply: ProxyReply, s: State, n: State, request: nat, at: int)
    requires request in s.awaited
  {
    var call := s.awaited[request];
    match reply
    case Unreachable =>
      n.refusals == s.refusals + [Refusal(request, Unavailable, at, Some(call))] && n.grants == s.grants
    case TurnedDown => n.refusals == s.refusals + [Refusal(request, Rejected, at, Some(call))] && n.grants == s.grants
    case Identified(info) =>
      n.refusals == s.refusals && |n.grants| == |s.grants| + 1 &&
      var g := n.grants[|s.grants|];
      g.request == request && g.via == Some(call) &&
      g.identity.keyId == (if info.keyId == "" then "unknown" else info.keyId) &&
      (forall c | c in g.identity.caps :: c in info.capabilities && c in cfg.ceiling) &&
      (forall c | c in info.capabilities && c in cfg.ceiling && c in CLOSED_NAMES :: c in g.identity.caps)
  }

  lemma {:induction false} ProxyDecides(cfg: Config, clock: int, es: seq<Event>, request: nat, at: int)
    returns (reply: ProxyReply)
    requires FromProxy(cfg, es) && Enabled(Run(clock, es), Collect(request, at))
    ensures ReplyMeans(cfg, reply, Run(clock, es), Next(Run(clock, es), Collect(request, at)), request, at)
  {
    var j := WaiterGets(clock, es, request, at);
    var r :| es[j].v == VerdictOf(cfg, r);
    reply := r;
    if r.Identified? {
      ClampOnlyNarrows(cfg, r.info, "");
    }
  }

  // --------------------------------------------------------- one answer each

  /** The request has returned, with an identity or an error. */
  predicate Returned(s: State, request: nat) {
    (exists i | 0 <= i < |s.grants| :: s.grants[i].request == request) ||
    (exists i | 0 <= i < |s.refusals| :: s.refusals[i].request == request)
  }

  /** No request has returned twice, none that waits has returned, and none returns before it is made. */
  ghost predicate AnsweredOk(s: State) {
    (forall i, j | 0 <= i < j < |s.grants| :: s.grants[i].request != s.grants[j].request) &&
    (forall i, j | 0 <= i < j < |s.refusals| :: s.refusals[i].request != s.refusals[j].request) &&
    (forall i, j | 0 <= i < |s.grants| && 0 <= j < |s.refusals| :: s.grants[i].request != s.refusals[j].request) &&
    (forall i | 0 <= i < |s.grants| :: s.grants[i].request < |s.requests| && s.grants[i].request !in s.waiting) &&
    (forall i | 0 <= i < |s.refusals| ::
       s.refusals[i].request < |s.requests| && s.refusals[i].request !in s.waiting) &&
    (forall request | request in s.waiting :: request < |s.requests|)
  }

  /** A step answers one request that has not returned, or none. */
  lemma {:induction false} OneMoreAnswer(s: State, n: State, request: nat)
    requires AnsweredOk(s) && !Returned(s, request) && request < |n.requests| && |s.requests| <= |n.requests|
    requires n.waiting <= s.waiting - {request}
    requires (n.refusals == s.refusals && |n.grants| == |s.grants| + 1 && n.grants[..|s.grants|] == s.grants &&
              n.grants[|s.grants|].request == request) ||
             (n.grants == s.grants && |n.refusals| == |s.refusals| + 1 && n.refusals[..|s.refusals|] == s.refusals &&
              n.refusals[|s.refusals|].request == request)
    ensures AnsweredOk(n)
  {
    assert forall i | 0 <= i < |s.grants| :: n.grants[i] == s.grants[i];
    assert forall i | 0 <= i < |s.refusals| :: n.refusals[i] == s.refusals[i];
  }

  lemma {:induction false} NoMoreAnswers(s: State, n: State)
    requires AnsweredOk(s) && n.grants == s.grants && n.refusals == s.refusals && |s.requests| <= |n.requests|
    requires forall request | request in n.waiting :: request in s.waiting || |s.requests| <= request < |n.requests|
    ensures AnsweredOk(n)
  {
  }

  lemma {:induction false} VerifyAnswers(s: State, e: Event)
    requires AnsweredOk(s) && e.Verify? && Enabled(s, e)
    ensures AnsweredOk(Next(s, e))
  {
    var n, request := Next(s, e), |s.requests|;
    assert !Returned(s, request);
    match EnterResult(s.r, e.key, e.now)
    case Hit(_) => OneMoreAnswer(s, n, request);
    case Fail(_) => OneMoreAnswer(s, n, request);
    case _ => NoMoreAnswers(s, n);
  }

  lemma {:induction false} NextAnswers(s: State, e: Event)
    requires AnsweredOk(s)
    ensures AnsweredOk(Next(s, e))
  {
    if Enabled(s, e) {
      match e
      case Verify(_, _, _) => VerifyAnswers(s, e);
      case Collect(request, _) => OneMoreAnswer(s, Next(s, e), request);
      case _ => NoMoreAnswers(s, Next(s, e));
    }
  }

  /** In every run each request returns at most once. */
  lemma {:induction false} OneAnswerEach(clock: int, es: seq<Event>)
    ensures AnsweredOk(Run(clock, es))
    decreases |es|
  {
    if es != [] {
      OneAnswerEach(clock, es[..|es| - 1]);
      NextAnswers(Run(clock, es[..|es| - 1]), es[|es| - 1]);
    }
  }

  /** A request that is cancelled while it waits never returns an identity or an error of the proxy. */
  lemma {:induction false} CancelledStaysSilent(clock: int, es: seq<Event>, i: nat)
    requires i < |es| && es[i].Cancel? && Enabled(Run(clock, es[..i]), es[i])
    ensures !Returned(Run(clock, es), es[i].request) && es[i].request !in Run(clock, es).waiting
    ensures es[i].request < |Run(clock, es).requests|
    decreases |es|
  {
    var n := |es| - 1;
    var s := Run(clock, es[..n]);
    OneAnswerEach(clock, es[..n]);
    if i < n {
      assert es[..n][..i] == es[..i];
      CancelledStaysSilent(clock, es[..n], i);
      SilentStep(s, es[n], es[i].request);
    }
  }

  lemma {:induction false} SilentStep(s: State, e: Event, request: nat)
    requires !Returned(s, request) && request !in s.waiting && request < |s.requests|
    ensures var n := Next(s, e); !Returned(n, request) && request !in n.waiting && request < |n.requests|
  {
    var n := Next(s, e);
    if Enabled(s, e) && e.Verify? {
      SilentVerify(s, e, request);
    } else if Enabled(s, e) && e.Collect? {
      assert e.request != request;
    } else {
      assert n.grants == s.grants && n.refusals == s.refusals;
    }
  }

  lemma {:induction false} SilentVerify(s: State, e: Event, request: nat)
    requires Enabled(s, e) && e.Verify? && !Returned(s, request) && request !in s.waiting && request < |s.requests|
    ensures var n := Next(s, e); !Returned(n, request) && request !in n.waiting && request < |n.requests|
  {
  }

  // -------------------------------------------------------- the error streak

  /** The step meets a proxy error: a fresh one, or a cached one that is not over. */
  predicate Fails(s: State, e: Event) {
    Enabled(s, e) &&
    ((e.Answer? && e.v.Error?) ||
     (e.Verify? && e.key in s.r.entries && e.now < s.r.entries[e.key].expireAt && s.r.entries[e.key].Refused? &&
      s.r.entries[e.key].err == Unavailable))
  }

  /** The step ends the streak: the proxy answers, or a request finds the breaker's 30 seconds over. */
  predicate Recovers(s: State, e: Event) {
    Enabled(s, e) &&
    ((e.Answer? && !e.v.Error?) ||
     (e.Verify? && !(e.key in s.r.entries && e.now < s.r.entries[e.key].expireAt) && s.r.breaker.Some? &&
      !Tripped(s, e.now)))
  }

  /** Errors met since the last recovery or trip. */
  function Streak(clock: int, es: seq<Event>): nat {
    if es == [] then 0 else
    var init := es[..|es| - 1];
    var s, e := Run(clock, init), es[|es| - 1];
    if Recovers(s, e) then 0
    else if !Fails(s, e) then Streak(clock, init)
    else if Streak(clock, init) == 4 then 0 else Streak(clock, init) + 1
  }

  /** How the errors in a row and the breaker follow a step that fails or recovers. */
  predicate Follows(r: Resolver, n: Resolver, fails: bool, recovers: bool, closes: bool, at: int) {
    n.errors == (if recovers then 0 else if !fails then r.errors else if r.errors == 4 then 0 else r.errors + 1) &&
    n.breaker == if fails && r.errors == 4 then Some(at) else if recovers && closes then None else r.breaker
  }

  lemma {:induction false} VerifyStreak(s: State, e: Event)
    requires s.r.errors < 5 && e.Verify? && Enabled(s, e)
    ensures Follows(s.r, Next(s, e).r, Fails(s, e), Recovers(s, e), true, e.at)
  {
    assert Next(s, e).r == Enter(s.r, e.key, e.now, e.at, s.calls);
  }

  lemma {:induction false} FinishStreak(r: Resolver, key: Key, v: Verdict, start: int, at: int, victim: Key)
    requires r.errors < 5
    ensures Follows(r, Finish(r, key, v, start, at, victim), v.Error?, !v.Error?, !v.Deny?, at)
  {
  }

  lemma {:induction false} OtherStreak(s: State, e: Event)
    requires (!e.Verify? && !e.Answer?) || !Enabled(s, e)
    ensures Next(s, e).r.errors == s.r.errors && Next(s, e).r.breaker == s.r.breaker
  {
  }

  lemma {:induction false} StreakStep(s: State, e: Event)
    requires s.r.errors < 5
    ensures Follows(s.r, Next(s, e).r, Fails(s, e), Recovers(s, e), !(e.Answer? && e.v.Deny?), e.at)
  {
    if !Enabled(s, e) || (!e.Verify? && !e.Answer?) {
      OtherStreak(s, e);
    } else if e.Verify? {
      VerifyStreak(s, e);
    } else {
      var p := s.running[e.call];
      FinishStreak(s.r, p.key, e.v, p.start, e.at, e.victim);
      assert Next(s, e).r == Finish(s.r, p.key, e.v, p.start, e.at, e.victim);
    }
  }

  lemma {:induction false} StreakIs(clock: int, es: seq<Event>)
    ensures Run(clock, es).r.errors == Streak(clock, es) < 5
    decreases |es|
  {
    if es != [] {
      StreakIs(clock, es[..|es| - 1]);
      StreakStep(Run(clock, es[..|es| - 1]), es[|es| - 1]);
    }
  }

  /**
   The breaker trips exactly on the fifth error of a streak; an acceptance, or a
   request after the cooldown, closes it; a refusal ends the streak only.
   */
  lemma {:induction false} BreakerFollowsStreak(clock: int, es: seq<Event>, e: Event)
    ensures var s := Run(clock, es);
            Next(s, e).r.breaker == if Fails(s, e) && Streak(clock, es) == 4 then Some(e.at)
                                    else if Recovers(s, e) && !(e.Answer? && e.v.Deny?) then None else s.r.breaker
  {
    StreakIs(clock, es);
    StreakStep(Run(clock, es), e);
  }
}

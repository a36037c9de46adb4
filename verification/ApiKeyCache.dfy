/**
 Verifying Server API keys through a proxy: a bounded cache of verdicts, one call
 in flight per key, and a breaker (internal/serverapi/auth.go).
 */
module ApiKeyCache {
  import opened Options
  import opened RunLemmas

  /** Times and durations in nanoseconds. */
  const SECOND := 1_000_000_000
  const DEFAULT_TTL := 30 * SECOND
  const NEGATIVE_TTL := 5 * SECOND
  const ERROR_TTL := 2 * SECOND
  const COOLDOWN := 30 * SECOND
  const MIN_TTL := SECOND
  const THRESHOLD := 5
  const MAX_ENTRIES := 1024

  /** A credential, named by its digest. */
  type Key = string

  const CLOSED_NAMES: set<string> := {
    "presence.large_snapshot", "survey.bypass_gate", "history.read", "presence.read", "channels.list", "session.act",
    "user.fanout", "subscribe.any", "pattern.global" }

  /** What the proxy says about an accepted key. */
  datatype KeyInfo = KeyInfo(keyId: string, namespaces: seq<string>, capabilities: seq<string>, maxAgeSeconds: int)

  datatype Identity = Identity(keyId: string, namespaces: seq<string>, caps: set<string>)

  datatype Config = Config(ceiling: set<string>, ttl: int)

  /** An unset lifetime means the default. */
  function NewConfig(ceiling: set<string>, ttl: int): (cfg: Config)
    ensures cfg.ttl > 0
  {
    Config(ceiling, if ttl <= 0 then DEFAULT_TTL else ttl)
  }

  // ------------------------------------------------------------- the clamp

  predicate AlphaNum(c: char) {
    'a' <= c <= 'z' || '0' <= c <= '9'
  }

  predicate ValidNamespace(ns: string) {
    1 <= |ns| <= 32 && (forall c | c in ns :: AlphaNum(c) || c == '-') && AlphaNum(ns[0]) && AlphaNum(ns[|ns| - 1])
  }

  /** The scan of validNamespace. */
  method ValidateNamespace(ns: string) returns (ok: bool)
    ensures ok == ValidNamespace(ns)
  {
    if |ns| == 0 || |ns| > 32 {
      return false;
    }
    for i := 0 to |ns|
      invariant forall k | 0 <= k < i :: AlphaNum(ns[k]) || (ns[k] == '-' && 0 < k < |ns| - 1)
    {
      if 'a' <= ns[i] <= 'z' || '0' <= ns[i] <= '9' {
      } else if ns[i] == '-' {
        if i == 0 || i == |ns| - 1 {
          return false;
        }
      } else {
        assert ns[i] in ns;
        return false;
      }
    }
    return true;
  }

  function ValidOnes(nss: seq<string>): seq<string> {
    if nss == [] then [] else
    var rest := ValidOnes(nss[..|nss| - 1]);
    if ValidNamespace(nss[|nss| - 1]) then rest + [nss[|nss| - 1]] else rest
  }

  /** "*" only on its own; next to a valid namespace it takes everything away. */
  function Namespaces(nss: seq<string>): seq<string> {
    if "*" !in nss then ValidOnes(nss) else if ValidOnes(nss) == [] then ["*"] else []
  }

  function Wrap64(x: int): int {
    (x + 0x8000_0000_0000_0000) % 0x1_0000_0000_0000_0000 - 0x8000_0000_0000_0000
  }

  function PositiveTTL(cfg: Config, info: KeyInfo): int {
    var age := Wrap64(info.maxAgeSeconds * SECOND);
    var ttl := if info.maxAgeSeconds > 0 && age < cfg.ttl then age else cfg.ttl;
    if ttl < MIN_TTL then MIN_TTL else ttl
  }

  function Clamp(cfg: Config, info: KeyInfo): Identity {
    Identity(if info.keyId == "" then "unknown" else info.keyId, Namespaces(info.namespaces),
             set c | c in info.capabilities && c in CLOSED_NAMES && c in cfg.ceiling)
  }

  method ClampIdentity(cfg: Config, info: KeyInfo) returns (id: Identity, ttl: int)
    ensures id == Clamp(cfg, info) && ttl == PositiveTTL(cfg, info)
  {
    var caps: set<string> := {};
    for i := 0 to |info.capabilities|
      invariant caps == set c | c in info.capabilities[..i] && c in CLOSED_NAMES
    {
      if info.capabilities[i] in CLOSED_NAMES {
        caps := caps + {info.capabilities[i]};
      }
    }
    assert info.capabilities[..|info.capabilities|] == info.capabilities;
    caps := set c | c in caps && c in cfg.ceiling;
    var namespaces: seq<string> := [];
    var sawWildcard := false;
    for i := 0 to |info.namespaces|
      invariant sawWildcard <==> "*" in info.namespaces[..i]
      invariant namespaces == ValidOnes(info.namespaces[..i])
    {
      assert info.namespaces[..i + 1][..i] == info.namespaces[..i];
      if info.namespaces[i] == "*" {
        assert !ValidNamespace("*") by { assert "*"[0] == '*'; }
        sawWildcard := true;
      } else {
        var ok := ValidateNamespace(info.namespaces[i]);
        if ok {
          namespaces := namespaces + [info.namespaces[i]];
        }
      }
    }
    assert info.namespaces[..|info.namespaces|] == info.namespaces;
    if sawWildcard {
      namespaces := if |namespaces| == 0 then ["*"] else [];
    }
    ttl := cfg.ttl;
    if info.maxAgeSeconds > 0 && Wrap64(info.maxAgeSeconds * SECOND) < ttl {
      ttl := Wrap64(info.maxAgeSeconds * SECOND);
    }
    if ttl < MIN_TTL { ttl := MIN_TTL; }
    id := Identity(if info.keyId == "" then "unknown" else info.keyId, namespaces, caps);
  }

  lemma {:induction false} ValidOnesMembers(nss: seq<string>, ns: string)
    ensures ns in ValidOnes(nss) <==> ns in nss && ValidNamespace(ns)
    decreases |nss|
  {
    if nss != [] {
      ValidOnesMembers(nss[..|nss| - 1], ns);
      assert nss == nss[..|nss| - 1] + [nss[|nss| - 1]];
    }
  }

  /**
   A clamped identity has what the proxy granted and the node allows: exactly the
   known capabilities inside both, the valid namespaces among the granted ones, and
   all of them exactly if "*" was granted and no valid namespace with it.
   */
  lemma {:induction false} ClampOnlyNarrows(cfg: Config, info: KeyInfo, ns: string)
    ensures var id := Clamp(cfg, info);
            (forall c :: c in id.caps <==>
               c in info.capabilities && c in cfg.ceiling &&
               c in {"presence.large_snapshot", "survey.bypass_gate", "history.read", "presence.read", "channels.list",
                     "session.act", "user.fanout", "subscribe.any", "pattern.global"}) &&
            id.keyId == (if info.keyId == "" then "unknown" else info.keyId) &&
            (ns in id.namespaces <==>
             ns in info.namespaces &&
             if ns == "*" then forall x | x in info.namespaces :: !ValidNamespace(x)
             else ValidNamespace(ns) && "*" !in info.namespaces)
  {
    assert !ValidNamespace("*") by { assert "*"[0] == '*'; }
    ValidOnesMembers(info.namespaces, ns);
    forall x ensures x in ValidOnes(info.namespaces) <==> x in info.namespaces && ValidNamespace(x) {
      ValidOnesMembers(info.namespaces, x);
    }
    if ValidOnes(info.namespaces) != [] {
      assert ValidOnes(info.namespaces)[0] in ValidOnes(info.namespaces);
    }
  }

  const INT64_SPAN := 0x8000_0000_0000_0000

  /** The smaller of the two limits, at least a second; what the lifetime should be. */
  function SmallerLimit(cfg: Config, info: KeyInfo): int {
    var age := info.maxAgeSeconds * SECOND;
    var m := if info.maxAgeSeconds > 0 && age < cfg.ttl then age else cfg.ttl;
    if m < 1_000_000_000 then 1_000_000_000 else m
  }

  /**
   The lifetime of a grant is the smaller limit unless the product of the
   age overflows and the wrapped value falls below a configured lifetime of more
   than a second.
   */
  lemma {:induction false} TTLIsSmallerLimitIff(cfg: Config, info: KeyInfo)
    requires cfg.ttl < INT64_SPAN && -INT64_SPAN <= info.maxAgeSeconds < INT64_SPAN
    ensures var product := info.maxAgeSeconds * SECOND;
            PositiveTTL(cfg, info) == SmallerLimit(cfg, info) <==>
            info.maxAgeSeconds <= 0 || product < INT64_SPAN || cfg.ttl <= Wrap64(product) || cfg.ttl <= MIN_TTL
  {
    var product := info.maxAgeSeconds * SECOND;
    if 0 < info.maxAgeSeconds && product < INT64_SPAN {
      assert Wrap64(product) == product;
    }
    if product >= INT64_SPAN && Wrap64(product) < cfg.ttl && MIN_TTL < cfg.ttl {
      assert PositiveTTL(cfg, info) < cfg.ttl == SmallerLimit(cfg, info);
    }
  }

  /** It is never longer than configured, overflow or not. */
  lemma {:induction false} TTLIsWithinConfig(cfg: Config, info: KeyInfo)
    ensures 1_000_000_000 <= PositiveTTL(cfg, info) <= if cfg.ttl < 1_000_000_000 then 1_000_000_000 else cfg.ttl
  {
  }

  /** An age of 292 years and a bit wraps to a negative duration: the grant lives for a second. */
  lemma LongAgeIsCutShort(cfg: Config, info: KeyInfo)
    requires info.maxAgeSeconds == 9_223_372_037 && cfg.ttl == DEFAULT_TTL
    ensures PositiveTTL(cfg, info) == MIN_TTL && SmallerLimit(cfg, info) == DEFAULT_TTL
  {
    assert Wrap64(info.maxAgeSeconds * SECOND) < 0;
  }

  // ----------------------------------------------------------- the resolver

  datatype AuthError = Rejected | Unavailable

  datatype Entry = Granted(identity: Identity, expireAt: int) | Refused(err: AuthError, expireAt: int)

  /** entries and inFlight by key; a call is named by a number. */
  datatype Resolver = Resolver(entries: map<Key, Entry>, inFlight: map<Key, nat>, errors: nat, breaker: Option<int>)

  /** What one round trip to the proxy comes to. */
  datatype Verdict = Allow(identity: Identity, ttl: int) | Deny | Error

  /** The proxy could not be reached, turned the key down, or named its owner. */
  datatype ProxyReply = Unreachable | TurnedDown | Identified(info: KeyInfo)

  function VerdictOf(cfg: Config, reply: ProxyReply): Verdict {
    match reply
    case Unreachable => Error
    case TurnedDown => Deny
    case Identified(info) => Allow(Clamp(cfg, info), PositiveTTL(cfg, info))
  }

  datatype Entered = Hit(identity: Identity) | Fail(err: AuthError) | Attach(call: nat) | Call

  predicate Live(r: Resolver, key: Key, now: int) {
    key in r.entries && now < r.entries[key].expireAt
  }

  predicate Cooling(r: Resolver, now: int) {
    r.breaker.Some? && now - r.breaker.value < COOLDOWN
  }

  function RecordError(r: Resolver, at: int): Resolver {
    if r.errors + 1 >= THRESHOLD then r.(breaker := Some(at), errors := 0) else r.(errors := r.errors + 1)
  }

  /** A full cache gives up a random entry; victim names it. */
  function StoreEntry(r: Resolver, key: Key, e: Entry, victim: Key): Resolver {
    r.(entries := (if |r.entries| >= MAX_ENTRIES then r.entries - {victim} else r.entries)[key := e])
  }

  function EnterResult(r: Resolver, key: Key, now: int): Entered {
    if Live(r, key, now) then
      if r.entries[key].Granted? then Hit(r.entries[key].identity) else Fail(r.entries[key].err)
    else if Cooling(r, now) then Fail(Unavailable)
    else if key in r.inFlight then Attach(r.inFlight[key])
    else Call
  }

  /** The first critical section of Verify: now was read before the lock was taken, at is the time inside. */
  function Enter(r: Resolver, key: Key, now: int, at: int, call: nat): Resolver {
    if Live(r, key, now) then
      if r.entries[key] == Refused(Unavailable, r.entries[key].expireAt) then RecordError(r, at) else r
    else
      var r1 := r.(entries := r.entries - {key});
      if Cooling(r, now) then r1 else
      var r2 := if r.breaker.Some? then r1.(breaker := None, errors := 0) else r1;
      if key in r.inFlight then r2 else r2.(inFlight := r.inFlight[key := call])
  }

  /** The second one, when the proxy has answered a call that started at start. */
  function Finish(r: Resolver, key: Key, v: Verdict, start: int, at: int, victim: Key): Resolver {
    var r1 := r.(inFlight := r.inFlight - {key});
    match v
    case Allow(id, ttl) => StoreEntry(r1.(errors := 0, breaker := None), key, Granted(id, start + ttl), victim)
    case Deny => StoreEntry(r1.(errors := 0), key, Refused(Rejected, start + NEGATIVE_TTL), victim)
    case Error => StoreEntry(RecordError(r1, at), key, Refused(Unavailable, start + ERROR_TTL), victim)
  }

  function RejectWithoutProxy(r: Resolver, key: Key, at: int, victim: Key): Resolver {
    StoreEntry(r, key, Refused(Rejected, at + NEGATIVE_TTL), victim)
  }

  class ApiAuthResolver {
    const cfg: Config
    var entries: map<Key, Entry>
    var inFlight: map<Key, nat>
    var consecutiveErrors: nat
    var breakerOpenAt: Option<int>

    ghost function View(): Resolver
      reads this
    {
      Resolver(entries, inFlight, consecutiveErrors, breakerOpenAt)
    }

    constructor (ceiling: set<string>, ttl: int)
      ensures cfg == Config(ceiling, if ttl <= 0 then 30_000_000_000 else ttl)
      ensures View() == Resolver(map[], map[], 0, None)
    {
      cfg := NewConfig(ceiling, ttl);
      entries, inFlight, consecutiveErrors, breakerOpenAt := map[], map[], 0, None;
    }

    /** One round trip, without the lock. */
    method VerifyViaProxy(reply: ProxyReply) returns (v: Verdict)
      ensures v == VerdictOf(cfg, reply)
    {
      match reply {
        case Unreachable => v := Error;
        case TurnedDown => v := Deny;
        case Identified(info) =>
          var id, ttl := ClampIdentity(cfg, info);
          v := Allow(id, ttl);
      }
    }

    method RecordProxyErrorLocked(at: int)
      modifies this
      ensures View() == RecordError(old(View()), at)
    {
      consecutiveErrors := consecutiveErrors + 1;
      if consecutiveErrors >= THRESHOLD {
        breakerOpenAt := Some(at);
        consecutiveErrors := 0;
      }
    }

    method StoreLocked(key: Key, e: Entry, victim: Key)
      requires |entries| >= MAX_ENTRIES ==> victim in entries
      modifies this
      ensures View() == StoreEntry(old(View()), key, e, victim)
    {
      if |entries| >= MAX_ENTRIES {
        entries := entries - {victim};
      }
      entries := entries[key := e];
    }

    method VerifyEnter(key: Key, now: int, at: int, call: nat) returns (r: Entered)
      modifies this
      ensures View() == Enter(old(View()), key, now, at, call) && r == EnterResult(old(View()), key, now)
    {
      if key in entries {
        var e := entries[key];
        if now < e.expireAt {
          if e.Granted? { return Hit(e.identity); }
          if e.err == Unavailable { RecordProxyErrorLocked(at); }
          return Fail(e.err);
        }
      }
      entries := entries - {key};
      if breakerOpenAt.Some? {
        if now - breakerOpenAt.value < COOLDOWN { return Fail(Unavailable); }
        breakerOpenAt, consecutiveErrors := None, 0;
      }
      if key in inFlight { return Attach(inFlight[key]); }
      inFlight := inFlight[key := call];
      return Call;
    }

    method VerifyFinish(key: Key, v: Verdict, start: int, at: int, victim: Key)
      requires |entries| >= MAX_ENTRIES ==> victim in entries
      modifies this
      ensures View() == Finish(old(View()), key, v, start, at, victim)
    {
      inFlight := inFlight - {key};
      match v {
        case Allow(id, ttl) =>
          consecutiveErrors, breakerOpenAt := 0, None;
          StoreLocked(key, Granted(id, start + ttl), victim);
        case Deny =>
          consecutiveErrors := 0;
          StoreLocked(key, Refused(Rejected, start + NEGATIVE_TTL), victim);
        case Error =>
          RecordProxyErrorLocked(at);
          StoreLocked(key, Refused(Unavailable, start + ERROR_TTL), victim);
      }
    }
  }

  // ------------------------------------------------- callers and the proxy

  datatype Pending = Pending(key: Key, start: int)

  /** A call the proxy accepted, and an identity returned to a request: from the cache, or by a call it awaited. */
  datatype Accepted = Accepted(call: nat, key: Key, identity: Identity, ttl: int, start: int)
  datatype Grant = Grant(request: nat, identity: Identity, when: int, via: Option<nat>)

  /** An error returned to a request: at once, or by a call it awaited. */
  datatype Refusal = Refusal(request: nat, err: AuthError, when: int, via: Option<nat>)

  /** What a finished call leaves for the requests that await it. */
  datatype Left = LeftIdentity(identity: Identity) | LeftError(err: AuthError)

  /**
   running are the proxy calls under way, done what finished calls left, waiting
   the requests that still wait for a call. Each Verify is one request.
   requests, awaited, accepted, grants and refusals are histories: the key each
   request presented, the call it started or attached to, the calls the proxy
   accepted, and what requests returned. clock is the latest time inside the lock.
   */
  datatype State = State(r: Resolver, running: map<nat, Pending>, calls: nat, done: map<nat, Left>,
                         waiting: set<nat>, requests: seq<Key>, awaited: map<nat, nat>,
                         accepted: seq<Accepted>, grants: seq<Grant>, refusals: seq<Refusal>, clock: int)

  datatype Event = Verify(key: Key, now: int, at: int) | Answer(call: nat, v: Verdict, at: int, victim: Key)
                 | Collect(request: nat, at: int) | Cancel(request: nat, at: int)
                 | Reject(key: Key, at: int, victim: Key)

  predicate Evicts(s: State, victim: Key) {
    |s.r.entries| >= MAX_ENTRIES ==> victim in s.r.entries
  }

  /** A request waits for the call it attached to, or for the one it starts. */
  function Await(s: State, call: nat): State {
    var request := |s.requests|;
    s.(waiting := s.waiting + {request}, awaited := s.awaited[request := call])
  }

  function OnVerify(s: State, key: Key, now: int, at: int): State {
    var s1 := s.(r := Enter(s.r, key, now, at, s.calls), requests := s.requests + [key], clock := at);
    match EnterResult(s.r, key, now)
    case Hit(id) => s1.(grants := s.grants + [Grant(|s.requests|, id, now, None)])
    case Fail(err) => s1.(refusals := s.refusals + [Refusal(|s.requests|, err, now, None)])
    case Attach(call) => s1.(waiting := Await(s, call).waiting, awaited := Await(s, call).awaited)
    case Call =>
      s1.(running := s.running[s.calls := Pending(key, now)], calls := s.calls + 1,
          waiting := Await(s, s.calls).waiting, awaited := Await(s, s.calls).awaited)
  }

  function OnAnswer(s: State, call: nat, v: Verdict, at: int, victim: Key): State
    requires call in s.running
  {
    var p := s.running[call];
    Answered(s, call, v, at, Finish(s.r, p.key, v, p.start, at, victim))
  }

  /** The call is over: r is the resolver after its answer. */
  function Answered(s: State, call: nat, v: Verdict, at: int, r: Resolver): State
    requires call in s.running
  {
    var p := s.running[call];
    var s1 := s.(r := r, running := s.running - {call}, clock := at);
    if v.Allow? then
      s1.(done := s.done[call := LeftIdentity(v.identity)],
          accepted := s.accepted + [Accepted(call, p.key, v.identity, v.ttl, p.start)])
    else s1.(done := s.done[call := LeftError(if v.Deny? then Rejected else Unavailable)])
  }

  /** A waiting request whose call has finished returns what the call left. */
  function OnCollect(s: State, request: nat, at: int): State
    requires request in s.awaited && s.awaited[request] in s.done
  {
    var call := s.awaited[request];
    var s1 := s.(waiting := s.waiting - {request});
    match s.done[call]
    case LeftIdentity(id) => s1.(grants := s.grants + [Grant(request, id, at, Some(call))])
    case LeftError(err) => s1.(refusals := s.refusals + [Refusal(request, err, at, Some(call))])
  }

  function OnReject(s: State, key: Key, at: int, victim: Key): State {
    s.(r := RejectWithoutProxy(s.r, key, at, victim), clock := at)
  }

  predicate Enabled(s: State, e: Event) {
    s.clock <= e.at &&
    match e
    case Verify(_, now, at) => now <= at
    case Answer(call, _, _, victim) => call in s.running && Evicts(s, victim)
    case Collect(request, _) => request in s.waiting && request in s.awaited && s.awaited[request] in s.done
    case Cancel(request, _) => request in s.waiting
    case Reject(_, _, victim) => Evicts(s, victim)
  }

  function Next(s: State, e: Event): State {
    if !Enabled(s, e) then s else
    match e
    case Verify(key, now, at) => OnVerify(s, key, now, at)
    case Answer(call, v, at, victim) => OnAnswer(s, call, v, at, victim)
    case Collect(request, at) => OnCollect(s, request, at)
    case Cancel(request, at) => s.(waiting := s.waiting - {request})
    case Reject(key, at, victim) => OnReject(s, key, at, victim)
  }

  function Init(clock: int): State {
    State(Resolver(map[], map[], 0, None), map[], 0, map[], {}, [], map[], [], [], [], clock)
  }

  function Run(clock: int, es: seq<Event>): State {
    if es == [] then Init(clock) else Next(Run(clock, es[..|es| - 1]), es[|es| - 1])
  }

  // --------------------------------------------------- calls and their bounds

  /** The calls in flight are the running ones, one for each key; a running call has not finished. */
  ghost predicate CallsOk(s: State) {
    (forall k | k in s.r.inFlight :: s.r.inFlight[k] in s.running && s.running[s.r.inFlight[k]].key == k) &&
    (forall c | c in s.running :: CallOk(s, c)) &&
    (forall c | c in s.done :: c < s.calls)
  }

  predicate CallOk(s: State, c: nat)
    requires c in s.running
  {
    c < s.calls && c !in s.done && s.running[c].key in s.r.inFlight && s.r.inFlight[s.running[c].key] == c
  }

  predicate Bounded(s: State) {
    |s.r.entries| <= MAX_ENTRIES && s.r.errors < THRESHOLD
  }

  lemma {:induction false} VerifyFlight(s: State, key: Key, now: int, at: int)
    ensures var n := OnVerify(s, key, now, at);
            if EnterResult(s.r, key, now) == Call
            then n.r.inFlight == s.r.inFlight[key := s.calls] && n.running == s.running[s.calls := Pending(key, now)] &&
                 n.calls == s.calls + 1 && key !in s.r.inFlight
            else n.r.inFlight == s.r.inFlight && n.running == s.running && n.calls == s.calls
    ensures OnVerify(s, key, now, at).done == s.done
  {
  }

  lemma {:induction false} VerifyKeepsCalls(s: State, key: Key, now: int, at: int)
    requires CallsOk(s)
    ensures CallsOk(OnVerify(s, key, now, at))
  {
    VerifyFlight(s, key, now, at);
    var n := OnVerify(s, key, now, at);
    forall c | c in n.running ensures CallOk(n, c) {
      assert c in s.running ==> CallOk(s, c);
    }
  }

  lemma {:induction false} FinishFlight(r: Resolver, key: Key, v: Verdict, start: int, at: int, victim: Key)
    ensures Finish(r, key, v, start, at, victim).inFlight == r.inFlight - {key}
  {
  }

  lemma {:induction false} AnswerFlight(s: State, call: nat, v: Verdict, at: int, victim: Key)
    requires call in s.running
    ensures var n := OnAnswer(s, call, v, at, victim);
            n.r.inFlight == s.r.inFlight - {s.running[call].key} && n.running == s.running - {call} &&
            n.calls == s.calls && n.done.Keys == s.done.Keys + {call}
  {
    var p := s.running[call];
    FinishFlight(s.r, p.key, v, p.start, at, victim);
    AnsweredIs(s, call, v, at, Finish(s.r, p.key, v, p.start, at, victim));
  }

  lemma {:induction false} AnsweredIs(s: State, call: nat, v: Verdict, at: int, r: Resolver)
    requires call in s.running
    ensures var n := Answered(s, call, v, at, r);
            n.r == r && n.running == s.running - {call} && n.calls == s.calls && n.done.Keys == s.done.Keys + {call}
  {
  }

  lemma {:induction false} AnswerKeepsCalls(s: State, call: nat, v: Verdict, at: int, victim: Key)
    requires CallsOk(s) && call in s.running
    ensures CallsOk(OnAnswer(s, call, v, at, victim))
  {
    AnswerFlight(s, call, v, at, victim);
    CallsOkAfter(s, call, OnAnswer(s, call, v, at, victim));
  }

  /** Taking one call out of flight and out of the running ones keeps the rest matched. */
  lemma {:induction false} CallsOkAfter(s: State, call: nat, n: State)
    requires CallsOk(s) && call in s.running
    requires n.r.inFlight == s.r.inFlight - {s.running[call].key} && n.running == s.running - {call}
    requires n.calls == s.calls && n.done.Keys == s.done.Keys + {call}
    ensures CallsOk(n)
  {
    assert CallOk(s, call);
    forall c | c in n.running ensures CallOk(n, c) {
      assert CallOk(s, c);
    }
    forall c | c in n.done ensures c < n.calls {
      assert c in n.done.Keys;
    }
  }

  lemma {:induction false} NextKeepsCalls(s: State, e: Event)
    requires CallsOk(s)
    ensures CallsOk(Next(s, e))
  {
    if Enabled(s, e) {
      match e
      case Verify(key, now, at) => VerifyKeepsCalls(s, key, now, at);
      case Answer(call, v, at, victim) => AnswerKeepsCalls(s, call, v, at, victim);
      case _ => SameCalls(s, Next(s, e));
    }
  }

  lemma {:induction false} SameCalls(s: State, n: State)
    requires CallsOk(s)
    requires n.r.inFlight == s.r.inFlight && n.running == s.running && n.calls == s.calls && n.done == s.done
    ensures CallsOk(n)
  {
    forall c | c in n.running ensures CallOk(n, c) {
      assert CallOk(s, c);
    }
  }

  lemma {:induction false} StoreBounded(r: Resolver, key: Key, e: Entry, victim: Key)
    requires |r.entries| <= MAX_ENTRIES && (|r.entries| >= MAX_ENTRIES ==> victim in r.entries)
    ensures |StoreEntry(r, key, e, victim).entries| <= MAX_ENTRIES
  {
    var kept := if |r.entries| >= MAX_ENTRIES then r.entries - {victim} else r.entries;
    if |r.entries| >= MAX_ENTRIES {
      assert kept.Keys == r.entries.Keys - {victim};
    }
    assert kept[key := e].Keys == kept.Keys + {key};
  }

  lemma {:induction false} EnterBounded(r: Resolver, key: Key, now: int, at: int, call: nat)
    requires |r.entries| <= MAX_ENTRIES && r.errors < THRESHOLD
    ensures var n := Enter(r, key, now, at, call); |n.entries| <= MAX_ENTRIES && n.errors < THRESHOLD
  {
    assert (r.entries - {key}).Keys == r.entries.Keys - {key};
  }

  lemma {:induction false} FinishBounded(r: Resolver, key: Key, v: Verdict, start: int, at: int, victim: Key)
    requires |r.entries| <= MAX_ENTRIES && r.errors < THRESHOLD && (|r.entries| >= MAX_ENTRIES ==> victim in r.entries)
    ensures var n := Finish(r, key, v, start, at, victim); |n.entries| <= MAX_ENTRIES && n.errors < THRESHOLD
  {
    StoreBounded(r, key, Finish(r, key, v, start, at, victim).entries[key], victim);
  }

  lemma {:induction false} NextKeepsBounded(s: State, e: Event)
    requires Bounded(s)
    ensures Bounded(Next(s, e))
  {
    if Enabled(s, e) {
      match e
      case Verify(key, now, at) => EnterBounded(s.r, key, now, at, s.calls);
      case Answer(call, v, at, victim) =>
        FinishBounded(s.r, s.running[call].key, v, s.running[call].start, at, victim);
      case Reject(key, at, victim) => StoreBounded(s.r, key, Refused(Rejected, at + NEGATIVE_TTL), victim);
      case _ =>
    }
  }

  /** In every run flight and running calls match, the cache has at most 1024 entries and the streak stays below 5. */
  lemma {:induction false} RunKeepsBounds(clock: int, es: seq<Event>)
    ensures CallsOk(Run(clock, es)) && Bounded(Run(clock, es))
    decreases |es|
  {
    if es != [] {
      RunKeepsBounds(clock, es[..|es| - 1]);
      NextKeepsCalls(Run(clock, es[..|es| - 1]), es[|es| - 1]);
      NextKeepsBounded(Run(clock, es[..|es| - 1]), es[|es| - 1]);
    }
  }

  /** At most one call per key is under way. */
  lemma {:induction false} OneCallPerKey(clock: int, es: seq<Event>, c: nat, d: nat)
    requires var s := Run(clock, es); c in s.running && d in s.running && s.running[c].key == s.running[d].key
    ensures c == d
  {
    RunKeepsBounds(clock, es);
    assert CallOk(Run(clock, es), c) && CallOk(Run(clock, es), d);
  }

  // ------------------------------------------------------ grants are backed

  /** The call was for this key and found this identity, and what it left lives until then. */
  predicate Backs(a: Accepted, key: Key, id: Identity, call: Option<nat>, until: Option<int>) {
    a.key == key && a.identity == id && (call.Some? ==> a.call == call.value) &&
    (until.Some? ==> until.value == a.start + a.ttl)
  }

  predicate Backed(s: State, key: Key, id: Identity, call: Option<nat>, until: Option<int>) {
    exists i | 0 <= i < |s.accepted| :: Backs(s.accepted[i], key, id, call, until)
  }

  /** A cached identity was accepted for its key, and its expiry is the one of that call. */
  predicate EntryOk(s: State, k: Key)
    requires k in s.r.entries
  {
    s.r.entries[k].Granted? ==> Backed(s, k, s.r.entries[k].identity, None, Some(s.r.entries[k].expireAt))
  }

  /** The call a request awaits runs for the key it presented, or left what was accepted for that key. */
  predicate AwaitOk(s: State, request: nat)
    requires request in s.awaited
  {
    var call := s.awaited[request];
    request < |s.requests| &&
    if call in s.running then s.running[call].key == s.requests[request]
    else call in s.done &&
         (s.done[call].LeftIdentity? ==> Backed(s, s.requests[request], s.done[call].identity, Some(call), None))
  }

  /**
   The accepted call behind a grant: for the key the request presented, with the
   identity it got, and either the very call the request awaited or, from the
   cache, one whose lifetime was not over.
   */
  predicate GrantBy(s: State, g: Grant, k: nat) {
    k < |s.accepted| && g.request < |s.requests| &&
    var a := s.accepted[k];
    a.key == s.requests[g.request] && a.identity == g.identity &&
    if g.via.Some? then a.call == g.via.value && g.request in s.awaited && s.awaited[g.request] == g.via.value
    else g.when < a.start + a.ttl
  }

  predicate GrantOk(s: State, g: Grant) {
    exists k | 0 <= k < |s.accepted| :: GrantBy(s, g, k)
  }

  ghost predicate GrantsOk(s: State) {
    (forall k | k in s.r.entries :: EntryOk(s, k)) && (forall request | request in s.awaited :: AwaitOk(s, request)) &&
    (forall i | 0 <= i < |s.grants| :: GrantOk(s, s.grants[i]))
  }

  /** What grows in a step: keys presented, calls awaited, calls accepted. */
  predicate Grows(s: State, n: State) {
    s.accepted <= n.accepted && s.requests <= n.requests &&
    forall request | request in s.awaited :: request in n.awaited && n.awaited[request] == s.awaited[request]
  }

  lemma {:induction false} BackingLasts(s: State, n: State, key: Key, id: Identity, call: Option<nat>,
                                        until: Option<int>)
    requires Backed(s, key, id, call, until) && s.accepted <= n.accepted
    ensures Backed(n, key, id, call, until)
  {
    var i :| 0 <= i < |s.accepted| && Backs(s.accepted[i], key, id, call, until);
    assert Backs(n.accepted[i], key, id, call, until);
  }

  lemma {:induction false} GrantLasts(s: State, n: State, g: Grant)
    requires GrantOk(s, g) && Grows(s, n)
    ensures GrantOk(n, g)
  {
    var k :| 0 <= k < |s.accepted| && GrantBy(s, g, k);
    assert GrantBy(n, g, k);
  }

  lemma {:induction false} AnswerBacks(s: State, call: nat, v: Verdict, at: int, victim: Key)
    requires call in s.running && v.Allow?
    ensures var n, p := OnAnswer(s, call, v, at, victim), s.running[call];
            Backed(n, p.key, v.identity, Some(call), None) && Backed(n, p.key, v.identity, None, Some(p.start + v.ttl))
  {
    var n, p := OnAnswer(s, call, v, at, victim), s.running[call];
    var a := n.accepted[|s.accepted|];
    assert a == Accepted(call, p.key, v.identity, v.ttl, p.start);
    assert Backs(a, p.key, v.identity, Some(call), None) && Backs(a, p.key, v.identity, None, Some(p.start + v.ttl));
  }

  lemma {:induction false} EnterAddsNothing(r: Resolver, key: Key, now: int, at: int, call: nat, k: Key)
    requires k in Enter(r, key, now, at, call).entries
    ensures k in r.entries && Enter(r, key, now, at, call).entries[k] == r.entries[k]
  {
  }

  lemma {:induction false} StoreAt(r: Resolver, key: Key, e: Entry, victim: Key, k: Key)
    requires k in StoreEntry(r, key, e, victim).entries
    ensures var x := StoreEntry(r, key, e, victim).entries[k];
            if k == key then x == e else k in r.entries && x == r.entries[k]
  {
  }

  lemma {:induction false} FinishAt(r: Resolver, key: Key, v: Verdict, start: int, at: int, victim: Key, k: Key)
    requires k in Finish(r, key, v, start, at, victim).entries
    ensures var x := Finish(r, key, v, start, at, victim).entries[k];
            if k == key then x.Granted? ==> v.Allow? && x == Granted(v.identity, start + v.ttl)
            else k in r.entries && x == r.entries[k]
  {
  }

  lemma {:induction false} SameEntryOk(s: State, n: State, k: Key)
    requires k in s.r.entries && EntryOk(s, k) && s.accepted <= n.accepted
    requires k in n.r.entries && n.r.entries[k] == s.r.entries[k]
    ensures EntryOk(n, k)
  {
    if s.r.entries[k].Granted? {
      BackingLasts(s, n, k, s.r.entries[k].identity, None, Some(s.r.entries[k].expireAt));
    }
  }

  lemma {:induction false} SameAwaitOk(s: State, n: State, request: nat)
    requires request in s.awaited && AwaitOk(s, request) && Grows(s, n)
    requires var call := s.awaited[request];
             if call in s.running then call in n.running && n.running[call] == s.running[call]
             else call !in n.running && call in n.done && call in s.done && n.done[call] == s.done[call]
    ensures request in n.awaited && AwaitOk(n, request)
  {
    var call := s.awaited[request];
    if call !in s.running && s.done[call].LeftIdentity? {
      BackingLasts(s, n, s.requests[request], s.done[call].identity, Some(call), None);
    }
  }

  // ---- each kind of step

  lemma {:induction false} VerifyGrows(s: State, key: Key, now: int, at: int)
    requires forall request | request in s.awaited :: request < |s.requests|
    ensures var n := OnVerify(s, key, now, at);
            Grows(s, n) && n.accepted == s.accepted && n.requests == s.requests + [key] && n.done == s.done
  {
  }

  lemma {:induction false} VerifyKeepsAwaits(s: State, key: Key, now: int, at: int, request: nat)
    requires CallsOk(s) && GrantsOk(s) && request in OnVerify(s, key, now, at).awaited
    ensures AwaitOk(OnVerify(s, key, now, at), request)
  {
    var n := OnVerify(s, key, now, at);
    assert forall q | q in s.awaited :: AwaitOk(s, q);
    VerifyGrows(s, key, now, at);
    VerifyFlight(s, key, now, at);
    if request in s.awaited {
      assert request != |s.requests|;
      var call := s.awaited[request];
      if call in s.running { assert CallOk(s, call); }
      SameAwaitOk(s, n, request);
    }
  }

  lemma {:induction false} VerifyKeepsGrants(s: State, key: Key, now: int, at: int)
    requires CallsOk(s) && GrantsOk(s)
    ensures GrantsOk(OnVerify(s, key, now, at))
  {
    var n := OnVerify(s, key, now, at);
    assert forall q | q in s.awaited :: AwaitOk(s, q);
    VerifyGrows(s, key, now, at);
    forall k | k in n.r.entries ensures EntryOk(n, k) {
      EnterAddsNothing(s.r, key, now, at, s.calls, k);
      SameEntryOk(s, n, k);
    }
    forall request | request in n.awaited ensures AwaitOk(n, request) {
      VerifyKeepsAwaits(s, key, now, at, request);
    }
    forall i | 0 <= i < |n.grants| ensures GrantOk(n, n.grants[i]) {
      if i < |s.grants| { GrantLasts(s, n, s.grants[i]); } else { HitIsBacked(s, key, now, at); }
    }
  }

  lemma {:induction false} HitIsBacked(s: State, key: Key, now: int, at: int)
    requires GrantsOk(s) && EnterResult(s.r, key, now).Hit?
    ensures var n := OnVerify(s, key, now, at);
            |n.grants| == |s.grants| + 1 && GrantOk(n, n.grants[|s.grants|])
  {
    var n, e := OnVerify(s, key, now, at), s.r.entries[key];
    assert EntryOk(s, key);
    var k :| 0 <= k < |s.accepted| && Backs(s.accepted[k], key, e.identity, None, Some(e.expireAt));
    assert n.requests[|s.requests|] == key;
    assert GrantBy(n, n.grants[|s.grants|], k);
  }

  lemma {:induction false} AnswerKeepsEntry(s: State, call: nat, v: Verdict, at: int, victim: Key, k: Key)
    requires CallsOk(s) && GrantsOk(s) && call in s.running && k in OnAnswer(s, call, v, at, victim).r.entries
    ensures EntryOk(OnAnswer(s, call, v, at, victim), k)
  {
    var n, p := OnAnswer(s, call, v, at, victim), s.running[call];
    assert Grows(s, n) && n.awaited == s.awaited && n.grants == s.grants;
    FinishAt(s.r, p.key, v, p.start, at, victim, k);
    if k != p.key {
      SameEntryOk(s, n, k);
    } else if v.Allow? {
      AnswerBacks(s, call, v, at, victim);
    }
  }

  lemma {:induction false} AnswerKeepsGrants(s: State, call: nat, v: Verdict, at: int, victim: Key)
    requires CallsOk(s) && GrantsOk(s) && call in s.running
    ensures GrantsOk(OnAnswer(s, call, v, at, victim))
  {
    var n := OnAnswer(s, call, v, at, victim);
    assert Grows(s, n) && n.awaited == s.awaited && n.grants == s.grants;
    AnswerFlight(s, call, v, at, victim);
    forall k | k in n.r.entries ensures EntryOk(n, k) {
      AnswerKeepsEntry(s, call, v, at, victim, k);
    }
    forall request | request in n.awaited ensures AwaitOk(n, request) {
      AnswerKeepsAwait(s, call, v, at, victim, request);
    }
    forall i | 0 <= i < |n.grants| ensures GrantOk(n, n.grants[i]) {
      GrantLasts(s, n, s.grants[i]);
    }
  }

  lemma {:induction false} AnswerKeepsAwait(s: State, call: nat, v: Verdict, at: int, victim: Key, request: nat)
    requires CallsOk(s) && GrantsOk(s) && call in s.running && request in s.awaited
    ensures var n := OnAnswer(s, call, v, at, victim); request in n.awaited && AwaitOk(n, request)
  {
    var n := OnAnswer(s, call, v, at, victim);
    assert AwaitOk(s, request) && CallOk(s, call);
    AnswerFlight(s, call, v, at, victim);
    if s.awaited[request] == call {
      if v.Allow? { AnswerBacks(s, call, v, at, victim); }
    } else {
      SameAwaitOk(s, n, request);
    }
  }

  /** Steps that only end a wait, or reject a key at the door. */
  lemma {:induction false} OtherStepsKeepGrants(s: State, n: State, g: seq<Grant>)
    requires GrantsOk(s) && n.grants == s.grants + g && forall i | 0 <= i < |g| :: GrantOk(s, g[i])
    requires n.running == s.running && n.done == s.done && n.requests == s.requests && n.awaited == s.awaited
    requires n.accepted == s.accepted
    requires forall k | k in n.r.entries && n.r.entries[k].Granted? ::
               k in s.r.entries && n.r.entries[k] == s.r.entries[k]
    ensures GrantsOk(n)
  {
    forall k | k in n.r.entries ensures EntryOk(n, k) {
      if n.r.entries[k].Granted? { SameEntryOk(s, n, k); }
    }
    forall request | request in n.awaited ensures AwaitOk(n, request) {
      assert AwaitOk(s, request);
      SameAwaitOk(s, n, request);
    }
    forall i | 0 <= i < |n.grants| ensures GrantOk(n, n.grants[i]) {
      if i < |s.grants| { GrantLasts(s, n, s.grants[i]); } else { GrantLasts(s, n, g[i - |s.grants|]); }
    }
  }

  lemma {:induction false} CollectedIsBacked(s: State, request: nat, at: int)
    requires GrantsOk(s) && CallsOk(s) && request in s.awaited && s.awaited[request] in s.done
    requires s.done[s.awaited[request]].LeftIdentity?
    ensures var call := s.awaited[request]; GrantOk(s, Grant(request, s.done[call].identity, at, Some(call)))
  {
    var call := s.awaited[request];
    assert AwaitOk(s, request);
    assert call in s.running ==> CallOk(s, call);
    var k :| 0 <= k < |s.accepted| &&
             Backs(s.accepted[k], s.requests[request], s.done[call].identity, Some(call), None);
    assert GrantBy(s, Grant(request, s.done[call].identity, at, Some(call)), k);
  }

  lemma {:induction false} CollectKeepsGrants(s: State, request: nat, at: int)
    requires CallsOk(s) && GrantsOk(s) && request in s.awaited && s.awaited[request] in s.done
    ensures GrantsOk(OnCollect(s, request, at))
  {
    var call, n := s.awaited[request], OnCollect(s, request, at);
    if s.done[call].LeftIdentity? {
      CollectedIsBacked(s, request, at);
      OtherStepsKeepGrants(s, n, [Grant(request, s.done[call].identity, at, Some(call))]);
    } else {
      OtherStepsKeepGrants(s, n, []);
    }
  }

  lemma {:induction false} RejectKeepsGrants(s: State, key: Key, at: int, victim: Key)
    requires GrantsOk(s)
    ensures GrantsOk(OnReject(s, key, at, victim))
  {
    var n := OnReject(s, key, at, victim);
    forall k | k in n.r.entries && n.r.entries[k].Granted?
      ensures k in s.r.entries && n.r.entries[k] == s.r.entries[k]
    {
      StoreAt(s.r, key, Refused(Rejected, at + NEGATIVE_TTL), victim, k);
    }
    OtherStepsKeepGrants(s, n, []);
  }

  lemma {:induction false} NextKeepsGrants(s: State, e: Event)
    requires CallsOk(s) && GrantsOk(s)
    ensures GrantsOk(Next(s, e))
  {
    if Enabled(s, e) {
      match e
      case Verify(key, now, at) => VerifyKeepsGrants(s, key, now, at);
      case Answer(call, v, at, victim) => AnswerKeepsGrants(s, call, v, at, victim);
      case Collect(request, at) => CollectKeepsGrants(s, request, at);
      case Cancel(request, _) => OtherStepsKeepGrants(s, Next(s, e), []);
      case Reject(key, at, victim) => RejectKeepsGrants(s, key, at, victim);
    }
  }

  lemma {:induction false} RunKeepsGrants(clock: int, es: seq<Event>)
    ensures GrantsOk(Run(clock, es))
    decreases |es|
  {
    if es != [] {
      RunKeepsGrants(clock, es[..|es| - 1]);
      RunKeepsBounds(clock, es[..|es| - 1]);
      NextKeepsGrants(Run(clock, es[..|es| - 1]), es[|es| - 1]);
    }
  }

  /**
   Every identity a request returns was accepted by the proxy for the key that
   very request presented: in the call the request awaited, or, from the cache,
   in a call whose lifetime was not over.
   */
  lemma {:induction false} GrantsAreBacked(clock: int, es: seq<Event>, i: nat) returns (k: nat)
    requires i < |Run(clock, es).grants|
    ensures GrantBy(Run(clock, es), Run(clock, es).grants[i], k)
  {
    RunKeepsGrants(clock, es);
    var s := Run(clock, es);
    assert GrantOk(s, s.grants[i]);
    k :| 0 <= k < |s.accepted| && GrantBy(s, s.grants[i], k);
  }

  /** A call is accepted at most once, so the awaited call behind a grant is unique. */
  predicate AcceptedOnce(s: State) {
    (forall i | 0 <= i < |s.accepted| :: s.accepted[i].call in s.done) &&
    (forall i, j | 0 <= i < j < |s.accepted| :: s.accepted[i].call != s.accepted[j].call)
  }

  lemma {:induction false} OneMoreAccepted(s: State, n: State, a: Accepted)
    requires AcceptedOnce(s) && a.call !in s.done && n.accepted == s.accepted + [a]
    requires n.done.Keys == s.done.Keys + {a.call}
    ensures AcceptedOnce(n)
  {
    forall i | 0 <= i < |n.accepted| ensures n.accepted[i].call in n.done {
      assert n.accepted[i].call in n.done.Keys;
    }
  }

  lemma {:induction false} AnswerAcceptsOnce(s: State, call: nat, v: Verdict, at: int, victim: Key)
    requires CallsOk(s) && AcceptedOnce(s) && call in s.running
    ensures AcceptedOnce(OnAnswer(s, call, v, at, victim))
  {
    var n, p := OnAnswer(s, call, v, at, victim), s.running[call];
    assert CallOk(s, call);
    AnswerFlight(s, call, v, at, victim);
    if v.Allow? {
      OneMoreAccepted(s, n, Accepted(call, p.key, v.identity, v.ttl, p.start));
    } else {
      assert forall i | 0 <= i < |s.accepted| :: s.accepted[i].call in n.done.Keys;
    }
  }

  lemma {:induction false} NextAcceptsOnce(s: State, e: Event)
    requires CallsOk(s) && AcceptedOnce(s)
    ensures AcceptedOnce(Next(s, e))
  {
    if e.Answer? && Enabled(s, e) {
      AnswerAcceptsOnce(s, e.call, e.v, e.at, e.victim);
    } else {
      assert Next(s, e).accepted == s.accepted && Next(s, e).done == s.done;
    }
  }

  lemma {:induction false} CallsAreAcceptedOnce(clock: int, es: seq<Event>)
    ensures AcceptedOnce(Run(clock, es))
    decreases |es|
  {
    if es != [] {
      CallsAreAcceptedOnce(clock, es[..|es| - 1]);
      RunKeepsBounds(clock, es[..|es| - 1]);
      NextAcceptsOnce(Run(clock, es[..|es| - 1]), es[|es| - 1]);
    }
  }

  /** All answers in the run are verdicts of the proxy path on some reply. */
  ghost predicate FromProxy(cfg: Config, es: seq<Event>) {
    forall i | 0 <= i < |es| && es[i].Answer? :: exists reply :: es[i].v == VerdictOf(cfg, reply)
  }

  /** Only an answer of the proxy adds to the accepted calls. */
  lemma {:induction false} AcceptedByAnswer(s: State, e: Event)
    ensures var n := Next(s, e);
            if e.Answer? && e.v.Allow? && Enabled(s, e)
            then |n.accepted| == |s.accepted| + 1 && n.accepted[..|s.accepted|] == s.accepted &&
                 n.accepted[|s.accepted|].identity == e.v.identity && n.accepted[|s.accepted|].ttl == e.v.ttl
            else n.accepted == s.accepted
  {
  }

  lemma {:induction false} AcceptedFromProxy(cfg: Config, clock: int, es: seq<Event>, i: nat) returns (info: KeyInfo)
    requires FromProxy(cfg, es) && i < |Run(clock, es).accepted|
    ensures Run(clock, es).accepted[i].identity == Clamp(cfg, info)
    ensures Run(clock, es).accepted[i].ttl == PositiveTTL(cfg, info)
    decreases |es|
  {
    var n := |es| - 1;
    AcceptedByAnswer(Run(clock, es[..n]), es[n]);
    if i < |Run(clock, es[..n]).accepted| {
      assert Run(clock, es).accepted[i] == Run(clock, es[..n]).accepted[i];
      info := AcceptedFromProxy(cfg, clock, es[..n], i);
    } else {
      assert es[n].Answer? && es[n].v.Allow?;
      var reply :| es[n].v == VerdictOf(cfg, reply);
      info := reply.info;
    }
  }

  /**
   So no request returns a capability outside the node's ceiling, and none from
   the cache later than the configured lifetime after the start of the call that
   accepted its key.
   */
  lemma {:induction false} GrantsStayInsideTheNode(cfg: Config, clock: int, es: seq<Event>, i: nat) returns (k: nat)
    requires FromProxy(cfg, es) && i < |Run(clock, es).grants|
    ensures var s := Run(clock, es);
            var g := s.grants[i];
            GrantBy(s, g, k) && g.identity.caps <= cfg.ceiling &&
            (g.via.None? ==> g.when < s.accepted[k].start + if cfg.ttl < MIN_TTL then MIN_TTL else cfg.ttl)
  {
    k := GrantsAreBacked(clock, es, i);
    var info := AcceptedFromProxy(cfg, clock, es, k);
    ClampOnlyNarrows(cfg, info, "");
    TTLIsWithinConfig(cfg, info);
  }

  // -------------------------------------------------------------- the breaker

  /** An accepting answer of some earlier call comes in. */
  predicate Accepts(s: State, e: Event) {
    Enabled(s, e) && e.Answer? && e.v.Allow?
  }

  /** The step records a proxy error, fresh or cached, and it is the fifth in a row. */
  predicate Opens(s: State, e: Event) {
    Enabled(s, e) && s.r.errors + 1 >= THRESHOLD &&
    ((e.Answer? && e.v.Error?) ||
     (e.Verify? && Live(s.r, e.key, e.now) && s.r.entries[e.key] == Refused(Unavailable, s.r.entries[e.key].expireAt)))
  }

  /** Within the cooldown that began at t0: only an accepting answer closes the breaker, only a streak opens it. */
  predicate Within(s: State, t0: int) {
    t0 <= s.clock && (s.r.breaker.Some? ==> s.r.breaker.value >= t0)
  }

  function BreakerAfter(s: State, e: Event): Option<int> {
    if Accepts(s, e) then None else if Opens(s, e) then Some(e.at) else s.r.breaker
  }

  lemma {:induction false} VerifyBreaker(s: State, e: Event, t0: int)
    requires e.Verify? && Within(s, t0) && Enabled(s, e) && e.at < t0 + COOLDOWN
    ensures Next(s, e).r.breaker == BreakerAfter(s, e)
  {
  }

  lemma {:induction false} AnswerBreaker(s: State, e: Event)
    requires e.Answer? && Enabled(s, e)
    ensures Next(s, e).r.breaker == BreakerAfter(s, e)
  {
  }

  lemma {:induction false} OtherBreaker(s: State, e: Event)
    requires !e.Verify? && !e.Answer?
    ensures Next(s, e).r.breaker == BreakerAfter(s, e) && s.clock <= Next(s, e).clock
  {
  }

  lemma {:induction false} DisabledBreaker(s: State, e: Event)
    requires !Enabled(s, e)
    ensures Next(s, e).r.breaker == BreakerAfter(s, e) && s.clock <= Next(s, e).clock
  {
  }

  lemma {:induction false} BreakerChanges(s: State, e: Event, t0: int)
    requires Within(s, t0) && (Enabled(s, e) ==> e.at < t0 + COOLDOWN)
    ensures Next(s, e).r.breaker == BreakerAfter(s, e)
  {
    if !Enabled(s, e) {
      DisabledBreaker(s, e);
    } else {
      match e
      case Verify(_, _, _) => VerifyBreaker(s, e, t0);
      case Answer(_, _, _, _) => AnswerBreaker(s, e);
      case _ => OtherBreaker(s, e);
    }
  }

  lemma {:induction false} AfterIsWithin(s: State, e: Event, t0: int)
    requires Within(s, t0)
    ensures BreakerAfter(s, e).Some? ==> BreakerAfter(s, e).value >= t0
    ensures t0 <= Next(s, e).clock
  {
  }

  lemma {:induction false} BreakerStep(s: State, e: Event, t0: int)
    requires Within(s, t0) && (Enabled(s, e) ==> e.at < t0 + COOLDOWN)
    ensures Next(s, e).r.breaker == BreakerAfter(s, e) && Within(Next(s, e), t0)
  {
    BreakerChanges(s, e, t0);
    AfterIsWithin(s, e, t0);
  }

  /** In a cooldown the next step closes the breaker iff it is an accepting answer. */
  lemma {:induction false} BreakerClosesIff(s: State, e: Event, t0: int)
    requires s.r.breaker == Some(t0) && t0 <= s.clock && (Enabled(s, e) ==> e.at < t0 + COOLDOWN)
    ensures Next(s, e).r.breaker.None? <==> Accepts(s, e)
  {
    BreakerStep(s, e, t0);
  }

  predicate InThePast(s: State) {
    s.r.breaker.Some? ==> s.r.breaker.value <= s.clock
  }

  lemma {:induction false} EnterBreaker(r: Resolver, key: Key, now: int, at: int, call: nat)
    ensures var b := Enter(r, key, now, at, call).breaker; b == r.breaker || b == None || b == Some(at)
  {
  }

  lemma {:induction false} FinishBreaker(r: Resolver, key: Key, v: Verdict, start: int, at: int, victim: Key)
    ensures var b := Finish(r, key, v, start, at, victim).breaker; b == r.breaker || b == None || b == Some(at)
  {
  }

  lemma {:induction false} NextInThePast(s: State, e: Event)
    requires InThePast(s)
    ensures InThePast(Next(s, e)) && s.clock <= Next(s, e).clock
  {
    if Enabled(s, e) {
      match e
      case Verify(key, now, at) => VerifyInThePast(s, key, now, at);
      case Answer(call, v, at, victim) => AnswerInThePast(s, call, v, at, victim);
      case _ =>
    }
  }

  lemma {:induction false} VerifyInThePast(s: State, key: Key, now: int, at: int)
    requires InThePast(s) && Enabled(s, Verify(key, now, at))
    ensures var n := Next(s, Verify(key, now, at)); InThePast(n) && s.clock <= n.clock
  {
    EnterBreaker(s.r, key, now, at, s.calls);
  }

  lemma {:induction false} AnswerInThePast(s: State, call: nat, v: Verdict, at: int, victim: Key)
    requires InThePast(s) && Enabled(s, Answer(call, v, at, victim))
    ensures var n := Next(s, Answer(call, v, at, victim)); InThePast(n) && s.clock <= n.clock
  {
    FinishBreaker(s.r, s.running[call].key, v, s.running[call].start, at, victim);
  }

  lemma {:induction false} BreakerInThePast(clock: int, es: seq<Event>)
    ensures InThePast(Run(clock, es))
    decreases |es|
  {
    if es != [] {
      BreakerInThePast(clock, es[..|es| - 1]);
      NextInThePast(Run(clock, es[..|es| - 1]), es[|es| - 1]);
    }
  }

  function AcceptsAt(clock: int, es: seq<Event>): nat -> bool {
    (j: nat) => j < |es| && Accepts(Run(clock, es[..j]), es[j])
  }

  function OpensAt(clock: int, es: seq<Event>): nat -> bool {
    (j: nat) => j < |es| && Opens(Run(clock, es[..j]), es[j])
  }

  /** Of the events from the i-th to before the k-th that accept or open, the last one accepted. */
  predicate Reopened(clock: int, es: seq<Event>, i: nat, k: nat)
    requires k <= |es|
  {
    i < k &&
    var s, e := Run(clock, es[..k - 1]), es[k - 1];
    (Accepts(s, e) || (Reopened(clock, es, i, k - 1) && !Opens(s, e)))
  }

  /** The same said outright: an accepting answer came in, and no streak opened the breaker again since. */
  lemma {:induction false} ReopenedMeans(clock: int, es: seq<Event>, i: nat, k: nat)
    requires i <= k <= |es|
    ensures Reopened(clock, es, i, k) <==> Since(AcceptsAt(clock, es), OpensAt(clock, es), i, k)
    decreases k
  {
    if i < k {
      ReopenedMeans(clock, es, i, k - 1);
      SinceStep(AcceptsAt(clock, es), OpensAt(clock, es), i, k - 1);
    }
  }

  lemma {:induction false} RunStep(clock: int, es: seq<Event>, k: nat)
    requires k < |es|
    ensures Run(clock, es[..k + 1]) == Next(Run(clock, es[..k]), es[k])
  {
    assert es[..k + 1][..k] == es[..k];
  }

  lemma {:induction false} StaysWithin(clock: int, es: seq<Event>, i: nat, k: nat, t0: int)
    requires i <= k <= |es| && Run(clock, es[..i]).r.breaker == Some(t0) && Run(clock, es[..k]).clock < t0 + COOLDOWN
    ensures Within(Run(clock, es[..k]), t0)
    decreases k
  {
    if i == k {
      BreakerInThePast(clock, es[..i]);
    } else {
      ClockGrows(clock, es, k - 1, k);
      StaysWithin(clock, es, i, k - 1, t0);
      RunStep(clock, es, k - 1);
      StepOfWindow(Run(clock, es[..k - 1]), es[k - 1], t0);
    }
  }

  lemma {:induction false} ClockGrows(clock: int, es: seq<Event>, j: nat, k: nat)
    requires j <= k <= |es|
    ensures Run(clock, es[..j]).clock <= Run(clock, es[..k]).clock
    decreases k
  {
    if j < k {
      ClockGrows(clock, es, j, k - 1);
      RunStep(clock, es, k - 1);
      BreakerInThePast(clock, es[..k - 1]);
      NextInThePast(Run(clock, es[..k - 1]), es[k - 1]);
    }
  }

  lemma {:induction false} ClosedStep(clock: int, es: seq<Event>, i: nat, k: nat, t0: int)
    requires i <= k < |es| && Run(clock, es[..i]).r.breaker == Some(t0)
    requires Run(clock, es[..k + 1]).clock < t0 + COOLDOWN
    ensures var s, e := Run(clock, es[..k]), es[k];
            Run(clock, es[..k + 1]).r.breaker.None? <==> Accepts(s, e) || (s.r.breaker.None? && !Opens(s, e))
  {
    var s, e := Run(clock, es[..k]), es[k];
    ClockGrows(clock, es, k, k + 1);
    RunStep(clock, es, k);
    StaysWithin(clock, es, i, k, t0);
    StepOfWindow(s, e, t0);
    AfterIs(s, e, Accepts(s, e), Opens(s, e));
  }

  /** From a state with the breaker open at t0, until the cooldown is over, it is closed iff it was reopened so. */
  lemma {:induction false} ClosedIffReopened(clock: int, es: seq<Event>, i: nat, k: nat, t0: int)
    requires i <= k <= |es| && Run(clock, es[..i]).r.breaker == Some(t0) && Run(clock, es[..k]).clock < t0 + COOLDOWN
    ensures Run(clock, es[..k]).r.breaker.None? <==> Reopened(clock, es, i, k)
    decreases k
  {
    if i < k {
      ClockGrows(clock, es, k - 1, k);
      ClosedIffReopened(clock, es, i, k - 1, t0);
      ClosedStep(clock, es, i, k - 1, t0);
    }
  }

  lemma {:induction false} AfterIs(s: State, e: Event, accepts: bool, opens: bool)
    requires accepts == Accepts(s, e) && opens == Opens(s, e)
    ensures BreakerAfter(s, e).None? <==> accepts || (s.r.breaker.None? && !opens)
  {
  }

  /** A step that leaves the clock inside the cooldown changes the breaker as BreakerAfter says. */
  lemma {:induction false} StepOfWindow(s: State, e: Event, t0: int)
    requires Within(s, t0) && Next(s, e).clock < t0 + COOLDOWN
    ensures Next(s, e).r.breaker == BreakerAfter(s, e) && Within(Next(s, e), t0)
  {
    if Enabled(s, e) && !e.Collect? && !e.Cancel? {
      assert Next(s, e).clock == e.at;
      BreakerStep(s, e, t0);
    }
  }

  /**
   The promise that no call starts during a cooldown, exactly: a step in the
   cooldown starts a call iff it is a request for a key neither cached nor in
   flight, and an earlier call was accepted meanwhile with no new streak since.
   */
  lemma {:induction false} CallInCooldownIff(clock: int, es: seq<Event>, i: nat, k: nat, t0: int)
    requires i <= k < |es| && Run(clock, es[..i]).r.breaker == Some(t0) && es[k].at < t0 + COOLDOWN
    ensures var s, e := Run(clock, es[..k]), es[k];
            Run(clock, es[..k + 1]).calls > s.calls <==>
            Enabled(s, e) && e.Verify? && !Live(s.r, e.key, e.now) && e.key !in s.r.inFlight &&
            Reopened(clock, es, i, k)
  {
    var s, e := Run(clock, es[..k]), es[k];
    RunStep(clock, es, k);
    if Enabled(s, e) && e.Verify? {
      StaysWithin(clock, es, i, k, t0);
      ClosedIffReopened(clock, es, i, k, t0);
      VerifyFlight(s, e.key, e.now, e.at);
    }
  }

  lemma {:induction false} NotReopened(clock: int, es: seq<Event>, i: nat, k: nat)
    requires k <= |es| && forall j | i <= j < k :: !Accepts(Run(clock, es[..j]), es[j])
    ensures !Reopened(clock, es, i, k)
    decreases k
  {
    if i < k {
      NotReopened(clock, es, i, k - 1);
    }
  }

  /** In particular none starts while no earlier call comes back accepted. */
  lemma {:induction false} BreakerHolds(clock: int, es: seq<Event>, i: nat, k: nat, t0: int)
    requires i <= k < |es| && Run(clock, es[..i]).r.breaker == Some(t0) && es[k].at < t0 + COOLDOWN
    requires forall j | i <= j < k :: !Accepts(Run(clock, es[..j]), es[j])
    ensures Run(clock, es[..k + 1]).calls == Run(clock, es[..k]).calls
  {
    CallInCooldownIff(clock, es, i, k, t0);
    NotReopened(clock, es, i, k);
    RunStep(clock, es, k);
    CallsGrow(Run(clock, es[..k]), es[k]);
  }

  lemma {:induction false} CallsGrow(s: State, e: Event)
    ensures s.calls <= Next(s, e).calls
  {
  }

  /** In every state an accepting answer lets the next request for a key neither cached nor in flight call at once. */
  lemma {:induction false} AcceptedReopens(s: State, e: Event, key: Key, now: int, at: int)
    requires CallsOk(s) && Accepts(s, e) && now <= at && e.at <= at
    requires !Live(s.r, key, now) && key !in s.r.inFlight
    ensures Next(Next(s, e), Verify(key, now, at)).calls == s.calls + 1
  {
    var n, p := Next(s, e), s.running[e.call];
    assert CallOk(s, e.call);
    AnswerFlight(s, e.call, e.v, e.at, e.victim);
    AnswerBreaker(s, e);
    assert key != p.key;
    if key in n.r.entries { FinishAt(s.r, p.key, e.v, p.start, e.at, e.victim, key); }
    VerifyFlight(n, key, now, at);
  }

  // ---- an outage, from the start

  ghost predicate Reachable(s: State) {
    exists es :: Run(0, es) == s
  }

  lemma {:induction false} ReachNext(s: State, e: Event)
    requires Reachable(s)
    ensures Reachable(Next(s, e))
  {
    var es :| Run(0, es) == s;
    assert (es + [e])[..|es|] == es;
    assert Run(0, es + [e]) == Next(s, e);
  }

  /** A call for a is under way and one for b has just failed. */
  predicate Outage(s: State, a: Key, b: Key, errors: nat, breaker: Option<int>) {
    s.r == Resolver(map[b := Refused(Unavailable, ERROR_TTL)], map[a := 0], errors, breaker) &&
    s.running == map[0 := Pending(a, 0)] && s.calls == 2 && s.clock == 0
  }

  predicate TwoCalls(s: State, a: Key, b: Key) {
    s.r == Resolver(map[], map[a := 0, b := 1], 0, None) && s.calls == 2 && s.clock == 0 &&
    s.running == map[0 := Pending(a, 0), 1 := Pending(b, 0)]
  }

  lemma {:induction false} OneCallStarts(a: Key)
    ensures var s := Next(Init(0), Verify(a, 0, 0));
            s.r == Resolver(map[], map[a := 0], 0, None) && s.running == map[0 := Pending(a, 0)] && s.calls == 1 &&
            s.clock == 0
  {
  }

  lemma {:induction false} TwoCallsStart(a: Key, b: Key)
    requires a != b
    ensures TwoCalls(Next(Next(Init(0), Verify(a, 0, 0)), Verify(b, 0, 0)), a, b)
  {
    OneCallStarts(a);
  }

  lemma {:induction false} OneFails(s: State, a: Key, b: Key)
    requires a != b && TwoCalls(s, a, b)
    ensures Outage(Next(s, Answer(1, Error, 0, b)), a, b, 1, None)
  {
    assert s.running - {1} == map[0 := Pending(a, 0)] && s.r.inFlight - {b} == map[a := 0];
  }

  lemma {:induction false} OutageBegins(a: Key, b: Key) returns (s: State)
    requires a != b
    ensures Reachable(s) && Outage(s, a, b, 1, None)
  {
    assert Run(0, []) == Init(0);
    ReachNext(Init(0), Verify(a, 0, 0));
    var s1 := Next(Init(0), Verify(a, 0, 0));
    ReachNext(s1, Verify(b, 0, 0));
    TwoCallsStart(a, b);
    var s2 := Next(s1, Verify(b, 0, 0));
    OneFails(s2, a, b);
    ReachNext(s2, Answer(1, Error, 0, b));
    s := Next(s2, Answer(1, Error, 0, b));
  }

  lemma {:induction false} CachedErrorCounts(s: State, a: Key, b: Key, errors: nat)
    requires Outage(s, a, b, errors, None) && errors < THRESHOLD
    ensures var n := Next(s, Verify(b, 0, 0));
            if errors + 1 < THRESHOLD then Outage(n, a, b, errors + 1, None) else Outage(n, a, b, 0, Some(0))
  {
    assert Live(s.r, b, 0);
  }

  lemma {:induction false} OutageGoesOn(a: Key, b: Key, errors: nat) returns (s: State)
    requires a != b && 1 <= errors < THRESHOLD
    ensures Reachable(s) && Outage(s, a, b, errors, None)
    decreases errors
  {
    if errors == 1 {
      s := OutageBegins(a, b);
    } else {
      var before := OutageGoesOn(a, b, errors - 1);
      CachedErrorCounts(before, a, b, errors - 1);
      ReachNext(before, Verify(b, 0, 0));
      s := Next(before, Verify(b, 0, 0));
    }
  }

  /** A call from before the outage that comes back accepted lets a new key's call through in the cooldown. */
  lemma {:induction false} EarlierCallReopensTheWay(a: Key, b: Key, c: Key, id: Identity, ttl: int) returns (s: State)
    requires a != b && b != c && a != c
    ensures Reachable(s) && s.r.breaker == Some(0) && s.calls == 2
    ensures Next(Next(s, Answer(0, Allow(id, ttl), 0, a)), Verify(c, 0, 0)).calls == 3
  {
    var before := OutageGoesOn(a, b, 4);
    CachedErrorCounts(before, a, b, 4);
    ReachNext(before, Verify(b, 0, 0));
    s := Next(before, Verify(b, 0, 0));
    var es :| Run(0, es) == s;
    RunKeepsBounds(0, es);
    AcceptedReopens(s, Answer(0, Allow(id, ttl), 0, a), c, 0, 0);
  }
}

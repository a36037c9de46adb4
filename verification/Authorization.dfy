/**
 The rule table and its decisions (internal/authz/authorizer.go).

 A decision is stated by what it means for channels: a subscription key is
 granted exactly when no channel it can match is denied to the principal.
 */
module Authorization {
  import opened Options
  import opened Topics
  import opened Patterns
  import opened ChannelPolicies

  datatype Action = SubscribePattern | Publish | Recover | Presence | Survey

  datatype Reason = ByDefault | ByDenyAll | ByAllowList | ByEffects | NotRoutable | ByLanguage

  datatype Decision = Decision(allow: bool, reason: Reason, effects: ChannelPolicy)

  /** An absent allow list does not constrain the action; an empty one denies it. */
  datatype RuleConfig = RuleConfig(
    pattern: string, denyAll: bool, allowSubscribe: Option<seq<string>>, allowPublish: Option<seq<string>>,
    allowSurvey: Option<seq<string>>, spec: PolicySpec)

  datatype Config = Config(defaultSpec: PolicySpec, rules: seq<RuleConfig>)

  datatype Rule = Rule(
    raw: string, pattern: Compiled, denyAll: bool,
    allowSubscribe: Option<seq<string>>, subscribeAll: bool,
    allowPublish: Option<seq<string>>, publishAll: bool,
    allowSurvey: Option<seq<string>>, surveyAll: bool,
    surveySet: bool, effects: PolicySpec)

  predicate HasStarEntry(list: Option<seq<string>>) {
    list.Some? && "*" in list.value
  }

  // -------------------------------------------- what a configuration means

  /** The list names the user or has a "*" entry. */
  predicate Admits(list: Option<seq<string>>, user: string) {
    list.Some? && ("*" in list.value || user in list.value)
  }

  /** The rule denies the user an action with this list: to everybody, or by a list that does not admit the user. */
  predicate Denies(r: RuleConfig, list: Option<seq<string>>, user: string) {
    r.denyAll || (list.Some? && !Admits(list, user))
  }

  /** No channel the key matches is matched by a rule that denies the user. */
  ghost predicate SubscribeAllowed(rules: seq<RuleConfig>, user: string, key: string) {
    InKeyLanguage(key) &&
    forall i, ch | 0 <= i < |rules| && Match(key, ch) && Match(rules[i].pattern, ch) ::
      !Denies(rules[i], rules[i].allowSubscribe, user)
  }

  /** The same with allow lists waived: only deny-all rules bind. */
  ghost predicate SubscribeAllowedSkippingLists(rules: seq<RuleConfig>, key: string) {
    InKeyLanguage(key) &&
    forall i, ch | 0 <= i < |rules| && Match(key, ch) && Match(rules[i].pattern, ch) :: !rules[i].denyAll
  }

  predicate PublishDenied(r: RuleConfig, user: string, channel: string) {
    Match(r.pattern, channel) && Denies(r, r.allowPublish, user)
  }

  predicate PublishAllowed(rules: seq<RuleConfig>, user: string, channel: string) {
    forall i | 0 <= i < |rules| :: !PublishDenied(rules[i], user, channel)
  }

  /** The first rule in table order that denies the publish. */
  predicate FirstDenier(rules: seq<RuleConfig>, user: string, channel: string, i: nat) {
    i < |rules| && PublishDenied(rules[i], user, channel) && PublishAllowed(rules[..i], user, channel)
  }

  predicate DeniedToAll(rules: seq<RuleConfig>, channel: string) {
    exists i | 0 <= i < |rules| :: rules[i].denyAll && Match(rules[i].pattern, channel)
  }

  /** Some matching rule admits the user and none shuts the user out. */
  predicate SurveyAdmitted(rules: seq<RuleConfig>, user: string, channel: string) {
    !DeniedToAll(rules, channel) && !SurveyShutOut(rules, user, channel) && SurveyNamed(rules, user, channel)
  }

  predicate SurveyShutOut(rules: seq<RuleConfig>, user: string, channel: string) {
    exists i | 0 <= i < |rules| ::
      Match(rules[i].pattern, channel) && rules[i].allowSurvey.Some? && !Admits(rules[i].allowSurvey, user)
  }

  predicate SurveyNamed(rules: seq<RuleConfig>, user: string, channel: string) {
    exists i | 0 <= i < |rules| :: Match(rules[i].pattern, channel) && Admits(rules[i].allowSurvey, user)
  }

  /** A matching rule says something about surveys. */
  predicate SurveyTouched(rules: seq<RuleConfig>, channel: string) {
    exists i | 0 <= i < |rules| :: Match(rules[i].pattern, channel) && rules[i].spec.survey.Some?
  }

  lemma SurveyFactsOfOneMore(rules: seq<RuleConfig>, r: RuleConfig, user: string, channel: string)
    ensures var more, hit := rules + [r], Match(r.pattern, channel);
            (SurveyTouched(more, channel) <==> SurveyTouched(rules, channel) || (hit && r.spec.survey.Some?)) &&
            (DeniedToAll(more, channel) <==> DeniedToAll(rules, channel) || (hit && r.denyAll)) &&
            (SurveyShutOut(more, user, channel) <==>
             SurveyShutOut(rules, user, channel) || (hit && r.allowSurvey.Some? && !Admits(r.allowSurvey, user))) &&
            (SurveyNamed(more, user, channel) <==>
             SurveyNamed(rules, user, channel) || (hit && Admits(r.allowSurvey, user)))
  {
    var more := rules + [r];
    assert more[|rules|] == r && forall i | 0 <= i < |rules| :: more[i] == rules[i];
  }

  /** Every matching rule overlays its spec, in table order. */
  function OverlayMatching(base: ChannelPolicy, rules: seq<RuleConfig>, channel: string): ChannelPolicy {
    if rules == [] then base else
    var n := |rules| - 1;
    var pol := OverlayMatching(base, rules[..n], channel);
    if Match(rules[n].pattern, channel) then Overlay(pol, rules[n].spec) else pol
  }

  function BaseOf(cfg: Config): ChannelPolicy {
    Overlay(DEFAULT_POLICY, cfg.defaultSpec)
  }

  function EffectsOf(cfg: Config, channel: string): ChannelPolicy {
    ForceTransient(OverlayMatching(BaseOf(cfg), cfg.rules, channel))
  }

  // ------------------------------------------------------------ compilation

  /** r is the compiled form of the configured rule. */
  predicate Compiled(c: RuleConfig, r: Rule) {
    r.raw == c.pattern && Compile(c.pattern) == Some(r.pattern) && r.denyAll == c.denyAll &&
    r.allowSubscribe == c.allowSubscribe && r.subscribeAll == HasStarEntry(c.allowSubscribe) &&
    r.allowPublish == c.allowPublish && r.publishAll == HasStarEntry(c.allowPublish) &&
    r.allowSurvey == c.allowSurvey && r.surveyAll == HasStarEntry(c.allowSurvey) &&
    r.surveySet == c.spec.survey.Some? && r.effects == c.spec
  }

  /** rules is the compiled form of table, entry by entry. */
  predicate CompiledTable(table: seq<RuleConfig>, rules: seq<Rule>) {
    |rules| == |table| && forall i | 0 <= i < |table| :: Compiled(table[i], rules[i])
  }

  /** compileAllowList: the list as it is, and whether it has a "*" entry. */
  method CompileAllowList(list: Option<seq<string>>) returns (compiled: Option<seq<string>>, all: bool)
    ensures compiled == list && all == HasStarEntry(list)
  {
    if list.None? {
      return None, false;
    }
    all := false;
    for i := 0 to |list.value|
      invariant all <==> "*" in list.value[..i]
    {
      if list.value[i] == "*" {
        all := true;
      }
    }
    assert list.value[..|list.value|] == list.value;
    return list, all;
  }

  method CompileRule(c: RuleConfig) returns (r: Option<Rule>)
    ensures r.Some? <==> InKeyLanguage(c.pattern)
    ensures r.Some? ==> Compiled(c, r.value)
  {
    var pattern := Compile(c.pattern);
    CompileAcceptsKeys(c.pattern);
    if pattern.None? {
      return None;
    }
    var subscribe, subscribeAll := CompileAllowList(c.allowSubscribe);
    var publish, publishAll := CompileAllowList(c.allowPublish);
    var survey, surveyAll := CompileAllowList(c.allowSurvey);
    return Some(Rule(c.pattern, pattern.value, c.denyAll, subscribe, subscribeAll, publish, publishAll,
                     survey, surveyAll, c.spec.survey.Some?, c.spec));
  }

  /** Fails at the first entry outside the key language. */
  method CompileTable(table: seq<RuleConfig>) returns (rules: Option<seq<Rule>>)
    ensures rules.Some? <==> forall i | 0 <= i < |table| :: InKeyLanguage(table[i].pattern)
    ensures rules.Some? ==> CompiledTable(table, rules.value)
  {
    var done: seq<Rule> := [];
    for i := 0 to |table|
      invariant CompiledTable(table[..i], done)
      invariant forall j | 0 <= j < i :: InKeyLanguage(table[j].pattern)
    {
      var compiled := CompileRule(table[i]);
      if compiled.None? {
        return None;
      }
      done := done + [compiled.value];
    }
    assert table[..|table|] == table;
    return Some(done);
  }

  predicate RuleDenies(r: Rule, list: Option<seq<string>>, wildcard: bool, user: string) {
    if r.denyAll then true
    else if list.None? then false
    else if wildcard then false
    else user !in list.value
  }

  const NO_SPEC := PolicySpec(None, None, None, None, None, None)

  class Authorizer {
    var base: ChannelPolicy
    var rules: seq<Rule>
    /** The configuration in force. */
    ghost var cfg: Config

    ghost predicate Valid()
      reads this
    {
      base == BaseOf(cfg) && CompiledTable(cfg.rules, rules)
    }

    /** The authorizer with no rules. */
    constructor ()
      ensures Valid() && cfg == Config(NO_SPEC, [])
    {
      base, rules, cfg := DEFAULT_POLICY, [], Config(NO_SPEC, []);
    }

    /** Puts the whole configuration in force, or changes nothing. */
    method ReplaceRules(next: Config) returns (ok: bool)
      requires Valid()
      modifies this
      ensures Valid()
      ensures ok <==> forall i | 0 <= i < |next.rules| :: InKeyLanguage(next.rules[i].pattern)
      ensures cfg == if ok then next else old(cfg)
      ensures !ok ==> base == old(base) && rules == old(rules)
    {
      var compiled := CompileTable(next.rules);
      if compiled.None? {
        return false;
      }
      base, rules, cfg := Overlay(DEFAULT_POLICY, next.defaultSpec), compiled.value, next;
      return true;
    }

    method Effects(channel: string) returns (pol: ChannelPolicy)
      requires Valid()
      ensures pol == EffectsOf(cfg, channel)
    {
      pol := base;
      for i := 0 to |rules|
        invariant pol == OverlayMatching(base, cfg.rules[..i], channel)
      {
        assert cfg.rules[..i + 1][..i] == cfg.rules[..i];
        if Match(rules[i].raw, channel) {
          pol := Overlay(pol, rules[i].effects);
        }
      }
      assert cfg.rules[..|rules|] == cfg.rules;
      if pol.transientOnly {
        pol := pol.(history := false, recover := false);
      }
    }

    /**
     The subscribe decision ranges over channels it never lists: it grants the
     key exactly when no channel of the key's language is denied to the user.
     */
    method DecideSubscribe(user: string, key: string) returns (d: Decision)
      requires Valid()
      ensures d.allow <==> SubscribeAllowed(cfg.rules, user, key)
      ensures d.reason == if d.allow then ByDefault else if InKeyLanguage(key) then ByLanguage else NotRoutable
      ensures d.effects == EffectsOf(cfg, key)
    {
      var effects := Effects(key);
      var compiled := Compile(key);
      CompileAcceptsKeys(key);
      if compiled.None? {
        return Decision(false, NotRoutable, effects);
      }
      for i := 0 to |rules|
        invariant forall j, ch | 0 <= j < i && Match(key, ch) && Match(cfg.rules[j].pattern, ch) ::
            !Denies(cfg.rules[j], cfg.rules[j].allowSubscribe, user)
      {
        IntersectExact(key, rules[i].raw);
        if RuleDenies(rules[i], rules[i].allowSubscribe, rules[i].subscribeAll, user) &&
           PatternsIntersect(compiled.value, rules[i].pattern) {
          return Decision(false, ByLanguage, effects);
        }
      }
      return Decision(true, ByDefault, effects);
    }

    /** A holder of subscribe.any skips the lists; a deny-all still binds. */
    method DecideSubscribeSkipAllowLists(key: string) returns (d: Decision)
      requires Valid()
      ensures d.allow <==> SubscribeAllowedSkippingLists(cfg.rules, key)
      ensures d.reason == if d.allow then ByDefault else if InKeyLanguage(key) then ByLanguage else NotRoutable
      ensures d.effects == EffectsOf(cfg, key)
    {
      var effects := Effects(key);
      var compiled := Compile(key);
      CompileAcceptsKeys(key);
      if compiled.None? {
        return Decision(false, NotRoutable, effects);
      }
      for i := 0 to |rules|
        invariant forall j, ch | 0 <= j < i && Match(key, ch) && Match(cfg.rules[j].pattern, ch) ::
            !cfg.rules[j].denyAll
      {
        IntersectExact(key, rules[i].raw);
        if rules[i].denyAll && PatternsIntersect(compiled.value, rules[i].pattern) {
          return Decision(false, ByLanguage, effects);
        }
      }
      return Decision(true, ByDefault, effects);
    }

    method DecidePublish(user: string, channel: string) returns (d: Decision)
      requires Valid()
      ensures d.allow <==> PublishAllowed(cfg.rules, user, channel)
      ensures d.allow ==> d.reason == ByDefault
      ensures !d.allow ==> exists i: nat :: FirstDenier(cfg.rules, user, channel, i) &&
                                            d.reason == if cfg.rules[i].denyAll then ByDenyAll else ByAllowList
      ensures d.effects == EffectsOf(cfg, channel)
    {
      var effects := Effects(channel);
      for i := 0 to |rules|
        invariant PublishAllowed(cfg.rules[..i], user, channel)
      {
        assert FirstDenier(cfg.rules, user, channel, i) <==> PublishDenied(cfg.rules[i], user, channel);
        if Match(rules[i].raw, channel) {
          if rules[i].denyAll {
            return Decision(false, ByDenyAll, effects);
          }
          if RuleDenies(rules[i], rules[i].allowPublish, rules[i].publishAll, user) {
            return Decision(false, ByAllowList, effects);
          }
        }
      }
      assert cfg.rules[..|rules|] == cfg.rules;
      return Decision(true, ByDefault, effects);
    }

    /** The accumulating survey decision; surveys are off unless the policy turns them on. */
    method DecideSurvey(user: string, channel: string) returns (d: Decision)
      requires Valid()
      ensures d.allow <==> EffectsOf(cfg, channel).survey && SurveyAdmitted(cfg.rules, user, channel)
      ensures d.reason == ByEffects <==>
              !EffectsOf(cfg, channel).survey && (BaseOf(cfg).survey || SurveyTouched(cfg.rules, channel))
      ensures d.reason == ByDenyAll <==> EffectsOf(cfg, channel).survey && DeniedToAll(cfg.rules, channel)
      ensures d.reason == ByAllowList <==>
              EffectsOf(cfg, channel).survey && !DeniedToAll(cfg.rules, channel) &&
              SurveyShutOut(cfg.rules, user, channel)
      ensures d.reason in {ByDefault, ByEffects, ByDenyAll, ByAllowList}
      ensures d.effects == EffectsOf(cfg, channel)
    {
      var effects := Effects(channel);
      var denied: Option<Reason>, allowed := None, false;
      var touched := base.survey != DEFAULT_POLICY.survey;
      for i := 0 to |rules|
        invariant touched <==> base.survey || SurveyTouched(cfg.rules[..i], channel)
        invariant denied == Some(ByDenyAll) <==> DeniedToAll(cfg.rules[..i], channel)
        invariant denied.Some? <==> DeniedToAll(cfg.rules[..i], channel) || SurveyShutOut(cfg.rules[..i], user, channel)
        invariant denied in {None, Some(ByDenyAll), Some(ByAllowList)}
        invariant allowed <==> SurveyNamed(cfg.rules[..i], user, channel)
      {
        var r := rules[i];
        assert cfg.rules[..i + 1] == cfg.rules[..i] + [cfg.rules[i]];
        SurveyFactsOfOneMore(cfg.rules[..i], cfg.rules[i], user, channel);
        if Match(r.raw, channel) {
          if r.surveySet {
            touched := true;
          }
          if r.denyAll {
            denied := Some(ByDenyAll);
          }
          if r.allowSurvey.Some? {
            if r.surveyAll || user in r.allowSurvey.value {
              allowed := true;
            } else if denied.None? {
              denied := Some(ByAllowList);
            }
          }
        }
      }
      assert cfg.rules[..|rules|] == cfg.rules;
      if !effects.survey {
        return Decision(false, if touched then ByEffects else ByDefault, effects);
      }
      if denied.Some? {
        return Decision(false, denied.value, effects);
      }
      return Decision(allowed, ByDefault, effects);
    }

    /** Reading history or presence: an ordinary channel, not denied, with the policy on. */
    method DecideRead(action: Action, channel: string) returns (d: Decision)
      requires Valid() && (action.Recover? || action.Presence?)
      ensures d.allow <==>
              !IsWildcard(channel) && !DeniedToAll(cfg.rules, channel) &&
              var pol := EffectsOf(cfg, channel); if action.Recover? then pol.recover else pol.presence
      ensures d.reason == ByDenyAll <==> !IsWildcard(channel) && DeniedToAll(cfg.rules, channel)
      ensures d.reason == ByEffects <==> !d.allow && !IsWildcard(channel) && !DeniedToAll(cfg.rules, channel)
      ensures d.reason in {ByDefault, ByEffects, ByDenyAll}
      ensures d.effects == EffectsOf(cfg, channel)
    {
      var effects := Effects(channel);
      if IsWildcard(channel) {
        return Decision(false, ByDefault, effects);
      }
      for i := 0 to |rules|
        invariant !DeniedToAll(cfg.rules[..i], channel)
      {
        if rules[i].denyAll && Match(rules[i].raw, channel) {
          return Decision(false, ByDenyAll, effects);
        }
      }
      assert cfg.rules[..|rules|] == cfg.rules;
      if !(if action.Recover? then effects.recover else effects.presence) {
        return Decision(false, ByEffects, effects);
      }
      return Decision(true, ByDefault, effects);
    }

    /** The subscribed keys the current table no longer grants, in order. */
    method PatternsToRevoke(user: string, subscribed: seq<string>) returns (revoked: seq<string>)
      requires Valid()
      ensures revoked == Revoked(cfg.rules, user, subscribed)
    {
      revoked := [];
      for i := 0 to |subscribed|
        invariant revoked == Revoked(cfg.rules, user, subscribed[..i])
      {
        assert subscribed[..i + 1][..i] == subscribed[..i];
        var d := DecideSubscribe(user, subscribed[i]);
        if !d.allow {
          revoked := revoked + [subscribed[i]];
        }
      }
      assert subscribed[..|subscribed|] == subscribed;
    }
  }

  ghost function Revoked(rules: seq<RuleConfig>, user: string, keys: seq<string>): seq<string> {
    if keys == [] then [] else
    var n := |keys| - 1;
    Revoked(rules, user, keys[..n]) + if SubscribeAllowed(rules, user, keys[n]) then [] else [keys[n]]
  }

  // --------------------------------------------------------------- theorems

  /**
   After a rule replacement and its revocations no channel that a denying rule
   matches still reaches the user through a key the user keeps.
   */
  lemma {:induction false} RevocationIsComplete(rules: seq<RuleConfig>, user: string, keys: seq<string>, key: string)
    requires key in keys
    ensures key in Revoked(rules, user, keys) <==>
            !InKeyLanguage(key) ||
            exists i, ch :: 0 <= i < |rules| && Match(key, ch) && Match(rules[i].pattern, ch) &&
                            Denies(rules[i], rules[i].allowSubscribe, user)
  {
    RevokedMembers(rules, user, keys, key);
  }

  lemma {:induction false} RevokedMembers(rules: seq<RuleConfig>, user: string, keys: seq<string>, key: string)
    ensures key in Revoked(rules, user, keys) <==> key in keys && !SubscribeAllowed(rules, user, key)
  {
    if keys != [] {
      var n := |keys| - 1;
      RevokedMembers(rules, user, keys[..n], key);
      assert key in keys <==> key in keys[..n] || key == keys[n];
    }
  }

  /** Wherever a rule is inserted, it grants nothing that was denied before. */
  lemma AddingARuleNeverGrants(rules: seq<RuleConfig>, r: RuleConfig, at: nat, user: string, key: string)
    requires at <= |rules|
    ensures var more := rules[..at] + [r] + rules[at..];
            (SubscribeAllowed(more, user, key) ==> SubscribeAllowed(rules, user, key)) &&
            (SubscribeAllowedSkippingLists(more, key) ==> SubscribeAllowedSkippingLists(rules, key)) &&
            (PublishAllowed(more, user, key) ==> PublishAllowed(rules, user, key))
  {
    var more := rules[..at] + [r] + rules[at..];
    assert forall i | 0 <= i < |rules| :: rules[i] == more[if i < at then i else i + 1];
  }

  /** Skipping the lists opens lists only: what it grants beyond a user's own grant, a list withheld. */
  lemma SkippingListsOnlyOpensLists(rules: seq<RuleConfig>, user: string, key: string)
    ensures SubscribeAllowed(rules, user, key) ==> SubscribeAllowedSkippingLists(rules, key)
    ensures SubscribeAllowedSkippingLists(rules, key) && !SubscribeAllowed(rules, user, key) ==>
            exists i, ch :: 0 <= i < |rules| && Match(key, ch) && Match(rules[i].pattern, ch) &&
                            rules[i].allowSubscribe.Some? && !Admits(rules[i].allowSubscribe, user)
  {
    if SubscribeAllowedSkippingLists(rules, key) && !SubscribeAllowed(rules, user, key) {
      var i, ch :| 0 <= i < |rules| && Match(key, ch) && Match(rules[i].pattern, ch) &&
                   Denies(rules[i], rules[i].allowSubscribe, user);
      assert !rules[i].denyAll;
    }
  }

  /**
   A granted key covers publishing checks point by point: a user granted a
   literal channel meets no denying rule on it, so for rules whose publish and
   subscribe lists coincide the two decisions agree on every literal channel.
   */
  lemma LiteralChannelDecisionsAgree(rules: seq<RuleConfig>, user: string, channel: string)
    requires Concrete(channel)
    requires forall i | 0 <= i < |rules| :: rules[i].allowPublish == rules[i].allowSubscribe
    ensures SubscribeAllowed(rules, user, channel) <==> PublishAllowed(rules, user, channel)
  {
    CompileAcceptsKeys(channel);
    CompileMeaning(channel, channel);
    forall ch | Match(channel, ch) ensures Split(ch) == Split(channel) {
      CompileMeaning(channel, ch);
    }
  }

  /** The last matching rule that sets a field decides it; with none, the base does. */
  ghost function LastSet<T>(rules: seq<RuleConfig>, channel: string, field: PolicySpec -> Option<T>, base: T): T {
    if rules == [] then base else
    var n := |rules| - 1;
    if Match(rules[n].pattern, channel) && field(rules[n].spec).Some? then field(rules[n].spec).value
    else LastSet(rules[..n], channel, field, base)
  }

  /** For any field that an overlay overrides or keeps. */
  lemma {:induction false} LaterRulesOverride<T>(base: ChannelPolicy, rules: seq<RuleConfig>, channel: string,
                                                 field: PolicySpec -> Option<T>, get: ChannelPolicy -> T)
    requires forall pol, spec :: get(Overlay(pol, spec)) == Or(field(spec), get(pol))
    ensures get(OverlayMatching(base, rules, channel)) == LastSet(rules, channel, field, get(base))
  {
    if rules != [] {
      LaterRulesOverride(base, rules[..|rules| - 1], channel, field, get);
    }
  }

  /** What the configuration says last about a field, for a channel: the last matching rule, the default, or nothing. */
  ghost function Say<T>(cfg: Config, channel: string, field: PolicySpec -> Option<T>, unsaid: T): T {
    LastSet(cfg.rules, channel, field, if field(cfg.defaultSpec).Some? then field(cfg.defaultSpec).value else unsaid)
  }

  function SpecHistory(s: PolicySpec): Option<bool> { s.history }
  function SpecPresence(s: PolicySpec): Option<bool> { s.presence }
  function SpecRecover(s: PolicySpec): Option<bool> { s.recover }
  function SpecSurvey(s: PolicySpec): Option<bool> { s.survey }
  function SpecTransient(s: PolicySpec): Option<bool> { s.transientOnly }
  function SpecLimit(s: PolicySpec): Option<int> { s.recoverLimit }

  /** For one field: the overlays come to the last say. */
  lemma {:induction false} SayIs<T>(cfg: Config, channel: string, field: PolicySpec -> Option<T>,
                                    get: ChannelPolicy -> T, unsaid: T)
    requires forall pol, spec :: get(Overlay(pol, spec)) == Or(field(spec), get(pol))
    requires get(DEFAULT_POLICY) == unsaid
    ensures get(OverlayMatching(BaseOf(cfg), cfg.rules, channel)) == Say(cfg, channel, field, unsaid)
  {
    LaterRulesOverride(BaseOf(cfg), cfg.rules, channel, field, get);
  }

  /** The policy before transient-only has its way. */
  function Overlaid(cfg: Config, channel: string): ChannelPolicy {
    OverlayMatching(BaseOf(cfg), cfg.rules, channel)
  }

  lemma {:induction false} HistorySays(cfg: Config, channel: string)
    ensures Overlaid(cfg, channel).history == Say(cfg, channel, SpecHistory, true)
    ensures Overlaid(cfg, channel).transientOnly == Say(cfg, channel, SpecTransient, false)
  {
    SayIs(cfg, channel, SpecHistory, (p: ChannelPolicy) => p.history, true);
    SayIs(cfg, channel, SpecTransient, (p: ChannelPolicy) => p.transientOnly, false);
  }

  lemma {:induction false} ReadSays(cfg: Config, channel: string)
    ensures Overlaid(cfg, channel).recover == Say(cfg, channel, SpecRecover, true)
    ensures Overlaid(cfg, channel).presence == Say(cfg, channel, SpecPresence, true)
  {
    SayIs(cfg, channel, SpecRecover, (p: ChannelPolicy) => p.recover, true);
    SayIs(cfg, channel, SpecPresence, (p: ChannelPolicy) => p.presence, true);
  }

  lemma {:induction false} OtherSays(cfg: Config, channel: string)
    ensures Overlaid(cfg, channel).survey == Say(cfg, channel, SpecSurvey, false)
    ensures Overlaid(cfg, channel).recoverLimit == Say(cfg, channel, SpecLimit, 0)
  {
    SayIs(cfg, channel, SpecSurvey, (p: ChannelPolicy) => p.survey, false);
    SayIs(cfg, channel, SpecLimit, (p: ChannelPolicy) => p.recoverLimit, 0);
  }

  /**
   The effective policy field by field, on the configuration: the last say decides,
   history, presence and recovery are on and surveys off where nothing is said, and
   a transient-only channel has neither history nor recovery.
   */
  lemma {:induction false} EffectsAreLastSays(cfg: Config, channel: string)
    ensures var pol, transient := EffectsOf(cfg, channel), Say(cfg, channel, SpecTransient, false);
            pol.transientOnly == transient && pol.presence == Say(cfg, channel, SpecPresence, true) &&
            pol.survey == Say(cfg, channel, SpecSurvey, false) &&
            pol.recoverLimit == Say(cfg, channel, SpecLimit, 0) &&
            (pol.history <==> Say(cfg, channel, SpecHistory, true) && !transient) &&
            (pol.recover <==> Say(cfg, channel, SpecRecover, true) && !transient)
  {
    HistorySays(cfg, channel);
    ReadSays(cfg, channel);
    OtherSays(cfg, channel);
    assert EffectsOf(cfg, channel) == ForceTransient(Overlaid(cfg, channel));
  }
}

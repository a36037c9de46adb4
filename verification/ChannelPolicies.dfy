/**
 The per-channel policy fields that the authorizer and recovery read, and their
 overlay (internal/channel/channel_policy.go).
 */
module ChannelPolicies {
  import opened Options

  datatype ChannelPolicy = ChannelPolicy(
    history: bool, presence: bool, recover: bool, survey: bool, transientOnly: bool, recoverLimit: int)

  /** An absent field is not overridden. */
  datatype PolicySpec = PolicySpec(
    history: Option<bool>, presence: Option<bool>, recover: Option<bool>, survey: Option<bool>,
    transientOnly: Option<bool>, recoverLimit: Option<int>)

  const DEFAULT_POLICY := ChannelPolicy(true, true, true, false, false, 0)

  function Or<T>(o: Option<T>, default: T): T {
    if o.Some? then o.value else default
  }

  function Overlay(pol: ChannelPolicy, spec: PolicySpec): ChannelPolicy {
    ChannelPolicy(
      Or(spec.history, pol.history), Or(spec.presence, pol.presence), Or(spec.recover, pol.recover),
      Or(spec.survey, pol.survey), Or(spec.transientOnly, pol.transientOnly),
      Or(spec.recoverLimit, pol.recoverLimit))
  }

  /** A transient-only channel never keeps or replays history. */
  function ForceTransient(pol: ChannelPolicy): ChannelPolicy {
    if pol.transientOnly then pol.(history := false, recover := false) else pol
  }
}

/** Guarantees that need several parts of the process at once. */
module Guarantees {
  import opened Prelude
  import opened DepMetrics
  import opened Aggregate
  import C = Config
  import opened Readiness
  import opened ReadinessCore
  import opened ReadinessTheorems
  import opened ReadinessTiming
  import opened ReadinessUrgent
  import opened ReadinessMetrics
  import P = Process

  /** The options cmd/api/main.go builds from a loaded configuration. */
  function OptionsFrom(c: C.Config): Options {
    Options(c.serviceName, c.version, P.WIRED_NAMES, c.healthCheckTimeout, c.healthCacheTTL)
  }

  /** The three checkers in their order, each bounded by the configured timeout, and the configured TTL. */
  lemma OptionsAreAsConfigured(c: C.Config)
    ensures OptionsFrom(c).names == ["kafka", "clickhouse", "redis"]
    ensures OptionsFrom(c).timeout == c.healthCheckTimeout && OptionsFrom(c).ttl == c.healthCacheTTL
    ensures OptionsFrom(c).service == c.serviceName && OptionsFrom(c).version == c.version
  {}

  /** A history of the process built from what Load accepted, counting time only in checks. */
  ghost predicate RunsTimely(env: C.Env, d: C.ServiceDefaults, lib: C.Lib, h: P.History) {
    C.Problems(env, d, lib) == [] && P.IsTimelyHistory(OptionsFrom(C.Parsed(env, d, lib)), h)
  }

  /**
   Under every configuration Load accepts, counting time only in checks: if every check called from
   healedAt on succeeds, a call that begins two Timeouts after that or later and reports no shutdown is ready.
   */
  lemma AcceptedConfigurationsRecover(
      env: C.Env, d: C.ServiceDefaults, lib: C.Lib, h: P.History, k: nat, c: nat, healedAt: Time)
    requires RunsTimely(env, d, lib, h) && k < |h.states|
    requires var s := h.states[k].ready;
             && c in s.calls && s.calls[c].pc.Answered? && !s.calls[c].pc.result.shuttingDown
             && HealthyFrom(s, healedAt)
             && healedAt + 2 * C.Parsed(env, d, lib).healthCheckTimeout <= s.calls[c].begunAt
    ensures h.states[k].ready.calls[c].pc.result.status == Ready
  {
    var o := OptionsFrom(C.Parsed(env, d, lib));
    C.AcceptsExactlyTheUsable(env, d, lib);
    var r := P.ReadinessRuns(o, h, k);
    RecoveryTakesUnderTwoTimeouts(o, r, c, healedAt);
  }

  /** How long a call has been open: until it was answered, or until now. */
  function OpenFor(s: State, call: Call): Time {
    (if call.pc.Answered? then call.pc.answeredAt else s.now) - call.begunAt
  }

  /**
   Under every accepted configuration, counting time only in checks, no call is ever open for longer
   than the timeout, and with a positive TTL probe traffic is bounded.
   */
  lemma AcceptedConfigurationsBoundLoad(
      env: C.Env, d: C.ServiceDefaults, lib: C.Lib, h: P.History, k: nat, from: Time, width: Time, c: nat)
    requires RunsTimely(env, d, lib, h) && k < |h.states| && 0 <= width && c in h.states[k].ready.calls
    ensures var cfg, s := C.Parsed(env, d, lib), h.states[k].ready;
            && (cfg.healthCacheTTL > 0 ==> |StartsIn(s, from, width)| <= width / cfg.healthCacheTTL + 1)
            && 0 <= OpenFor(s, s.calls[c]) <= cfg.healthCheckTimeout <= 30_000_000_000
  {
    var o := OptionsFrom(C.Parsed(env, d, lib));
    C.AcceptsExactlyTheUsable(env, d, lib);
    var r := P.ReadinessRuns(o, h, k);
    if o.ttl > 0 {
      ProbeLoadIsBounded(o, r, from, width);
    }
    if Last(r).calls[c].pc.Answered? {
      CallsReturnWithinOneTimeout(o, r, c);
    } else {
      OpenCallsAreInTime(o, r, c);
    }
  }

  /**
   In the wired process, whenever no round is in progress: every dependency has been checked and
   observed once a round, and its gauge is its health in the cached result.
   */
  lemma ProcessMetricsMatchTheCache(o: Options, h: P.History, k: nat, i: nat)
    requires P.IsHistory(o, h) && k < |h.states| && o.names == P.WIRED_NAMES && i < |o.names|
    requires Published(h.states[k].ready) == |h.states[k].ready.rounds|
    ensures var s := h.states[k].ready;
            && |Observations(s.metrics, o.names[i])| == s.checkRounds
            && i < |s.checkCalls| && s.checkCalls[i] == s.checkRounds
            && (s.cached.Some? ==>
                  && i < |s.cached.value.result.dependencies| && o.names[i] in s.metrics.up
                  && s.metrics.up[o.names[i]] == if s.cached.value.result.dependencies[i].healthy then 1 else 0)
  {
    var r := P.ReadinessRuns(o, h, k);
    P.WiredNamesAreDistinct();
    MetricsMatchTheCache(o, r, |r.states| - 1, i);
  }
}

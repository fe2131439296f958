/**
 internal/health/aggregate.go, section by section: the results it hands out, and the Aggregator
 object with the code each goroutine runs between two points where others can interleave.
 Readiness composes the same sections for any number of concurrent callers.
 */
module Aggregate {
  import opened Prelude
  import opened Checker
  import opened DepMetrics

  datatype Verdict = Ready | NotReady

  datatype Result = Result(
    status: Verdict,
    service: string,
    version: string,
    evaluatedAt: Time,
    shuttingDown: bool,
    dependencies: seq<Status>)

  datatype Options = Options(service: string, version: string, names: seq<string>, timeout: Time, ttl: Time)

  predicate AllHealthy(statuses: seq<Status>) {
    forall i | 0 <= i < |statuses| :: statuses[i].healthy
  }

  /** The names of the dependencies, in the order of the checkers. */
  predicate Lists(deps: seq<Status>, names: seq<string>) {
    |deps| == |names| && forall i | 0 <= i < |names| :: deps[i].name == names[i]
  }

  /** What a round that collected `statuses` at `at` reports. */
  function RoundResult(o: Options, statuses: seq<Status>, at: Time): Result {
    Result(if AllHealthy(statuses) then Ready else NotReady, o.service, o.version, at, false, statuses)
  }

  predicate IsFresh(r: Result, now: Time, ttl: Time) {
    now - r.evaluatedAt < ttl
  }

  /** The status a dependency has before any round has completed. */
  function Unprobed(name: string): Status {
    Status(name, false, 0, NoReason, 0, None)
  }

  function ShutdownResult(o: Options, cached: Option<Result>, now: Time): Result {
    var deps := if cached.Some? then cached.value.dependencies
                else seq(|o.names|, i requires 0 <= i < |o.names| => Unprobed(o.names[i]));
    Result(NotReady, o.service, o.version, now, true, deps)
  }

  /** One checker's answer in one round. */
  datatype Observation = Observation(started: Time, ended: Time, outcome: Option<Err>)

  /** The sequential reading of a round: run, mapped over the checkers in order. */
  function StatusesOf(names: seq<string>, seen: seq<Observation>): seq<Status>
    requires |names| == |seen|
  {
    seq(|names|, i requires 0 <= i < |names| => StatusOf(names[i], seen[i].started, seen[i].ended, seen[i].outcome))
  }

  lemma OneMoreHealthy(statuses: seq<Status>, k: nat)
    requires k < |statuses|
    ensures AllHealthy(statuses[..k + 1]) <==> AllHealthy(statuses[..k]) && statuses[k].healthy
  {
    assert forall i | 0 <= i < k :: statuses[..k][i] == statuses[..k + 1][i];
    assert statuses[..k + 1][k] == statuses[k];
  }

  lemma OneMoreStatus(statuses: seq<Status>, k: nat, m: Metrics)
    requires k < |statuses|
    ensures AllHealthy(statuses[..k + 1]) <==> AllHealthy(statuses[..k]) && statuses[k].healthy
    ensures RecordedAll(m, statuses[..k + 1]) == RecordedStatus(RecordedAll(m, statuses[..k]), statuses[k])
  {
    OneMoreHealthy(statuses, k);
    assert statuses[..k + 1][..k] == statuses[..k];
  }

  /** What an aggregator holds. */
  datatype Held = Held(cached: Option<Result>, shuttingDown: bool, checkRounds: nat, metrics: Metrics)

  /** Where in one call of Evaluate the flag is set from elsewhere, if it is. */
  datatype Flip = Never | BeforeGate | BeforeCache | BeforeGateAgain

  /**
   What one call meets: the clock at the two freshness tests and at its end, the probe round it will
   run if it needs one, and where the flag is set.
   */
  datatype Script = Script(outer: Time, inner: Time, seen: seq<Observation>, probedAt: Time, end: Time, flip: Flip)

  /** What a call that meets no other leaves behind and returns. */
  function Evaluated(o: Options, h: Held, e: Script): (Held, Result)
    requires |e.seen| == |o.names|
  {
    if h.shuttingDown || e.flip.BeforeGate? then
      (h.(shuttingDown := true), ShutdownResult(o, h.cached, e.end))
    else if h.cached.Some? && IsFresh(h.cached.value, e.outer, o.ttl) then
      (h.(shuttingDown := e.flip.BeforeCache?), h.cached.value)
    else
      var statuses := StatusesOf(o.names, e.seen);
      var after := if h.cached.Some? && IsFresh(h.cached.value, e.inner, o.ttl) then h
                   else Held(Some(RoundResult(o, statuses, e.probedAt)), false, h.checkRounds + 1,
                             RecordedAll(h.metrics, statuses));
      if e.flip.Never? then (after, after.cached.value)
      else (after.(shuttingDown := true), ShutdownResult(o, after.cached, e.end))
  }

  class Aggregator {
    const opts: Options
    const metrics: DependencyMetrics
    var cached: Option<Result>
    var shuttingDown: bool
    var checkRounds: nat

    constructor (opts: Options, metrics: DependencyMetrics)
      ensures this.opts == opts && this.metrics == metrics
      ensures cached == None && !shuttingDown && checkRounds == 0
    {
      this.opts, this.metrics := opts, metrics;
      cached, shuttingDown, checkRounds := None, false, 0;
    }

    method BeginShutdown()
      modifies this`shuttingDown
      ensures shuttingDown
    {
      shuttingDown := true;
    }

    /** Finds the cached result exactly when there is one younger than the TTL. */
    method Fresh(now: Time) returns (r: Option<Result>)
      ensures r.Some? <==> cached.Some? && IsFresh(cached.value, now, opts.ttl)
      ensures r.Some? ==> r == cached
    {
      if cached.None? {
        return None;
      }
      if now - cached.value.evaluatedAt >= opts.ttl {
        return None;
      }
      return cached;
    }

    /**
     The fan-out: each goroutine writes its own slot. `order` is the order in which they return,
     which the scheduler chooses; what they leave behind does not depend on it.
     */
    method FanOut(seen: seq<Observation>, order: seq<nat>) returns (statuses: array<Status>)
      requires |seen| == |opts.names|
      requires forall k | 0 <= k < |order| :: order[k] < |seen|
      requires forall i | 0 <= i < |seen| :: i in order
      ensures fresh(statuses)
      ensures statuses[..] == StatusesOf(opts.names, seen)
    {
      var n := |opts.names|;
      ghost var want := StatusesOf(opts.names, seen);
      statuses := new Status[n](_ => Unprobed(""));
      for k := 0 to |order|
        invariant forall j | 0 <= j < k :: statuses[order[j]] == want[order[j]]
      {
        var i := order[k];
        statuses[i] := StatusOf(opts.names[i], seen[i].started, seen[i].ended, seen[i].outcome);
      }
      forall i | 0 <= i < n ensures statuses[i] == want[i] {
        assert i in order;
      }
    }

    /** The loop after the fan-out: every status reaches the metrics, an unhealthy one the verdict. */
    method Fold(statuses: seq<Status>, now: Time) returns (result: Result)
      modifies metrics
      ensures result == RoundResult(opts, statuses, now)
      ensures metrics.View() == RecordedAll(old(metrics.View()), statuses)
    {
      result := Result(Ready, opts.service, opts.version, now, false, statuses);
      for k := 0 to |statuses|
        invariant result ==
                  RoundResult(opts, statuses, now).(status := if AllHealthy(statuses[..k]) then Ready else NotReady)
        invariant metrics.View() == RecordedAll(old(metrics.View()), statuses[..k])
      {
        var st := statuses[k];
        OneMoreStatus(statuses, k, old(metrics.View()));
        metrics.RecordDependencyCheck(st.name, st.healthy, st.durationMs * 1_000_000);
        if st.healthy {
          continue;
        }
        result := result.(status := NotReady);
      }
      assert statuses[..|statuses|] == statuses;
    }

    /** One probe round. */
    method EvaluateNow(seen: seq<Observation>, order: seq<nat>, now: Time) returns (result: Result)
      requires |seen| == |opts.names|
      requires forall k | 0 <= k < |order| :: order[k] < |seen|
      requires forall i | 0 <= i < |seen| :: i in order
      modifies this`checkRounds, metrics
      ensures result == RoundResult(opts, StatusesOf(opts.names, seen), now)
      ensures Lists(result.dependencies, opts.names)
      ensures checkRounds == old(checkRounds) + 1
      ensures metrics.View() == RecordedAll(old(metrics.View()), StatusesOf(opts.names, seen))
    {
      checkRounds := checkRounds + 1;
      var statuses := FanOut(seen, order);
      result := Fold(statuses[..], now);
    }

    /** Not ready, with every dependency listed, and without consulting any of them. */
    method BuildShutdownResult(now: Time) returns (r: Result)
      ensures r == ShutdownResult(opts, cached, now)
      ensures r.status == NotReady && r.shuttingDown && r.evaluatedAt == now
      ensures r.service == opts.service && r.version == opts.version
      ensures cached.Some? ==> r.dependencies == cached.value.dependencies
      ensures cached.None? ==> forall d | d in r.dependencies ::
                !d.healthy && d.reason == NoReason && d.durationMs == 0 && d.err == None
      ensures cached.None? ==> Lists(r.dependencies, opts.names)
      ensures cached.Some? && Lists(cached.value.dependencies, opts.names) ==> Lists(r.dependencies, opts.names)
    {
      var deps := [];
      if cached.Some? {
        deps := deps + cached.value.dependencies;
      } else {
        for i := 0 to |opts.names|
          invariant deps == seq(i, j requires 0 <= j < i => Unprobed(opts.names[j]))
        {
          deps := deps + [Unprobed(opts.names[i])];
        }
      }
      r := Result(NotReady, opts.service, opts.version, now, true, deps);
    }

    function View(): Held
      reads this, metrics
    {
      Held(cached, shuttingDown, checkRounds, metrics.View())
    }

    /**
     Evaluate for a caller that meets no other caller. `order` is the order in which the goroutines of
     its probe round return, if it needs one.
     */
    method Evaluate(e: Script, order: seq<nat>) returns (r: Result)
      requires |e.seen| == |opts.names|
      requires forall k | 0 <= k < |order| :: order[k] < |e.seen|
      requires forall i | 0 <= i < |e.seen| :: i in order
      modifies this, metrics
      ensures (View(), r) == Evaluated(opts, old(View()), e)
    {
      if e.flip.BeforeGate? {
        BeginShutdown();
      }
      if shuttingDown {
        r := BuildShutdownResult(e.end);
        return;
      }
      if e.flip.BeforeCache? {
        BeginShutdown();
      }
      var found := Fresh(e.outer);
      if found.Some? {
        return found.value;
      }
      found := Fresh(e.inner);
      var result;
      if found.Some? {
        result := found.value;
      } else {
        result := EvaluateNow(e.seen, order, e.probedAt);
        cached := Some(result);
      }
      if e.flip.BeforeGateAgain? {
        BeginShutdown();
      }
      if shuttingDown {
        r := BuildShutdownResult(e.end);
        return;
      }
      return result;
    }
  }
}

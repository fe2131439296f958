/**
 The simple form the protocol refines: rounds that run one after another, each as the aggregator's
 own evaluateNow. However calls interleave, the cache, the metrics and the count of rounds are what
 that leaves behind.
 */
module ReadinessReplay {
  import opened Prelude
  import opened Checker
  import opened DepMetrics
  import opened Aggregate
  import opened Readiness
  import opened ReadinessCore
  import opened ReadinessHistory
  import opened ReadinessTheorems

  /** What a sequence of rounds leaves behind: the last result and all that was recorded. */
  datatype Left = Left(cached: Option<Result>, metrics: Metrics, checkRounds: nat)

  /** One observation a checker, and the time of the fold. */
  datatype Probe = Probe(seen: seq<Observation>, at: Time)

  /** evaluateNow, and the publication of its result, once for each probe. */
  function Replayed(o: Options, probes: seq<Probe>): Left
    requires forall p | p in probes :: |p.seen| == |o.names|
  {
    if probes == [] then Left(None, NO_METRICS, 0)
    else
      var before := Replayed(o, probes[..|probes| - 1]);
      var Probe(seen, at) := probes[|probes| - 1];
      var statuses := StatusesOf(o.names, seen);
      Left(Some(RoundResult(o, statuses, at)), RecordedAll(before.metrics, statuses), before.checkRounds + 1)
  }

  /** The aggregator holds what these probes leave. */
  ghost predicate Holds(a: Aggregator, probes: seq<Probe>)
    reads a, a.metrics
  {
    && (forall p | p in probes :: |p.seen| == |a.opts.names|)
    && Left(a.cached, a.metrics.View(), a.checkRounds) == Replayed(a.opts, probes)
  }

  /** The body of the flight after its re-check: one more round, published. */
  method ProbeAndPublish(a: Aggregator, ghost before: seq<Probe>, probe: Probe, order: seq<nat>)
    requires |probe.seen| == |a.opts.names| && Holds(a, before)
    requires forall k | 0 <= k < |order| :: order[k] < |probe.seen|
    requires forall i | 0 <= i < |probe.seen| :: i in order
    modifies a, a.metrics
    ensures Holds(a, before + [probe]) && a.shuttingDown == old(a.shuttingDown)
  {
    var result := a.EvaluateNow(probe.seen, order, probe.at);
    a.cached := Some(result);
    assert (before + [probe])[..|before|] == before;
  }

  // ---- the metrics of a run ----

  ghost predicate RoundsReturned(rounds: seq<Round>, n: nat) {
    n <= |rounds| && forall q | 0 <= q < n :: AllReturned(rounds[q].checks)
  }

  /** What the first n rounds record, one whole round after another. */
  ghost function MetricsAfter(rounds: seq<Round>, n: nat): Metrics
    requires RoundsReturned(rounds, n)
  {
    if n == 0 then NO_METRICS
    else RecordedAll(MetricsAfter(rounds, n - 1), StatusesIn(rounds[n - 1].checks))
  }

  lemma {:induction false} MetricsAfterStays(rounds: seq<Round>, rounds': seq<Round>, n: nat)
    requires RoundsReturned(rounds, n) && n <= |rounds'|
    requires forall q | 0 <= q < n :: rounds'[q].checks == rounds[q].checks
    ensures RoundsReturned(rounds', n) && MetricsAfter(rounds', n) == MetricsAfter(rounds, n)
  {
    if n > 0 {
      MetricsAfterStays(rounds, rounds', n - 1);
    }
  }

  ghost predicate FoldingNow(s: State) {
    Flying(s) && Current(s).phase.Folding? && |s.rounds| > 0
  }

  /** The first k of the statuses have been recorded on top of m. */
  ghost predicate Recording(m: Metrics, statuses: seq<Status>, k: nat, now: Metrics) {
    k <= |statuses| && now == RecordedAll(m, statuses[..k])
  }

  /** The metrics hold every published round, and the part of the newest that has been folded. */
  ghost predicate ReplayInv(s: State) {
    && RoundsReturned(s.rounds, Published(s))
    && (if FoldingNow(s)
        then AllReturned(Newest(s).checks)
             && Recording(MetricsAfter(s.rounds, Published(s)), StatusesIn(Newest(s).checks),
                          Current(s).phase.next, s.metrics)
        else s.metrics == MetricsAfter(s.rounds, Published(s)))
  }

  ghost predicate SameChecks(rounds: seq<Round>, rounds': seq<Round>, n: nat) {
    n <= |rounds| && n <= |rounds'| && forall q | 0 <= q < n :: rounds'[q].checks == rounds[q].checks
  }

  /** Neither a publication nor a record, outside the fold. */
  lemma ReplayFrame(s: State, s': State)
    requires ReplayInv(s) && !FoldingNow(s) && !FoldingNow(s')
    requires s'.metrics == s.metrics && Published(s') == Published(s) && SameChecks(s.rounds, s'.rounds, Published(s))
    ensures ReplayInv(s')
  {
    MetricsAfterStays(s.rounds, s'.rounds, Published(s));
  }

  lemma FoldBegins(s: State, s': State)
    requires ReplayInv(s) && !FoldingNow(s) && FoldingNow(s') && Current(s').phase.next == 0
    requires AllReturned(Newest(s').checks)
    requires s'.metrics == s.metrics && Published(s') == Published(s) && SameChecks(s.rounds, s'.rounds, Published(s))
    ensures ReplayInv(s')
  {
    MetricsAfterStays(s.rounds, s'.rounds, Published(s));
    assert StatusesIn(Newest(s').checks)[..0] == [];
  }

  lemma FoldGoesOn(s: State, s': State, k: nat)
    requires ReplayInv(s) && FoldingNow(s) && FoldingNow(s') && s'.rounds == s.rounds && Published(s') == Published(s)
    requires Current(s).phase.next == k && Current(s').phase.next == k + 1 && k < |Newest(s).checks|
    requires s'.metrics == RecordedStatus(s.metrics, StatusesIn(Newest(s).checks)[k])
    ensures ReplayInv(s')
  {
    OneMoreStatus(StatusesIn(Newest(s).checks), k, MetricsAfter(s.rounds, Published(s)));
  }

  lemma FoldEnds(s: State, s': State)
    requires ReplayInv(s) && FoldingNow(s) && Published(s) + 1 == |s.rounds|
    requires Current(s).phase.next == |Newest(s).checks|
    requires !FoldingNow(s') && s'.rounds == s.rounds && s'.metrics == s.metrics && Published(s') == |s.rounds|
    ensures ReplayInv(s')
  {
    var statuses := StatusesIn(Newest(s).checks);
    assert statuses[..|statuses|] == statuses;
  }

  lemma CollectKeepsReplay(o: Options, s: State)
    requires Core(o, s) && ReplayInv(s) && Enabled(o, s, Collect)
    ensures ReplayInv(Next(o, s, Collect))
  {
    FoldBegins(s, Next(o, s, Collect));
  }

  lemma RecordKeepsReplay(o: Options, s: State)
    requires Core(o, s) && ReplayInv(s) && Enabled(o, s, Record)
    ensures ReplayInv(Next(o, s, Record))
  {
    FoldGoesOn(s, Next(o, s, Record), Current(s).phase.next);
  }

  lemma PublishKeepsReplay(o: Options, s: State)
    requires Core(o, s) && ReplayInv(s) && Enabled(o, s, Publish)
    ensures ReplayInv(Next(o, s, Publish))
  {
    FoldEnds(s, Next(o, s, Publish));
  }

  lemma OtherShape(o: Options, s: State, a: Action)
    requires Core(o, s) && Enabled(o, s, a)
    requires a.Recheck? || a.StartRound? || a.StartCheck? || a.FinishCheck? || a.Land?
    ensures var s' := Next(o, s, a);
            && !FoldingNow(s) && !FoldingNow(s')
            && s'.metrics == s.metrics && Published(s') == Published(s) && SameChecks(s.rounds, s'.rounds, Published(s))
  {}

  lemma OtherStepsKeepReplay(o: Options, s: State, a: Action)
    requires Core(o, s) && ReplayInv(s) && Enabled(o, s, a)
    requires a.Recheck? || a.StartRound? || a.StartCheck? || a.FinishCheck? || a.Land?
    ensures ReplayInv(Next(o, s, a))
  {
    OtherShape(o, s, a);
    ReplayFrame(s, Next(o, s, a));
  }

  lemma JoinKeepsReplay(o: Options, s: State, c: nat)
    requires ReplayInv(s) && Enabled(o, s, Join(c))
    ensures ReplayInv(Next(o, s, Join(c)))
  {}

  lemma AsideKeepsReplay(o: Options, s: State, a: Action)
    requires ReplayInv(s) && Enabled(o, s, a) && Aside(a)
    ensures ReplayInv(Next(o, s, a))
  {
    AsideLeavesRoundsAlone(o, s, a);
  }

  lemma ReplayKept(o: Options, s: State, a: Action)
    requires Core(o, s) && ReplayInv(s) && Enabled(o, s, a)
    ensures ReplayInv(Next(o, s, a))
  {
    if Aside(a) {
      AsideKeepsReplay(o, s, a);
    } else {
      match a
      case Collect => CollectKeepsReplay(o, s);
      case Record => RecordKeepsReplay(o, s);
      case Publish => PublishKeepsReplay(o, s);
      case Join(c) => JoinKeepsReplay(o, s, c);
      case _ => OtherStepsKeepReplay(o, s, a);
    }
  }

  lemma NothingRecordedYet(o: Options, r: Run)
    requires IsRun(o, r)
    ensures ReplayInv(r.states[0])
  {}

  lemma RunStepKeepsReplay(o: Options, r: Run, k: nat)
    requires IsRun(o, r) && k + 1 < |r.states| && ReplayInv(r.states[k])
    ensures ReplayInv(r.states[k + 1])
  {
    RunIsSound(o, r, k);
    assert Took(o, r, k);
    ReplayKept(o, r.states[k], r.actions[k]);
  }

  lemma {:induction false} RunKeepsReplay(o: Options, r: Run, k: nat)
    requires IsRun(o, r) && k < |r.states|
    ensures ReplayInv(r.states[k])
    decreases k
  {
    if k > 0 {
      RunKeepsReplay(o, r, k - 1);
      RunStepKeepsReplay(o, r, k - 1);
    } else {
      NothingRecordedYet(o, r);
    }
  }

  // ---- the refinement ----

  ghost predicate Done(o: Options, rounds: seq<Round>) {
    forall q | 0 <= q < |rounds| :: RoundOk(o, rounds[q]) && rounds[q].evaluatedAt.Some?
  }

  /** What the rounds of a run observed. */
  ghost function Probes(o: Options, rounds: seq<Round>): (probes: seq<Probe>)
    requires Done(o, rounds)
    ensures forall p | p in probes :: |p.seen| == |o.names|
  {
    seq(|rounds|, q requires 0 <= q < |rounds| => Probe(Seen(rounds[q].checks), rounds[q].evaluatedAt.value))
  }

  lemma ReplayedOneMore(o: Options, probes: seq<Probe>, p: Probe)
    requires forall q | q in probes + [p] :: |q.seen| == |o.names|
    ensures forall q | q in probes :: |q.seen| == |o.names|
    ensures |p.seen| == |o.names|
    ensures var before, statuses := Replayed(o, probes), StatusesOf(o.names, p.seen);
            Replayed(o, probes + [p]) ==
            Left(Some(RoundResult(o, statuses, p.at)), RecordedAll(before.metrics, statuses), before.checkRounds + 1)
  {
    assert forall q | q in probes :: q in probes + [p];
    assert p in probes + [p];
    assert (probes + [p])[..|probes|] == probes;
  }

  lemma OneMoreProbe(o: Options, rounds: seq<Round>, n: nat)
    requires Done(o, rounds) && |rounds| == n + 1
    ensures Done(o, rounds[..n]) && AllReturned(rounds[n].checks)
    ensures Probes(o, rounds) == Probes(o, rounds[..n]) + [Probe(Seen(rounds[n].checks), rounds[n].evaluatedAt.value)]
  {}

  lemma {:induction false} ReplayOfRounds(o: Options, rounds: seq<Round>)
    requires Done(o, rounds)
    ensures RoundsReturned(rounds, |rounds|)
    ensures var left := Replayed(o, Probes(o, rounds));
            && left.metrics == MetricsAfter(rounds, |rounds|)
            && left.checkRounds == |rounds|
            && left.cached == if rounds == [] then None else Some(ResultOf(o, rounds[|rounds| - 1]))
  {
    if rounds != [] {
      var n := |rounds| - 1;
      OneMoreProbe(o, rounds, n);
      ReplayOfRounds(o, rounds[..n]);
      SlotsAreSequential(o, rounds[n]);
      ReplayedOneMore(o, Probes(o, rounds[..n]), Probe(Seen(rounds[n].checks), rounds[n].evaluatedAt.value));
      MetricsAfterStays(rounds[..n], rounds, n);
    }
  }

  /**
   Whatever the interleaving, and whatever the names of the checkers: whenever no round is in progress
   the cache, the metrics and the count of rounds are exactly what the rounds leave when they are run
   one after another.
   */
  lemma RoundsReplaySequentially(o: Options, r: Run, k: nat)
    requires IsRun(o, r) && k < |r.states| && Published(r.states[k]) == |r.states[k].rounds|
    ensures var s := r.states[k];
            Done(o, s.rounds) && Left(CachedResult(s), s.metrics, s.checkRounds) == Replayed(o, Probes(o, s.rounds))
  {
    RunIsSound(o, r, k);
    RunKeepsReplay(o, r, k);
    AtRestReplays(o, r.states[k]);
  }

  lemma AtRestReplays(o: Options, s: State)
    requires RoundsInv(o, s) && CacheInv(o, s) && ReplayInv(s) && Published(s) == |s.rounds|
    ensures Done(o, s.rounds) && Left(CachedResult(s), s.metrics, s.checkRounds) == Replayed(o, Probes(o, s.rounds))
  {
    ReplayOfRounds(o, s.rounds);
  }
}

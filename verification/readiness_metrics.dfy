/** The dependency metrics never drift from the rounds: what is counted is what was probed. */
module ReadinessMetrics {
  import opened Prelude
  import opened Checker
  import opened DepMetrics
  import opened Aggregate
  import opened Readiness
  import opened ReadinessCore
  import opened ReadinessHistory

  ghost predicate Distinct(names: seq<string>) {
    forall i, j | 0 <= i < j < |names| :: names[i] != names[j]
  }

  /** How many rounds have handed checker i's status to the metrics. */
  function Reported(s: State, i: nat): nat {
    if Flying(s) && |s.rounds| > 0
       && (Current(s).phase.Probing? || (Current(s).phase.Folding? && Current(s).phase.next <= i))
    then |s.rounds| - 1 else |s.rounds|
  }

  /** How many rounds have called checker i's Check. */
  function Probed(s: State, i: nat): nat {
    if ProbingNow(s) && i < |Newest(s).checks| && Newest(s).checks[i].Unstarted? then |s.rounds| - 1 else |s.rounds|
  }

  ghost predicate SlotFilled(rounds: seq<Round>, q: nat, i: nat) {
    q < |rounds| && i < |rounds[q].checks| && rounds[q].checks[i].Returned?
  }

  /** d is the duration round q measured for checker i. */
  ghost predicate Measured(rounds: seq<Round>, q: nat, i: nat, d: Time) {
    SlotFilled(rounds, q, i) && rounds[q].checks[i].status.durationMs * 1_000_000 == d
  }

  /** g is the gauge value of checker i's health in round q. */
  ghost predicate Gauged(rounds: seq<Round>, q: nat, i: nat, g: int) {
    SlotFilled(rounds, q, i) && g == if rounds[q].checks[i].status.healthy then 1 else 0
  }

  /** The label of checker i holds one observation a reported round, and its gauge the latest of them. */
  ghost predicate LabelOk(o: Options, s: State, i: nat)
    requires i < |o.names|
  {
    var seen := Observations(s.metrics, o.names[i]);
    var n := Reported(s, i);
    && |seen| == n
    && (forall q | 0 <= q < n :: Measured(s.rounds, q, i, seen[q]))
    && (n > 0 ==> o.names[i] in s.metrics.up && Gauged(s.rounds, n - 1, i, s.metrics.up[o.names[i]]))
  }

  ghost predicate MetricsInv(o: Options, s: State) {
    forall i | 0 <= i < |o.names| :: LabelOk(o, s, i) && i < |s.checkCalls| && s.checkCalls[i] == Probed(s, i)
  }

  lemma LabelLasts(o: Options, s: State, s': State, i: nat)
    requires i < |o.names| && LabelOk(o, s, i)
    requires Reported(s', i) == Reported(s, i)
    requires Observations(s'.metrics, o.names[i]) == Observations(s.metrics, o.names[i])
    requires o.names[i] in s.metrics.up ==>
               o.names[i] in s'.metrics.up && s'.metrics.up[o.names[i]] == s.metrics.up[o.names[i]]
    requires forall q | 0 <= q < Reported(s, i) :: q < |s'.rounds| && s'.rounds[q].checks == s.rounds[q].checks
    ensures LabelOk(o, s', i)
  {
    var seen := Observations(s.metrics, o.names[i]);
    forall q | 0 <= q < Reported(s, i) ensures Measured(s'.rounds, q, i, seen[q]) {
      assert Measured(s.rounds, q, i, seen[q]);
    }
  }

  /** Only Record touches the metrics. */
  lemma OthersLeaveMetrics(o: Options, s: State, a: Action)
    requires Enabled(o, s, a) && !a.Record?
    ensures Next(o, s, a).metrics == s.metrics
  {}

  lemma OthersReportNothing(o: Options, s: State, a: Action, i: nat)
    requires Core(o, s) && Enabled(o, s, a) && !a.Record? && i < |o.names|
    ensures Reported(Next(o, s, a), i) == Reported(s, i)
  {}

  lemma ReportedRoundsStay(o: Options, s: State, a: Action, i: nat, q: nat)
    requires Core(o, s) && Enabled(o, s, a) && i < |o.names| && q < Reported(s, i)
    ensures q < |Next(o, s, a).rounds| && Next(o, s, a).rounds[q].checks == s.rounds[q].checks
  {}

  lemma RecordReports(o: Options, s: State, i: nat)
    requires Core(o, s) && MetricsInv(o, s) && Enabled(o, s, Record) && Distinct(o.names) && i < |o.names|
    ensures LabelOk(o, Next(o, s, Record), i)
  {
    var k := Current(s).phase.next;
    assert LabelOk(o, s, i);
    assert SlotOk(o, Newest(s).checks[k], k);
    if i != k {
      RecordLeavesOthers(o, s, i);
    } else {
      RecordReportsOwn(o, s, k);
    }
  }

  lemma RecordLeavesOthers(o: Options, s: State, i: nat)
    requires Core(o, s) && Enabled(o, s, Record) && i < |o.names| && LabelOk(o, s, i)
    requires i != Current(s).phase.next
    requires Current(s).phase.result.dependencies[Current(s).phase.next].name != o.names[i]
    ensures LabelOk(o, Next(o, s, Record), i)
  {
    LabelLasts(o, s, Next(o, s, Record), i);
  }

  lemma RecordReportsOwn(o: Options, s: State, k: nat)
    requires Core(o, s) && Enabled(o, s, Record) && k < |o.names| && LabelOk(o, s, k)
    requires Current(s).phase.next == k && Current(s).phase.result.dependencies[k].name == o.names[k]
    ensures LabelOk(o, Next(o, s, Record), k)
  {
    var s' := Next(o, s, Record);
    var st := Current(s).phase.result.dependencies[k];
    var seen := Observations(s.metrics, o.names[k]);
    var n := |s.rounds| - 1;
    assert s'.rounds == s.rounds;
    assert Newest(s).checks[k].status == st;
    NewObservation(s.rounds, k, st, seen, n);
    assert Reported(s, k) == n && Reported(s', k) == n + 1;
    assert Observations(s'.metrics, o.names[k]) == seen + [st.durationMs * 1_000_000];
  }

  lemma NewObservation(rounds: seq<Round>, i: nat, st: Status, seen: seq<Time>, n: nat)
    requires |seen| == n && (forall q | 0 <= q < n :: Measured(rounds, q, i, seen[q]))
    requires SlotFilled(rounds, n, i) && rounds[n].checks[i].status == st
    ensures var seen' := seen + [st.durationMs * 1_000_000];
            forall q | 0 <= q < n + 1 :: Measured(rounds, q, i, seen'[q])
  {}

  lemma CallCountsKept(o: Options, s: State, a: Action, i: nat)
    requires Core(o, s) && Enabled(o, s, a) && i < |o.names|
    requires s.checkCalls[i] == Probed(s, i)
    ensures Next(o, s, a).checkCalls[i] == Probed(Next(o, s, a), i)
  {
    if Aside(a) {
      AsideLeavesRoundsAlone(o, s, a);
    } else {
      RoundStepKeepsCallCounts(o, s, a, i);
    }
  }

  lemma RoundStepKeepsCallCounts(o: Options, s: State, a: Action, i: nat)
    requires Core(o, s) && Enabled(o, s, a) && !Aside(a) && i < |o.names|
    requires s.checkCalls[i] == Probed(s, i)
    ensures Next(o, s, a).checkCalls[i] == Probed(Next(o, s, a), i)
  {
    if a.StartCheck? || a.FinishCheck? {
      CheckStepKeepsCallCounts(o, s, a, i);
    }
  }

  lemma CheckStepKeepsCallCounts(o: Options, s: State, a: Action, i: nat)
    requires Core(o, s) && Enabled(o, s, a) && (a.StartCheck? || a.FinishCheck?) && i < |o.names|
    requires s.checkCalls[i] == Probed(s, i)
    ensures Next(o, s, a).checkCalls[i] == Probed(Next(o, s, a), i)
  {}

  lemma MetricsKept(o: Options, s: State, a: Action)
    requires Core(o, s) && MetricsInv(o, s) && Enabled(o, s, a) && Distinct(o.names)
    ensures MetricsInv(o, Next(o, s, a))
  {
    var s' := Next(o, s, a);
    CoreKept(o, s, a);
    forall i | 0 <= i < |o.names|
      ensures LabelOk(o, s', i) && s'.checkCalls[i] == Probed(s', i)
    {
      assert LabelOk(o, s, i);
      CallCountsKept(o, s, a, i);
      if a.Record? {
        RecordReports(o, s, i);
      } else {
        OthersLeaveMetrics(o, s, a);
        OthersReportNothing(o, s, a, i);
        forall q | 0 <= q < Reported(s, i) ensures q < |s'.rounds| && s'.rounds[q].checks == s.rounds[q].checks {
          ReportedRoundsStay(o, s, a, i, q);
        }
        LabelLasts(o, s, s', i);
      }
    }
  }

  lemma {:induction false} RunKeepsMetrics(o: Options, r: Run, k: nat)
    requires IsRun(o, r) && k < |r.states| && Distinct(o.names)
    ensures MetricsInv(o, r.states[k])
    decreases k
  {
    if k > 0 {
      RunKeepsMetrics(o, r, k - 1);
      RunStepKeepsMetrics(o, r, k - 1);
    } else {
      NoMetricsYet(o, r);
    }
  }

  lemma NoMetricsYet(o: Options, r: Run)
    requires IsRun(o, r)
    ensures MetricsInv(o, r.states[0])
  {}

  lemma RunStepKeepsMetrics(o: Options, r: Run, k: nat)
    requires IsRun(o, r) && k + 1 < |r.states| && Distinct(o.names) && MetricsInv(o, r.states[k])
    ensures MetricsInv(o, r.states[k + 1])
  {
    RunIsSound(o, r, k);
    assert Took(o, r, k);
    MetricsKept(o, r.states[k], r.actions[k]);
  }

  /**
   Conservation: with distinct names, whenever no round is in progress each dependency has been
   checked and observed once a round, with the duration that round measured, and its gauge is its health
   in the cached result.
   */
  lemma MetricsMatchTheCache(o: Options, r: Run, k: nat, i: nat)
    requires IsRun(o, r) && k < |r.states| && Distinct(o.names) && i < |o.names|
    requires Published(r.states[k]) == |r.states[k].rounds|
    ensures var s := r.states[k];
            && |Observations(s.metrics, o.names[i])| == s.checkRounds == |s.rounds|
            && (forall q | 0 <= q < |s.rounds| :: Measured(s.rounds, q, i, Observations(s.metrics, o.names[i])[q]))
            && i < |s.checkCalls| && s.checkCalls[i] == s.checkRounds
            && (s.cached.Some? ==>
                  && i < |s.cached.value.result.dependencies| && o.names[i] in s.metrics.up
                  && s.metrics.up[o.names[i]] == if s.cached.value.result.dependencies[i].healthy then 1 else 0)
  {
    RunKeepsMetrics(o, r, k);
    RunIsSound(o, r, k);
    assert LabelOk(o, r.states[k], i);
  }
}

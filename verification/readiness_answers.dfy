/** What the answers of a run say, field by field, in terms of the checks and the clock of the run. */
module ReadinessAnswers {
  import opened Prelude
  import opened Checker
  import opened Aggregate
  import opened Readiness
  import opened ReadinessCore
  import opened ReadinessHistory
  import opened ReadinessTheorems

  /** The statuses are those of the checks, one a checker, in order. */
  ghost predicate ReportsChecks(o: Options, deps: seq<Status>, checks: seq<Check>) {
    && |deps| == |o.names| == |checks|
    && forall i | 0 <= i < |o.names| ::
         && checks[i].Returned?
         && ReportsOutcome(deps[i], o.names[i], checks[i].since, checks[i].until, checks[i].outcome)
  }

  ghost predicate AllSucceeded(checks: seq<Check>) {
    forall i | 0 <= i < |checks| :: checks[i].Returned? && checks[i].outcome.None?
  }

  /** The statuses before any round has been published: every checker's name, and nothing known of it. */
  ghost predicate ReportsNothing(o: Options, deps: seq<Status>) {
    && |deps| == |o.names|
    && forall i | 0 <= i < |o.names| ::
         && deps[i].name == o.names[i] && !deps[i].healthy && deps[i].reason == NoReason
         && deps[i].durationMs == 0 && deps[i].err == None
  }

  lemma RoundsReportTheirChecks(o: Options, round: Round)
    requires RoundOk(o, round) && round.evaluatedAt.Some?
    ensures ReportsChecks(o, ResultOf(o, round).dependencies, round.checks)
    ensures ResultOf(o, round).status == Ready <==> AllSucceeded(round.checks)
  {
    forall i | 0 <= i < |o.names|
      ensures ReportsOutcome(round.checks[i].status, o.names[i], round.checks[i].since, round.checks[i].until,
                             round.checks[i].outcome)
    {
      assert SlotOk(o, round.checks[i], i);
      StatusByEvidence(o.names[i], round.checks[i].since, round.checks[i].until, round.checks[i].outcome);
    }
    assert forall i | 0 <= i < |o.names| :: StatusesIn(round.checks)[i] == round.checks[i].status;
  }

  /**
   An answer that does not report a shutdown names the service and its version, is dated when its round
   was collected, reports each of the round's checks with the reason its error gives evidence for, and is
   ready exactly when all of them succeeded.
   */
  lemma OpenAnswersReportTheirRound(o: Options, r: Run, c: nat) returns (q: nat)
    requires AnsweredIn(o, r, c) && !AnswerOf(r, c).shuttingDown
    ensures Witnessed(o, r, c, q) && q < |Last(r).rounds|
    ensures var a, round := AnswerOf(r, c), Last(r).rounds[q];
            && a.service == o.service && a.version == o.version && round.evaluatedAt == Some(a.evaluatedAt)
            && ReportsChecks(o, a.dependencies, round.checks)
            && a.status == (if AllSucceeded(round.checks) then Ready else NotReady)
  {
    q := AnswersAreWitnessed(o, r, c);
    RunIsSound(o, r, |r.states| - 1);
    assert RoundOk(o, Last(r).rounds[q]);
    RoundsReportTheirChecks(o, Last(r).rounds[q]);
  }

  /**
   An answer that reports a shutdown is not ready, names the service and its version, is dated at the
   answer, and repeats the statuses then in the cache, or else each checker's name with nothing known.
   */
  lemma ShutdownAnswersRepeatTheCache(o: Options, r: Run, c: nat)
    requires AnsweredIn(o, r, c) && AnswerOf(r, c).shuttingDown
    ensures Last(r).calls[c].pc.answered < |r.states|
    ensures var a, s := AnswerOf(r, c), r.states[Last(r).calls[c].pc.answered];
            && a.status == NotReady && a.service == o.service && a.version == o.version && a.evaluatedAt == s.now
            && (if s.cached.Some? then a.dependencies == s.cached.value.result.dependencies
                else ReportsNothing(o, a.dependencies))
  {
    Recall(o, r, c);
  }

  /** What the cache holds reports the checks of the newest round that has been published. */
  lemma CacheReportsTheNewestRound(o: Options, r: Run, k: nat)
    requires IsRun(o, r) && k < |r.states| && r.states[k].cached.Some?
    ensures 0 < Published(r.states[k]) <= |r.states[k].rounds|
    ensures var s := r.states[k];
            var round := s.rounds[Published(s) - 1];
            && s.cached.value.result.service == o.service && s.cached.value.result.version == o.version
            && round.evaluatedAt == Some(s.cached.value.result.evaluatedAt)
            && ReportsChecks(o, s.cached.value.result.dependencies, round.checks)
  {
    RunIsSound(o, r, k);
    var s := r.states[k];
    assert RoundOk(o, s.rounds[Published(s) - 1]);
    RoundsReportTheirChecks(o, s.rounds[Published(s) - 1]);
  }
}

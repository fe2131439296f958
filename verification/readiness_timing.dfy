/** Recovery, bounded in every run by how far behind the scheduler lets a flight fall: the lag. */
module ReadinessTiming {
  import opened Prelude
  import opened Aggregate
  import opened Readiness
  import opened ReadinessCore
  import opened ReadinessLinks
  import opened ReadinessHistory
  import opened ReadinessTheorems

  // ---- recovery under a bounded lag ----

  /** Every check called from that time on succeeded: the dependency was healthy and no context was cancelled. */
  ghost predicate HealthyFrom(s: State, healedAt: Time) {
    forall q, i | 0 <= q < |s.rounds| && 0 <= i < |s.rounds[q].checks| :: Recovered(s.rounds[q].checks[i], healedAt)
  }

  ghost predicate Recovered(check: Check, healedAt: Time) {
    check.Returned? && check.since >= healedAt ==> check.outcome.None?
  }

  /** A completed round took at most one Timeout and the lag. */
  ghost predicate RoundInTime(o: Options, r: Round, lag: Time) {
    r.evaluatedAt.Some? ==> r.evaluatedAt.value <= r.startedAt + o.timeout + lag
  }

  /** A flight landed within the lag of its cache hit, or within one Timeout and the lag of its round's start. */
  ghost predicate FlightInTime(o: Options, r: Run, flight: Flight, lag: Time)
    requires |r.states| > 0
  {
    flight.phase.Landed? ==>
      match flight.phase.source
      case FromRound =>
        var q := flight.phase.entry.round;
        q < |Last(r).rounds| && flight.phase.at <= Last(r).rounds[q].startedAt + o.timeout + lag
      case FromCache(h) => h < |r.states| && flight.phase.at <= r.states[h].now + lag
  }

  ghost predicate LagIsAtMost(o: Options, r: Run, lag: Time)
    requires |r.states| > 0
  {
    && (forall q | 0 <= q < |Last(r).rounds| :: RoundInTime(o, Last(r).rounds[q], lag))
    && (forall f | 0 <= f < |Last(r).flights| :: FlightInTime(o, r, Last(r).flights[f], lag))
  }

  lemma LateRoundsAreReady(o: Options, s: State, q: nat, healedAt: Time)
    requires Sound(o, s) && HealthyFrom(s, healedAt) && q < |s.rounds|
    requires s.rounds[q].evaluatedAt.Some? && s.rounds[q].startedAt >= healedAt
    ensures AllReturned(s.rounds[q].checks) && ResultOf(o, s.rounds[q]).status == Ready
  {
    var round := s.rounds[q];
    assert RoundOk(o, round) && RoundTimed(s, round);
    forall i | 0 <= i < |round.checks| ensures StatusesIn(round.checks)[i].healthy {
      assert SlotOk(o, round.checks[i], i) && CheckTimed(round, round.checks[i], s.now);
      assert Recovered(round.checks[i], healedAt);
    }
  }

  /** A flight that was in progress in state m lands no earlier than that. */
  lemma LandsAfter(o: Options, r: Run, f: nat, m: nat)
    requires IsRun(o, r) && InProgress(r, f, m) && f < |Last(r).flights| && Last(r).flights[f].phase.Landed?
    ensures r.states[m].now <= Last(r).flights[f].phase.at
  {
    var n := |r.states| - 1;
    RunRemembers(o, r, n);
    assert FlightMemory(o, r.states, n, f, Last(r).flights[f]);
    var l := Last(r).flights[f].phase.landed;
    if l < m {
      RunExtends(o, r, l + 1, m);
    } else {
      RunExtends(o, r, m, l);
    }
  }

  /**
   How long after the recovery a call can still begin and be handed a failure, when no flight falls
   further behind than the lag. A round that failed started before the recovery.
   */
  function RecoveryDelay(timeout: Time, ttl: Time, lag: Time): Time {
    if ttl > 0 then timeout + ttl + 2 * lag - 2 else timeout + lag - 1
  }

  /** The round behind what a late flight hands out started no earlier than the recovery. */
  lemma LateFlightsServeLateRounds(o: Options, r: Run, f: nat, healedAt: Time, lag: Time)
    requires IsRun(o, r) && 0 <= o.timeout && 0 <= o.ttl && 0 <= lag && LagIsAtMost(o, r, lag)
    requires f < |Last(r).flights| && Last(r).flights[f].phase.Landed?
    requires healedAt + RecoveryDelay(o.timeout, o.ttl, lag) < Last(r).flights[f].phase.at
    ensures var e := Last(r).flights[f].phase.entry;
            IsRoundEntry(o, Last(r).rounds, e) && healedAt <= Last(r).rounds[e.round].startedAt
  {
    var n := |r.states| - 1;
    RunIsSound(o, r, n);
    RunRemembers(o, r, n);
    var flight := Last(r).flights[f];
    assert FlightOk(o, Last(r), f) && FlightInTime(o, r, flight, lag);
    assert FlightMemory(o, r.states, n, f, flight);
    assert RoundInTime(o, Last(r).rounds[flight.phase.entry.round], lag);
    if flight.phase.source.FromCache? {
      HitsAreYoung(o, r, flight.phase.source.seenAt);
    }
  }

  /** What the cache holds was evaluated in the past, so a hit needs a positive TTL. */
  lemma HitsAreYoung(o: Options, r: Run, m: nat)
    requires IsRun(o, r) && m < |r.states| && CacheHit(o, r.states[m])
    ensures 0 <= r.states[m].now - r.states[m].cached.value.result.evaluatedAt < o.ttl
  {
    RunIsSound(o, r, m);
    var s := r.states[m];
    assert RoundTimed(s, s.rounds[s.cached.value.round]);
  }

  /**
   Recovery: with every check called from healedAt on succeeding, a call that begins later than the
   recovery delay after it, and does not report a shutdown, reports ready.
   */
  lemma RecoveryIsBounded(o: Options, r: Run, c: nat, healedAt: Time, lag: Time)
    requires AnsweredIn(o, r, c) && !AnswerOf(r, c).shuttingDown
    requires 0 <= o.timeout && 0 <= o.ttl && 0 <= lag && LagIsAtMost(o, r, lag)
    requires HealthyFrom(Last(r), healedAt)
    requires healedAt + RecoveryDelay(o.timeout, o.ttl, lag) < Last(r).calls[c].begunAt
    ensures AnswerOf(r, c).status == Ready
  {
    Recall(o, r, c);
    var call := Last(r).calls[c];
    var q := call.pc.via.round;
    if call.pc.via.OuterCache? {
      RunExtends(o, r, call.begun, call.pc.answered);
      HitsAreYoung(o, r, call.pc.answered);
      assert RoundInTime(o, Last(r).rounds[q], lag);
    } else {
      assert JoinSeen(r.states, |r.states| - 1, call);
      RunExtends(o, r, call.begun, call.joinedAt + 1);
      LandsAfter(o, r, call.joined.value, call.joinedAt + 1);
      LateFlightsServeLateRounds(o, r, call.joined.value, healedAt, lag);
    }
    LateRoundsAreReady(o, Last(r), q, healedAt);
  }
}

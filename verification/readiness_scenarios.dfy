/**
 Runs put together action by action: they attain the bounds of the other modules, and show what the
 code does not promise.
 */
module ReadinessScenarios {
  import opened Prelude
  import opened Checker
  import opened Aggregate
  import opened Readiness
  import opened ReadinessCore
  import opened ReadinessHistory
  import opened ReadinessTheorems
  import opened ReadinessGate
  import opened ReadinessTiming
  import opened ReadinessUrgent
  import opened ReadinessProgress

  const DOWN := Err("connection reset", {}, None, true, [])

  /** The call has found the cache stale or empty and is about to join or lead a flight. */
  ghost predicate AtTheFlight(s: State, c: nat) {
    c in s.calls && s.calls[c].pc == AtFlight && s.calls[c].joined.None?
  }

  /** Nothing but calls differs, and of those none but c. */
  ghost predicate OnlyCall(s: State, s': State, c: nat) {
    && s'.now == s.now && s'.shuttingDown == s.shuttingDown && s'.cached == s.cached && s'.rounds == s.rounds
    && s'.checkRounds == s.checkRounds && s'.checkCalls == s.checkCalls
    && s'.calls.Keys == s.calls.Keys + {c}
    && forall d | d in s.calls && d != c :: s'.calls[d] == s.calls[d]
  }

  /** A new call gets as far as the flight, at the present instant. */
  lemma Arrive(o: Options, r: Run, c: nat) returns (q: Run)
    requires IsRun(o, r) && !Last(r).shuttingDown && c !in Last(r).calls && !CacheHit(o, Last(r))
    ensures Continues(o, r, q) && OnlyCall(Last(r), Last(q), c) && Last(q).flights == Last(r).flights
    ensures AtTheFlight(Last(q), c) && Last(q).calls[c].begunAt == Last(r).now
  {
    q := Act(o, r, Enter(c));
    q := Act(o, q, ReadGate(c));
    q := Act(o, q, ReadCache(c));
  }

  /** A round whose checks have all been called. */
  ghost predicate Probes(o: Options, s: State, since: Time) {
    && ProbingNow(s) && Newest(s).startedAt == since && |Newest(s).checks| == |o.names|
    && forall j | 0 <= j < |o.names| :: Newest(s).checks[j] == Running(since)
  }

  /** A call has begun to lead a new flight. */
  ghost predicate Led(s: State, s': State, c: nat) {
    && c in s.calls && s'.now == s.now && s'.shuttingDown == s.shuttingDown && s'.cached == s.cached
    && |s'.flights| == |s.flights| + 1 && s.flights <= s'.flights
    && s'.calls.Keys == s.calls.Keys && (forall d | d in s.calls && d != c :: s'.calls[d] == s.calls[d])
    && s'.calls[c].pc == InFlight && s'.calls[c].joined == Some(|s.flights|)
    && s'.calls[c].begunAt == s.calls[c].begunAt
  }

  lemma Lead(o: Options, r: Run, c: nat) returns (q: Run)
    requires IsRun(o, r) && AtTheFlight(Last(r), c) && !Flying(Last(r)) && !CacheHit(o, Last(r))
    ensures Continues(o, r, q) && Led(Last(r), Last(q), c)
    ensures Flying(Last(q)) && Current(Last(q)).phase == Missed
    ensures Last(q).rounds == Last(r).rounds && Last(q).checkRounds == Last(r).checkRounds
  {
    q := Act(o, r, Join(c));
    q := Act(o, q, Recheck);
  }

  /** A call leads a flight, which starts a round and calls every checker. */
  lemma RoundBegins(o: Options, r: Run, c: nat) returns (q: Run)
    requires IsRun(o, r) && AtTheFlight(Last(r), c) && !Flying(Last(r)) && !CacheHit(o, Last(r))
    ensures Continues(o, r, q) && Led(Last(r), Last(q), c) && Probes(o, Last(q), Last(r).now)
    ensures Last(q).checkRounds == Last(r).checkRounds + 1
    ensures |Last(q).rounds| == |Last(r).rounds| + 1 && Last(r).rounds <= Last(q).rounds
  {
    q := Lead(o, r, c);
    q := RoundStarts(o, q);
    q := CallChecks(o, q, 0);
  }

  function VerdictOf(outcome: Option<Err>): Verdict {
    if outcome.None? then Ready else NotReady
  }

  /** A round whose checks have all been called at once and given the same answer. */
  ghost predicate EndedRound(o: Options, round: Round, outcome: Option<Err>, since: Time, at: Time) {
    && round.startedAt == since && round.evaluatedAt == Some(at) && |round.checks| == |o.names|
    && forall j | 0 <= j < |o.names| ::
         round.checks[j].Returned? && round.checks[j].since == since && round.checks[j].outcome == outcome
  }

  /** The round's result, as far as it matters here. */
  ghost predicate Reports(result: Result, outcome: Option<Err>, at: Time) {
    result.status == VerdictOf(outcome) && result.evaluatedAt == at && !result.shuttingDown
  }

  /** The newest round has ended, and its result is in the cache and with the flight, which has landed. */
  ghost predicate Ended(o: Options, s: State, outcome: Option<Err>, since: Time, at: Time) {
    CameFromRound(s, at) && EndedRound(o, Newest(s), outcome, since, at) && Reports(s.cached.value.result, outcome, at)
  }

  lemma VerdictOfRound(o: Options, r: Run, outcome: Option<Err>, since: Time, at: Time)
    requires IsRun(o, r) && CameFromRound(Last(r), at) && EndedRound(o, Newest(Last(r)), outcome, since, at)
    requires outcome.None? || o.names != []
    ensures Reports(Last(r).cached.value.result, outcome, at)
  {
    RunIsSound(o, r, |r.states| - 1);
    var round := Newest(Last(r));
    forall j | 0 <= j < |o.names| ensures StatusesIn(round.checks)[j].healthy <==> outcome.None? {
      assert SlotOk(o, round.checks[j], j);
    }
    if o.names != [] {
      assert StatusesIn(round.checks)[0].healthy <==> outcome.None?;
    }
  }

  /** The checkers all answer; the round is collected, folded and published, and the flight lands, all at once. */
  lemma RoundEnds(o: Options, r: Run, outcome: Option<Err>, since: Time) returns (q: Run)
    requires IsRun(o, r) && Probes(o, Last(r), since) && (outcome.None? || o.names != [])
    ensures Continues(o, r, q) && Ended(o, Last(q), outcome, since, Last(r).now) && OnlyFlight(Last(r), Last(q))
    ensures Last(q).checkRounds == Last(r).checkRounds && |Last(q).rounds| == |Last(r).rounds|
  {
    q := RoundLands(o, r, outcome);
    VerdictOfRound(o, q, outcome, since, Last(r).now);
  }

  /** A call whose flight has landed takes its value, and the gate is still open. */
  lemma Depart(o: Options, r: Run, c: nat) returns (q: Run)
    requires IsRun(o, r) && !Last(r).shuttingDown && |Last(r).flights| > 0 && Current(Last(r)).phase.Landed?
    requires c in Last(r).calls && Last(r).calls[c].pc == InFlight
    requires Last(r).calls[c].joined == Some(|Last(r).flights| - 1)
    ensures Continues(o, r, q) && OnlyCall(Last(r), Last(q), c) && Last(q).flights == Last(r).flights
    ensures AnsweredIn(o, q, c) && AnswerOf(q, c) == Current(Last(r)).phase.entry.result
    ensures Last(q).calls[c].begunAt == Last(r).calls[c].begunAt
  {
    q := Act(o, r, Leave(c));
    q := Act(o, q, ReadGateAgain(c));
  }

  // ---- the recovery delay is exact ----

  lemma Started(o: Options, at: Time) returns (r: Run)
    ensures IsTimelyRun(o, r) && Last(r) == Init(o, at)
  {
    r := Run([Init(o, at)], []);
  }

  /** The run hands a failure to a call that begins at this instant, though no flight lags by more. */
  ghost predicate FailsAt(o: Options, r: Run, c: nat, healedAt: Time, lag: Time, at: Time) {
    && AnsweredIn(o, r, c) && !AnswerOf(r, c).shuttingDown && AnswerOf(r, c).status == NotReady
    && LagIsAtMost(o, r, lag) && HealthyFrom(Last(r), healedAt) && Last(r).calls[c].begunAt == at
  }

  /** One round, which failed before the recovery, and its flight. */
  ghost predicate OneFailure(o: Options, s: State, healedAt: Time, at: Time) {
    |s.rounds| == 1 && |s.flights| == 1 && !s.shuttingDown && Ended(o, s, Some(DOWN), healedAt - 1, at)
  }

  /** With a positive TTL and a lag, a flight hits the failure just before it expires, and lands the lag later. */
  lemma LaggingFlight(o: Options, healedAt: Time, lag: Time) returns (r: Run, c: nat)
    requires o.names != [] && 0 <= o.timeout && 0 < o.ttl && 1 <= lag
    ensures FailsAt(o, r, c, healedAt, lag, healedAt + RecoveryDelay(o.timeout, o.ttl, lag))
  {
    var end := healedAt - 1 + o.timeout + lag;
    r := FailureWithAnother(o, healedAt, end);
    r := Wait(o, r, end + o.ttl - 1);
    var h: nat;
    r, h := HitAndStall(o, r, 1, lag, healedAt, end);
    c := 2;
    r := ArriveStalled(o, r, c, h, healedAt, end);
    r := JoinTheStalled(o, r, c, h, end + o.ttl - 1, healedAt, end);
  }

  /** A round that fails at `end`, while another call is about to reach a flight. */
  lemma FailureWithAnother(o: Options, healedAt: Time, end: Time) returns (r: Run)
    requires o.names != [] && healedAt - 1 <= end
    ensures IsRun(o, r) && OneFailure(o, Last(r), healedAt, end) && Last(r).now == end
    ensures AtTheFlight(Last(r), 1) && Last(r).calls.Keys == {0, 1}
  {
    r := Started(o, healedAt - 1);
    r := Arrive(o, r, 0);
    r := Arrive(o, r, 1);
    r := RoundBegins(o, r, 0);
    r := Wait(o, r, end);
    r := RoundEnds(o, r, Some(DOWN), healedAt - 1);
  }

  /** A second flight has found the failure in the cache at state h, and not landed. */
  ghost predicate Stalled(o: Options, r: Run, h: nat, hit: Time, healedAt: Time, end: Time) {
    IsRun(o, r) &&
    var s := Last(r);
    && |s.rounds| == 1 && |s.flights| == 2 && !s.shuttingDown
    && FailedRound(o, s, healedAt, end) && FailedFlight(s, end)
    && s.cached.Some? && Reports(s.cached.value.result, Some(DOWN), end)
    && s.flights[1].phase == Settled(s.cached.value, FromCache(h))
    && h < |r.states| && r.states[h].now == hit
  }

  ghost predicate FailedRound(o: Options, s: State, healedAt: Time, end: Time) {
    |s.rounds| > 0 && EndedRound(o, s.rounds[0], Some(DOWN), healedAt - 1, end)
  }

  ghost predicate FailedFlight(s: State, end: Time) {
    && |s.flights| > 0 && s.flights[0].phase.Landed? && s.flights[0].phase.source == FromRound
    && s.flights[0].phase.entry.round == 0 && s.flights[0].phase.at == end
  }

  lemma HitAndStall(o: Options, r: Run, c: nat, lag: Time, healedAt: Time, end: Time) returns (q: Run, h: nat)
    requires IsRun(o, r) && OneFailure(o, Last(r), healedAt, end) && AtTheFlight(Last(r), c) && 0 <= lag
    requires Last(r).now < end + o.ttl
    ensures Stalled(o, q, h, Last(r).now, healedAt, end)
    ensures Last(q).now == Last(r).now + lag && Last(q).calls.Keys == Last(r).calls.Keys
    ensures Last(q).cached == Last(r).cached
  {
    q, h := HitInFlight(o, r, c, healedAt, end);
    q := Wait(o, q, Last(r).now + lag);
  }

  lemma HitInFlight(o: Options, r: Run, c: nat, healedAt: Time, end: Time) returns (q: Run, h: nat)
    requires IsRun(o, r) && OneFailure(o, Last(r), healedAt, end) && AtTheFlight(Last(r), c)
    requires Last(r).now < end + o.ttl
    ensures Stalled(o, q, h, Last(r).now, healedAt, end)
    ensures Last(q).now == Last(r).now && Last(q).calls.Keys == Last(r).calls.Keys && Last(q).cached == Last(r).cached
  {
    q := Act(o, r, Join(c));
    h := |q.states| - 1;
    RunIsSound(o, q, h);
    q := Act(o, q, Recheck);
  }

  lemma ArriveStalled(o: Options, r: Run, c: nat, h: nat, healedAt: Time, end: Time) returns (q: Run)
    requires h < |r.states| && Stalled(o, r, h, r.states[h].now, healedAt, end)
    requires c !in Last(r).calls && end + o.ttl <= Last(r).now
    ensures Stalled(o, q, h, r.states[h].now, healedAt, end) && AtTheFlight(Last(q), c)
    ensures Last(q).now == Last(r).now && Last(q).calls[c].begunAt == Last(r).now
  {
    q := Arrive(o, r, c);
  }

  lemma JoinTheStalled(o: Options, r: Run, c: nat, h: nat, hit: Time, healedAt: Time, end: Time) returns (q: Run)
    requires Stalled(o, r, h, hit, healedAt, end) && AtTheFlight(Last(r), c)
    requires hit <= Last(r).now && 0 <= end - (healedAt - 1) - o.timeout <= Last(r).now - hit
    ensures FailsAt(o, q, c, healedAt, Last(r).now - hit, Last(r).calls[c].begunAt)
  {
    q := Act(o, r, Join(c));
    q := Act(o, q, Land);
    assert Last(q).flights[1].phase.at == Last(r).now;
    q := Depart(o, q, c);
    OneRoundTwoFlights(o, q, h, hit, healedAt, end);
  }

  lemma OneRoundTwoFlights(o: Options, r: Run, h: nat, hit: Time, healedAt: Time, end: Time)
    requires IsRun(o, r) && |Last(r).rounds| == 1 && |Last(r).flights| == 2
    requires FailedRound(o, Last(r), healedAt, end) && FailedFlight(Last(r), end)
    requires Last(r).flights[1].phase.Landed? && Last(r).flights[1].phase.source == FromCache(h)
    requires h < |r.states| && r.states[h].now == hit
    ensures HealthyFrom(Last(r), healedAt)
    ensures forall lag :: end <= healedAt - 1 + o.timeout + lag && Last(r).flights[1].phase.at <= hit + lag ==>
              LagIsAtMost(o, r, lag)
  {}

  lemma ProbeAloneMayRun(o: Options, s: State, to: Time)
    requires Probes(o, s, s.now) && o.names != [] && s.calls.Keys == {0}
    requires s.calls[0].pc == InFlight && s.calls[0].joined == Some(|s.flights| - 1)
    ensures to <= s.now + o.timeout ==> Timely(o, s, Tick(to))
  {
    forall c | c in s.calls ensures AtRest(s, s.calls[c]) {
      assert c in s.calls.Keys;
    }
    assert Newest(s).checks[0] == Running(s.now);
  }

  /** A round led by the only call, whose check runs until `end`. */
  lemma OneProbe(o: Options, healedAt: Time, end: Time) returns (r: Run)
    requires o.names != [] && healedAt - 1 <= end
    ensures IsRun(o, r) && Probes(o, Last(r), healedAt - 1) && Last(r).now == end && !Last(r).shuttingDown
    ensures |Last(r).rounds| == 1 && |Last(r).flights| == 1 && Last(r).cached.None?
    ensures Last(r).calls.Keys == {0} && Last(r).calls[0].pc == InFlight && Last(r).calls[0].joined == Some(0)
    ensures end <= healedAt - 1 + o.timeout ==> IsTimelyRun(o, r)
  {
    r := Started(o, healedAt - 1);
    r := Arrive(o, r, 0);
    r := RoundBegins(o, r, 0);
    ProbeAloneMayRun(o, Last(r), end);
    r := Wait(o, r, end);
  }

  /** Without a TTL, a call joins the failing round at its last instant. */
  lemma FailureIsShared(o: Options, healedAt: Time, lag: Time) returns (r: Run, c: nat)
    requires o.names != [] && 0 <= o.timeout && o.ttl == 0 && 0 <= lag
    ensures FailsAt(o, r, c, healedAt, lag, healedAt + RecoveryDelay(o.timeout, o.ttl, lag))
    ensures lag == 0 ==> IsTimelyRun(o, r)
  {
    var end := healedAt - 1 + o.timeout + lag;
    r := OneProbe(o, healedAt, end);
    c := 1;
    r := JoinRound(o, r, c, healedAt - 1);
    r := RoundEnds(o, r, Some(DOWN), healedAt - 1);
    assert OneFailure(o, Last(r), healedAt, end);
    r := Depart(o, r, c);
    OneRoundOneFlight(o, r, healedAt, end);
  }

  lemma OneRoundOneFlight(o: Options, r: Run, healedAt: Time, end: Time)
    requires IsRun(o, r) && OneFailure(o, Last(r), healedAt, end)
    ensures HealthyFrom(Last(r), healedAt) && LagIsAtMost(o, r, end - (healedAt - 1) - o.timeout)
  {}

  /** A new call joins the round in progress. */
  lemma JoinRound(o: Options, r: Run, c: nat, since: Time) returns (q: Run)
    requires IsRun(o, r) && Probes(o, Last(r), since) && !Last(r).shuttingDown && Last(r).cached.None?
    requires c !in Last(r).calls
    ensures Continues(o, r, q) && OnlyCall(Last(r), Last(q), c) && Last(q).flights == Last(r).flights
    ensures Probes(o, Last(q), since)
    ensures Last(q).calls[c].pc == InFlight && Last(q).calls[c].joined == Some(|Last(r).flights| - 1)
    ensures Last(q).calls[c].begunAt == Last(r).now
  {
    q := Arrive(o, r, c);
    q := Share(o, q, c);
  }

  /** A call joins the flight in progress. */
  lemma Share(o: Options, r: Run, c: nat) returns (q: Run)
    requires IsRun(o, r) && AtTheFlight(Last(r), c) && Flying(Last(r))
    ensures Continues(o, r, q) && OnlyCall(Last(r), Last(q), c) && Last(q).flights == Last(r).flights
    ensures Last(q).calls[c].pc == InFlight && Last(q).calls[c].joined == Some(|Last(r).flights| - 1)
    ensures Last(q).calls[c].begunAt == Last(r).calls[c].begunAt
  {
    q := Act(o, r, Join(c));
  }

  /** With a positive TTL and no lag, a call finds the failure in the cache just before it expires. */
  lemma FailureIsCached(o: Options, healedAt: Time) returns (r: Run, c: nat)
    requires o.names != [] && 0 <= o.timeout && 0 < o.ttl
    ensures FailsAt(o, r, c, healedAt, 0, healedAt + RecoveryDelay(o.timeout, o.ttl, 0))
    ensures IsTimelyRun(o, r)
  {
    var end := healedAt - 1 + o.timeout;
    r := OneProbe(o, healedAt, end);
    r := RoundEnds(o, r, Some(DOWN), healedAt - 1);
    r := Depart(o, r, 0);
    r := Wait(o, r, end + o.ttl - 1);
    c := 1;
    r := HitCache(o, r, c);
  }

  /** A new call is answered from the cache. */
  lemma HitCache(o: Options, r: Run, c: nat) returns (q: Run)
    requires IsRun(o, r) && !Last(r).shuttingDown && c !in Last(r).calls && CacheHit(o, Last(r))
    ensures Continues(o, r, q) && OnlyCall(Last(r), Last(q), c) && Last(q).flights == Last(r).flights
    ensures AnsweredIn(o, q, c) && AnswerOf(q, c) == Last(r).cached.value.result
    ensures Last(q).calls[c].begunAt == Last(r).now
  {
    q := Act(o, r, Enter(c));
    q := Act(o, q, ReadGate(c));
    q := Act(o, q, ReadCache(c));
  }

  /** In some run whose flights lag by no more, a call handed a failure begins at the end of the recovery delay. */
  lemma LatestFailure(o: Options, healedAt: Time, lag: Time) returns (r: Run, c: nat)
    requires o.names != [] && 0 <= o.timeout && 0 <= o.ttl && 0 <= lag
    ensures FailsAt(o, r, c, healedAt, lag, healedAt + RecoveryDelay(o.timeout, o.ttl, lag))
    ensures lag == 0 ==> IsTimelyRun(o, r)
  {
    if o.ttl == 0 {
      r, c := FailureIsShared(o, healedAt, lag);
    } else if lag == 0 {
      r, c := FailureIsCached(o, healedAt);
    } else {
      r, c := LaggingFlight(o, healedAt, lag);
    }
  }

  /** Every call that begins more than the delay after the recovery, and reports no shutdown, is ready. */
  ghost predicate RecoversWithin(o: Options, lag: Time, delay: Time) {
    forall r: Run, c: nat, healedAt: Time |
      && AnsweredIn(o, r, c) && !AnswerOf(r, c).shuttingDown && LagIsAtMost(o, r, lag) && HealthyFrom(Last(r), healedAt)
      && healedAt + delay < Last(r).calls[c].begunAt ::
      AnswerOf(r, c).status == Ready
  }

  /** The same of the runs that count time only in checks. */
  ghost predicate TimelyRecoversWithin(o: Options, delay: Time) {
    forall r: Run, c: nat, healedAt: Time |
      && IsTimelyRun(o, r) && AnsweredIn(o, r, c) && !AnswerOf(r, c).shuttingDown && HealthyFrom(Last(r), healedAt)
      && healedAt + delay < Last(r).calls[c].begunAt ::
      AnswerOf(r, c).status == Ready
  }

  /** For every aggregator with a checker the recovery delay is enough in every run, and no shorter one is. */
  lemma RecoveryDelayIsExact(o: Options, lag: Time, delay: Time)
    requires o.names != [] && 0 <= o.timeout && 0 <= o.ttl && 0 <= lag
    ensures RecoversWithin(o, lag, delay) <==> RecoveryDelay(o.timeout, o.ttl, lag) <= delay
  {
    if RecoveryDelay(o.timeout, o.ttl, lag) <= delay {
      forall r: Run, c: nat, healedAt: Time |
        && AnsweredIn(o, r, c) && !AnswerOf(r, c).shuttingDown && LagIsAtMost(o, r, lag)
        && HealthyFrom(Last(r), healedAt) && healedAt + delay < Last(r).calls[c].begunAt
        ensures AnswerOf(r, c).status == Ready
      {
        RecoveryIsBounded(o, r, c, healedAt, lag);
      }
    } else {
      var r, c := LatestFailure(o, 0, lag);
    }
  }

  /** So is the delay without a lag when time is counted only in checks. */
  lemma TimelyRecoveryDelayIsExact(o: Options, delay: Time)
    requires o.names != [] && 0 <= o.timeout && 0 <= o.ttl
    ensures TimelyRecoversWithin(o, delay) <==> RecoveryDelay(o.timeout, o.ttl, 0) <= delay
  {
    if RecoveryDelay(o.timeout, o.ttl, 0) <= delay {
      forall r: Run, c: nat, healedAt: Time |
        && IsTimelyRun(o, r) && AnsweredIn(o, r, c) && !AnswerOf(r, c).shuttingDown && HealthyFrom(Last(r), healedAt)
        && healedAt + delay < Last(r).calls[c].begunAt
        ensures AnswerOf(r, c).status == Ready
      {
        RecoveryTakesUnderTwoTimeouts(o, r, c, healedAt);
      }
    } else {
      var r, c := LatestFailure(o, 0, 0);
    }
  }

  /** Without a bound on the lag no delay is enough: a stalled flight hands a failure to a call that begins later. */
  lemma NoDelayCoversEveryLag(o: Options, delay: Time) returns (lag: Time)
    requires o.names != [] && 0 <= o.timeout && 0 <= o.ttl
    ensures 0 <= lag && !RecoversWithin(o, lag, delay)
  {
    lag := if delay > 0 then delay + 2 else 2;
    RecoveryDelayIsExact(o, lag, delay);
  }

  // ---- a shutdown that begins while calls run ----

  /**
   With a positive TTL a call that has passed the gate, and then hits the outer cache, reports ready
   after the flag has been set.
   */
  lemma CacheHitMissesTheShutdown(o: Options) returns (r: Run, c: nat, b: nat)
    requires 0 < o.ttl
    ensures AnsweredIn(o, r, c) && SetsFlag(r, b) && Inside(r, c, b + 1)
    ensures !AnswerOf(r, c).shuttingDown && AnswerOf(r, c).status == Ready
  {
    r := Started(o, 0);
    r := Arrive(o, r, 0);
    r := RoundBegins(o, r, 0);
    r := RoundEnds(o, r, None, 0);
    c := 1;
    r := PassTheGate(o, r, c);
    r, b := ShutDown(o, r);
    r := HitAfterwards(o, r, c);
  }

  lemma PassTheGate(o: Options, r: Run, c: nat) returns (q: Run)
    requires IsRun(o, r) && !Last(r).shuttingDown && c !in Last(r).calls
    ensures Continues(o, r, q) && OnlyCall(Last(r), Last(q), c) && Last(q).flights == Last(r).flights
    ensures Last(q).calls[c].pc == PastGate && Last(q).calls[c].begun + 2 == |q.states| - 1
  {
    RunIsSound(o, r, |r.states| - 1);
    q := Act(o, r, Enter(c));
    q := Act(o, q, ReadGate(c));
  }

  lemma ShutDown(o: Options, r: Run) returns (q: Run, b: nat)
    requires IsRun(o, r) && !Last(r).shuttingDown
    ensures Continues(o, r, q) && SetsFlag(q, b) && b + 1 == |r.states| == |q.states| - 1
    ensures Last(q) == Last(r).(shuttingDown := true, step := Last(r).step + 1)
  {
    b := |r.states| - 1;
    q := Act(o, r, BeginShutdown);
  }

  lemma HitAfterwards(o: Options, r: Run, c: nat) returns (q: Run)
    requires IsRun(o, r) && c in Last(r).calls && Last(r).calls[c].pc == PastGate && CacheHit(o, Last(r))
    ensures Continues(o, r, q) && AnsweredIn(o, q, c) && AnswerOf(q, c) == Last(r).cached.value.result
    ensures Last(q).calls[c].begun == Last(r).calls[c].begun
    ensures Last(q).calls[c].pc.answered == |r.states| - 1 < |q.states| - 1
  {
    RunIsSound(o, r, |r.states| - 1);
    q := Act(o, r, ReadCache(c));
  }

  // ---- rounds after the shutdown ----

  ghost predicate AllAtTheFlight(s: State, lo: nat, hi: nat) {
    forall c: nat | lo <= c < hi :: AtTheFlight(s, c)
  }

  function UpTo(n: nat): (below: set<nat>)
    ensures forall c: nat :: c in below <==> c < n
  {
    if n == 0 then {} else UpTo(n - 1) + {n - 1}
  }

  lemma {:induction false} UpToSize(n: nat)
    ensures |UpTo(n)| == n
  {
    if n > 0 {
      UpToSize(n - 1);
    }
  }

  /** Any number of calls find the cache empty. */
  lemma {:induction false} ManyArrive(o: Options, n: nat) returns (r: Run)
    ensures IsRun(o, r) && !Last(r).shuttingDown && AllAtTheFlight(Last(r), 0, n) && Last(r).calls.Keys == UpTo(n)
    ensures Last(r).flights == [] && Last(r).cached.None? && Last(r).checkRounds == 0
  {
    if n == 0 {
      r := Started(o, 0);
    } else {
      r := ManyArrive(o, n - 1);
      var s := Last(r);
      r := Arrive(o, r, n - 1);
      forall c: nat | c < n ensures AtTheFlight(Last(r), c) {
        if c < n - 1 { assert AtTheFlight(s, c); }
      }
    }
  }

  /** Each of them in turn leads a flight that runs a round. */
  lemma {:induction false} ManyRounds(o: Options, r: Run, lo: nat, hi: nat) returns (q: Run)
    requires IsRun(o, r) && 0 <= o.ttl && lo <= hi
    requires AllAtTheFlight(Last(r), lo, hi) && !Flying(Last(r))
    ensures Grows(o, r, q) && Last(q).checkRounds == Last(r).checkRounds + (hi - lo)
    decreases hi - lo
  {
    if lo == hi {
      q := r;
    } else {
      q := LonelyRound(o, r, lo);
      forall c: nat | lo + 1 <= c < hi ensures AtTheFlight(Last(q), c) {
        assert AtTheFlight(Last(r), c);
      }
      q := ManyRounds(o, q, lo + 1, hi);
    }
  }

  lemma LonelyRound(o: Options, r: Run, c: nat) returns (q: Run)
    requires IsRun(o, r) && 0 <= o.ttl
    requires AtTheFlight(Last(r), c) && !Flying(Last(r))
    ensures Grows(o, r, q) && Last(q).checkRounds == Last(r).checkRounds + 1 && !Flying(Last(q))
    ensures forall d | d in Last(r).calls && d != c :: d in Last(q).calls && Last(q).calls[d] == Last(r).calls[d]
  {
    var now := if Last(r).cached.None? then Last(r).now
               else Later(Last(r).now, Last(r).cached.value.result.evaluatedAt + o.ttl);
    q := Wait(o, r, now);
    q := RoundBegins(o, q, c);
    q := RoundEnds(o, q, None, now);
  }

  function Later(a: Time, b: Time): Time {
    if a < b then b else a
  }

  /** The bound on the rounds after a shutdown is attained, for any number of calls. */
  lemma RoundsAfterShutdownAttained(o: Options, n: nat) returns (r: Run, b: nat)
    requires 0 <= o.ttl
    ensures IsRun(o, r) && b < |r.states| && r.states[b].shuttingDown
    ensures |MayStart(r.states[b])| == n && Last(r).checkRounds - r.states[b].checkRounds == n
  {
    r := ManyArrive(o, n);
    var s := Last(r);
    r, b := ShutDown(o, r);
    b := b + 1;
    var t := r.states[b];
    forall c: nat | c < n ensures AtTheFlight(t, c) {
      assert AtTheFlight(s, c);
    }
    forall c: nat ensures c in MayStart(t) <==> c in UpTo(n) {
      if c < n { assert AtTheFlight(t, c); } else { assert c !in t.calls.Keys; }
    }
    assert MayStart(t) == UpTo(n);
    UpToSize(n);
    r := ManyRounds(o, r, 0, n);
  }
}

/**
 A call that meets no other, in any run: what the state machine makes of it is what the sequential
 Evaluate does, with the clock readings and the checks of the run.
 */
module ReadinessAlone {
  import opened Prelude
  import opened DepMetrics
  import opened Aggregate
  import opened Readiness
  import opened ReadinessCore
  import opened ReadinessLinks
  import opened ReadinessHistory
  import opened ReadinessTheorems
  import opened ReadinessGate
  import opened ReadinessReplay

  /** While the call is open every other call is over. */
  ghost predicate IsAlone(r: Run, c: nat)
    requires |r.states| > 0 && c in Last(r).calls && Last(r).calls[c].pc.Answered?
  {
    var call := Last(r).calls[c];
    && call.pc.answered + 1 < |r.states|
    && forall m, d | call.begun <= m <= call.pc.answered + 1 && d in r.states[m].calls && d != c ::
         r.states[m].calls[d].pc.Answered?
  }

  function HeldIn(s: State): Held {
    Held(CachedResult(s), s.shuttingDown, s.checkRounds, s.metrics)
  }

  // ---- a flight that finds the cache fresh runs no round ----

  ghost predicate HitsRunNoRound(s: State) {
    forall f, q | 0 <= f < |s.flights| && 0 <= q < |s.rounds| && FromHit(s.flights[f].phase) :: s.rounds[q].flight != f
  }

  predicate FromHit(p: Phase) {
    (p.Settled? || p.Landed?) && p.source.FromCache?
  }

  lemma HitsKept(o: Options, s: State, a: Action)
    requires Sound(o, s) && HitsRunNoRound(s) && Enabled(o, s, a)
    ensures HitsRunNoRound(Next(o, s, a))
  {
    if Aside(a) {
      AsideLeavesRoundsAlone(o, s, a);
    } else if a.Recheck? {
      RecheckKeepsHits(o, s);
    }
  }

  lemma RecheckKeepsHits(o: Options, s: State)
    requires Sound(o, s) && HitsRunNoRound(s) && Enabled(o, s, Recheck)
    ensures HitsRunNoRound(Next(o, s, Recheck))
  {
    forall q | 0 <= q < |s.rounds| ensures s.rounds[q].flight < |s.flights| - 1 {
      if q < |s.rounds| - 1 {
        FlightsOfRoundsDiffer(o, s, q, |s.rounds| - 1);
      }
    }
  }

  lemma {:induction false} RunKeepsHits(o: Options, r: Run, k: nat)
    requires IsRun(o, r) && k < |r.states|
    ensures HitsRunNoRound(r.states[k])
    decreases k
  {
    if k > 0 {
      RunKeepsHits(o, r, k - 1);
      RunIsSound(o, r, k - 1);
      RunAction(o, r, k - 1);
      HitsKept(o, r.states[k - 1], r.actions[k - 1]);
    }
  }

  // ---- what an open call that is alone has to itself ----

  ghost predicate Alone(o: Options, r: Run, c: nat) {
    AnsweredIn(o, r, c) && IsAlone(r, c)
  }

  /** The state the call began in, and the one it was answered in. */
  function Before(r: Run, c: nat): nat
    requires |r.states| > 0 && c in Last(r).calls
  {
    Last(r).calls[c].begun
  }

  function After(r: Run, c: nat): nat
    requires |r.states| > 0 && c in Last(r).calls && Last(r).calls[c].pc.Answered?
  {
    Last(r).calls[c].pc.answered + 1
  }

  lemma SpanOfCall(o: Options, r: Run, c: nat)
    requires Alone(o, r, c)
    ensures Before(r, c) + 1 < After(r, c) < |r.states| && c !in r.states[Before(r, c)].calls
    ensures c in r.states[After(r, c)].calls && r.states[After(r, c)].calls[c] == Last(r).calls[c]
    ensures r.actions[After(r, c) - 1] == AnsweringAction(c, Last(r).calls[c].pc.via)
  {
    Recall(o, r, c);
    AnsweredByItsAction(o, r, |r.states| - 1, c);
  }

  /** A flight in progress while the call is open is led by it. */
  lemma FlightsAreItsOwn(o: Options, r: Run, c: nat, m: nat, f: nat)
    requires Alone(o, r, c) && Before(r, c) <= m <= After(r, c) && InProgress(r, f, m)
    ensures f == |r.states[m].flights| - 1 && r.states[m].flights[f].leader == c
    ensures c in r.states[m].calls && r.states[m].calls[c].pc.InFlight? && r.states[m].calls[c].joined == Some(f)
    ensures Last(r).calls[c].joined == Some(f)
  {
    RunIsSound(o, r, m);
    assert FlightOk(o, r.states[m], f);
    RunExtends(o, r, m, |r.states| - 1);
  }

  /** So none is at either end, nor while the call has not reached one. */
  lemma QuietAround(o: Options, r: Run, c: nat, m: nat)
    requires Alone(o, r, c) && Before(r, c) <= m <= After(r, c)
    requires c in r.states[m].calls ==> !r.states[m].calls[c].pc.InFlight?
    ensures !Flying(r.states[m])
  {
    if Flying(r.states[m]) {
      FlightsAreItsOwn(o, r, c, m, |r.states[m].flights| - 1);
    }
  }

  /** A round that begins while the call is open is that of its flight. */
  lemma RoundsAreItsOwn(o: Options, r: Run, c: nat, q: nat)
    requires Alone(o, r, c) && After(r, c) < |r.states|
    requires Before(r, c) <= After(r, c) && |r.states[Before(r, c)].rounds| <= q < |r.states[After(r, c)].rounds|
    ensures q < |Last(r).rounds| && Last(r).calls[c].joined == Some(Last(r).rounds[q].flight)
  {
    var n := |r.states| - 1;
    RunExtends(o, r, After(r, c), n);
    RunRemembers(o, r, n);
    RoundsBeginMissed(o, r, q);
    var round := Last(r).rounds[q];
    assert RoundMemory(r.states, n, q, round);
    if round.begun < Before(r, c) { RunExtends(o, r, round.begun + 1, Before(r, c)); }
    if After(r, c) <= round.begun { RunExtends(o, r, After(r, c), round.begun); }
    FlightsAreItsOwn(o, r, c, round.begun, round.flight);
  }

  // ---- what is held, by the number of rounds ----

  lemma SameCache(o: Options, r: Run, i: nat, k: nat)
    requires IsRun(o, r) && i <= k < |r.states|
    requires Published(r.states[i]) == |r.states[i].rounds| == |r.states[k].rounds| == Published(r.states[k])
    ensures CachedResult(r.states[i]) == CachedResult(r.states[k])
    ensures r.states[i].checkRounds == r.states[k].checkRounds
  {
    RunIsSound(o, r, i);
    RunIsSound(o, r, k);
    RunExtends(o, r, i, k);
  }

  lemma SameMetrics(o: Options, r: Run, i: nat, k: nat)
    requires IsRun(o, r) && i <= k < |r.states| && !Flying(r.states[i]) && !Flying(r.states[k])
    ensures |r.states[i].rounds| <= |r.states[k].rounds| && RoundsReturned(r.states[k].rounds, |r.states[i].rounds|)
    ensures r.states[i].metrics == MetricsAfter(r.states[k].rounds, |r.states[i].rounds|)
    ensures RoundsReturned(r.states[k].rounds, |r.states[k].rounds|)
    ensures r.states[k].metrics == MetricsAfter(r.states[k].rounds, |r.states[k].rounds|)
  {
    RunKeepsReplay(o, r, i);
    RunKeepsReplay(o, r, k);
    RunIsSound(o, r, i);
    RunExtends(o, r, i, k);
    MetricsAfterStays(r.states[i].rounds, r.states[k].rounds, |r.states[i].rounds|);
  }

  /** Without a round nothing changes but the flag. */
  lemma NoRoundNoChange(o: Options, r: Run, i: nat, k: nat)
    requires IsRun(o, r) && i <= k < |r.states| && !Flying(r.states[i]) && !Flying(r.states[k])
    requires |r.states[i].rounds| == |r.states[k].rounds|
    ensures HeldIn(r.states[k]) == HeldIn(r.states[i]).(shuttingDown := r.states[k].shuttingDown)
  {
    SameCache(o, r, i, k);
    SameMetrics(o, r, i, k);
  }

  /** With one round it is what the round leaves. */
  lemma OneRoundLeaves(o: Options, r: Run, i: nat, k: nat)
    requires IsRun(o, r) && i <= k < |r.states| && !Flying(r.states[i]) && !Flying(r.states[k])
    requires |r.states[i].rounds| + 1 == |r.states[k].rounds|
    ensures var round := r.states[k].rounds[|r.states[i].rounds|];
            && RoundOk(o, round) && round.evaluatedAt.Some?
            && var statuses := StatusesOf(o.names, Seen(round.checks));
               HeldIn(r.states[k]) ==
               Held(Some(RoundResult(o, statuses, round.evaluatedAt.value)), r.states[k].shuttingDown,
                    r.states[i].checkRounds + 1, RecordedAll(r.states[i].metrics, statuses))
  {
    RunIsSound(o, r, i);
    RunIsSound(o, r, k);
    SameMetrics(o, r, i, k);
    SlotsAreSequential(o, Newest(r.states[k]));
  }

  // ---- how a call gets to a flight ----

  ghost predicate HasMissed(call: Call) {
    call.pc.AtFlight? || call.joined.Some?
  }

  lemma ActionAndMiss(o: Options, s: State, a: Action, c: nat) returns (here: bool)
    requires Links(o, s) && Enabled(o, s, a) && c in Next(o, s, a).calls && HasMissed(Next(o, s, a).calls[c])
    ensures c in s.calls
    ensures var was, now := s.calls[c], Next(o, s, a).calls[c];
            if here then a == ReadCache(c) && was.pc.PastGate? && !CacheHit(o, s) && now.joined.None?
            else HasMissed(was) && (now.joined.Some? ==>
                                      now.joinedAt == s.step || (was.joined.Some? && now.joinedAt == was.joinedAt))
  {
    here := a == ReadCache(c);
    if c in s.calls {
      assert CallOk(o, s, s.calls[c]);
      if Mover(a) != Some(c) { OthersStay(o, s, a, c); }
    }
  }

  /** It has read the cache before, and found it stale or empty. */
  lemma {:induction false} MissedOnTheWay(o: Options, r: Run, k: nat, c: nat) returns (m: nat)
    requires IsRun(o, r) && k < |r.states| && c in r.states[k].calls && HasMissed(r.states[k].calls[c])
    ensures m < k <= |r.actions| && r.actions[m] == ReadCache(c)
    ensures c in r.states[m].calls && r.states[m].calls[c].pc.PastGate? && !CacheHit(o, r.states[m])
    ensures r.states[k].calls[c].joined.Some? ==> m < r.states[k].calls[c].joinedAt
    decreases k
  {
    if k == 0 {
      assert false;
    } else {
      RunAction(o, r, k - 1);
      RunKeepsLinks(o, r, k - 1);
      var here := ActionAndMiss(o, r.states[k - 1], r.actions[k - 1], c);
      if here {
        m := k - 1;
      } else {
        m := MissedOnTheWay(o, r, k - 1, c);
      }
    }
  }

  lemma ActionAndMissed(o: Options, s: State, a: Action, f: nat)
    requires Enabled(o, s, a) && f < |Next(o, s, a).flights| && Next(o, s, a).flights[f].phase.Missed?
    ensures f < |s.flights|
    ensures || s.flights[f].phase.Missed?
            || (a == Recheck && f == |s.flights| - 1 && s.flights[f].phase.Rechecking? && !CacheHit(o, s))
  {}

  /** A flight that has missed has read the cache before. */
  lemma {:induction false} RecheckOf(o: Options, r: Run, k: nat, f: nat) returns (m: nat)
    requires IsRun(o, r) && k < |r.states| && f < |r.states[k].flights| && r.states[k].flights[f].phase.Missed?
    ensures m < k <= |r.actions| && r.actions[m] == Recheck
    ensures f == |r.states[m].flights| - 1 && r.states[m].flights[f].phase.Rechecking? && !CacheHit(o, r.states[m])
    decreases k
  {
    if k == 0 {
      assert false;
    } else {
      RunAction(o, r, k - 1);
      ActionAndMissed(o, r.states[k - 1], r.actions[k - 1], f);
      if r.states[k - 1].flights[f].phase.Missed? {
        m := RecheckOf(o, r, k - 1, f);
      } else {
        m := k - 1;
      }
    }
  }

  // ---- what the call met ----

  /** Whether the call got as far as reading the cache. */
  predicate ReadTheCache(call: Call) {
    call.joined.Some? || (call.pc.Answered? && call.pc.via.OuterCache?)
  }

  /** Where the flag was set, from its values before the call, at its gate read, at its cache read, and after it. */
  function FlipMet(before: bool, atGate: bool, atCache: bool, after: bool): Flip {
    if before || !after then Never
    else if atGate then BeforeGate
    else if atCache then BeforeCache
    else BeforeGateAgain
  }

  function FlagSetAt(r: Run, m: nat): bool {
    m < |r.states| && r.states[m].shuttingDown
  }

  /**
   The script is the call's own: the clock at its cache read (action `cache`), at the cache read of its
   flight (action `recheck`) and at its end, the checks and the time of its flight's round, and the place
   of the flag among its gate and cache reads.
   */
  ghost predicate IsItsScript(o: Options, r: Run, c: nat, e: Script, cache: nat, recheck: nat)
    requires Alone(o, r, c)
  {
    var call := Last(r).calls[c];
    && |r.states| == |r.actions| + 1
    && Before(r, c) < call.admitted < After(r, c) < |r.states| && r.actions[call.admitted] == ReadGate(c)
    && e.end == call.pc.answeredAt
    && (ReadTheCache(call) ==>
          && call.admitted < cache < After(r, c) && r.actions[cache] == ReadCache(c)
          && e.outer == r.states[cache].now)
    && (call.joined.Some? ==>
          && cache < recheck < After(r, c) && r.actions[recheck] == Recheck
          && InProgress(r, call.joined.value, recheck) && e.inner == r.states[recheck].now
          && exists q: nat :: q < |Last(r).rounds| && IsRoundOf(Last(r).rounds[q], call.joined.value, e))
    && e.flip == FlipMet(FlagSetAt(r, Before(r, c)), FlagSetAt(r, call.admitted),
                         !ReadTheCache(call) || FlagSetAt(r, cache), FlagSetAt(r, After(r, c)))
  }

  /** The round of the flight is the one of the script. */
  ghost predicate IsRoundOf(round: Round, f: nat, e: Script) {
    && round.flight == f && round.evaluatedAt == Some(e.probedAt)
    && AllReturned(round.checks) && e.seen == Seen(round.checks)
  }

  // ---- the ways to be answered ----

  /** The sequential Evaluate does with the script what the run did. */
  ghost predicate Agrees(o: Options, r: Run, c: nat, e: Script)
    requires Alone(o, r, c)
  {
    var call := Last(r).calls[c];
    && |e.seen| == |o.names| && Before(r, c) < |r.states|
    && Evaluated(o, HeldIn(r.states[Before(r, c)]), e) == (HeldIn(r.states[After(r, c)]), AnswerOf(r, c))
    && call.begunAt <= e.outer <= e.inner <= e.probedAt <= e.end == call.pc.answeredAt
  }

  function Unused(o: Options): seq<Observation> {
    seq(|o.names|, _ => Observation(0, 0, None))
  }

  lemma NoRoundWithoutAFlight(o: Options, r: Run, c: nat)
    requires Alone(o, r, c) && Last(r).calls[c].joined.None?
    ensures Before(r, c) < |r.states|
    ensures HeldIn(r.states[After(r, c)]) ==
            HeldIn(r.states[Before(r, c)]).(shuttingDown := r.states[After(r, c)].shuttingDown)
  {
    SpanOfCall(o, r, c);
    QuietAround(o, r, c, Before(r, c));
    QuietAround(o, r, c, After(r, c));
    RunExtends(o, r, Before(r, c), After(r, c));
    if |r.states[Before(r, c)].rounds| < |r.states[After(r, c)].rounds| {
      RoundsAreItsOwn(o, r, c, |r.states[Before(r, c)].rounds|);
    }
    NoRoundNoChange(o, r, Before(r, c), After(r, c));
  }

  /** The action that answers a call changes nothing else. */
  lemma AnsweringChangesNothing(o: Options, r: Run, c: nat)
    requires Alone(o, r, c)
    ensures 0 < After(r, c) < |r.states|
    ensures var s, s' := r.states[After(r, c) - 1], r.states[After(r, c)];
            && HeldIn(s') == HeldIn(s) && s'.now == s.now == Last(r).calls[c].pc.answeredAt && s'.cached == s.cached
            && s'.flights == s.flights && s'.rounds == s.rounds
  {
    SpanOfCall(o, r, c);
    Recall(o, r, c);
    var m := After(r, c) - 1;
    RunAction(o, r, m);
    AnsweringActs(o, r.states[m], r.actions[m], c, Last(r).calls[c].pc.via);
  }

  lemma AnsweringActs(o: Options, s: State, a: Action, c: nat, via: Via)
    requires Enabled(o, s, a) && a == AnsweringAction(c, via)
    ensures var s' := Next(o, s, a);
            && HeldIn(s') == HeldIn(s) && s'.now == s.now && s'.cached == s.cached
            && s'.flights == s.flights && s'.rounds == s.rounds
  {}

  lemma TimesOfCall(o: Options, r: Run, c: nat)
    requires Alone(o, r, c)
    ensures Before(r, c) < After(r, c) < |r.states|
    ensures Last(r).calls[c].begunAt == r.states[Before(r, c)].now <= r.states[After(r, c)].now
  {
    SpanOfCall(o, r, c);
    Recall(o, r, c);
    RunExtends(o, r, Before(r, c), After(r, c));
  }

  lemma GateOfCall(o: Options, r: Run, c: nat)
    requires Alone(o, r, c)
    ensures Before(r, c) < Last(r).calls[c].admitted < After(r, c) < |r.states| == |r.actions| + 1
    ensures r.actions[Last(r).calls[c].admitted] == ReadGate(c)
  {
    SpanOfCall(o, r, c);
    AdmittedIsItsFirstRead(o, r, After(r, c), c);
    BegunBefore(o, r, c, After(r, c));
  }

  lemma OuterHitAlone(o: Options, r: Run, c: nat) returns (e: Script)
    requires Alone(o, r, c) && Last(r).calls[c].pc.via.OuterCache?
    ensures Agrees(o, r, c, e) && IsItsScript(o, r, c, e, Last(r).calls[c].pc.answered, 0)
  {
    var at := Last(r).calls[c].pc.answeredAt;
    OuterHitMet(o, r, c);
    TimesOfCall(o, r, c);
    AnsweringChangesNothing(o, r, c);
    NoRoundWithoutAFlight(o, r, c);
    e := Script(at, at, Unused(o), at, at, if r.states[After(r, c)].shuttingDown then BeforeCache else Never);
  }

  /** It read the gate while that was open, and then the cache. */
  lemma OuterHitMet(o: Options, r: Run, c: nat)
    requires Alone(o, r, c) && Last(r).calls[c].pc.via.OuterCache?
    ensures Last(r).calls[c].joined.None? && !FlagSetAt(r, Before(r, c)) && !FlagSetAt(r, Last(r).calls[c].admitted)
    ensures var call := Last(r).calls[c];
            && Before(r, c) < call.admitted < call.pc.answered < |r.states| - 1 == |r.actions|
            && r.actions[call.admitted] == ReadGate(c) && r.actions[call.pc.answered] == ReadCache(c)
            && FreshAt(o, r, Entry(AnswerOf(r, c), call.pc.via.round), call.pc.answered)
  {
    Recall(o, r, c);
    SpanOfCall(o, r, c);
    GateOfCall(o, r, c);
    EntryReadIsTheOnly(o, r, |r.states| - 1, c);
    if r.states[Before(r, c)].shuttingDown {
      FlagIsOneWay(o, r, Before(r, c), Last(r).calls[c].gateAt);
    }
  }

  lemma RefusedAlone(o: Options, r: Run, c: nat) returns (e: Script)
    requires Alone(o, r, c) && Last(r).calls[c].pc.via.Gate? && Last(r).calls[c].joined.None?
    ensures Agrees(o, r, c, e) && IsItsScript(o, r, c, e, 0, 0)
  {
    var at := Last(r).calls[c].pc.answeredAt;
    RefusalMet(o, r, c);
    TimesOfCall(o, r, c);
    AnsweringChangesNothing(o, r, c);
    NoRoundWithoutAFlight(o, r, c);
    e := Script(at, at, Unused(o), at, at, if r.states[Before(r, c)].shuttingDown then Never else BeforeGate);
  }

  /** It read the gate once, and that was closed. */
  lemma RefusalMet(o: Options, r: Run, c: nat)
    requires Alone(o, r, c) && Last(r).calls[c].pc.via.Gate? && Last(r).calls[c].joined.None?
    ensures FlagSetAt(r, Last(r).calls[c].admitted) && FlagSetAt(r, After(r, c))
    ensures var call := Last(r).calls[c];
            && Before(r, c) < call.admitted < After(r, c) < |r.states| == |r.actions| + 1
            && r.actions[call.admitted] == ReadGate(c)
            && AnswerOf(r, c) == ShutdownResult(o, CachedResult(r.states[call.pc.answered]), call.pc.answeredAt)
  {
    Recall(o, r, c);
    SpanOfCall(o, r, c);
    GateOfCall(o, r, c);
    EntryReadIsTheOnly(o, r, |r.states| - 1, c);
    FlagIsOneWay(o, r, Last(r).calls[c].gateAt, After(r, c));
  }

  /** The flight a call joined had not been born when the call began, and has landed when it is answered. */
  ghost predicate FlightSpan(r: Run, c: nat, f: nat)
    requires |r.states| > 0 && c in Last(r).calls && Last(r).calls[c].pc.Answered?
  {
    && Before(r, c) <= After(r, c) < |r.states|
    && |r.states[Before(r, c)].flights| <= f < |r.states[After(r, c)].flights|
    && f < |Last(r).flights|
    && r.states[After(r, c)].flights[f].phase.Landed? && r.states[After(r, c)].flights[f] == Last(r).flights[f]
  }

  lemma SpanOfFlight(o: Options, r: Run, c: nat)
    requires Alone(o, r, c) && Last(r).calls[c].joined.Some?
    ensures FlightSpan(r, c, Last(r).calls[c].joined.value)
  {
    SpanOfCall(o, r, c);
    var f := Last(r).calls[c].joined.value;
    BornDuring(o, r, c, f);
    var a := After(r, c);
    RunIsSound(o, r, a);
    assert CallOk(o, r.states[a], Last(r).calls[c]);
    RunExtends(o, r, a, |r.states| - 1);
  }

  lemma BornDuring(o: Options, r: Run, c: nat, f: nat)
    requires Alone(o, r, c) && Last(r).calls[c].joined == Some(f)
    ensures Before(r, c) < |r.states| && |r.states[Before(r, c)].flights| <= f
  {
    SpanOfCall(o, r, c);
    Recall(o, r, c);
    QuietAround(o, r, c, Before(r, c));
    if f < |r.states[Before(r, c)].flights| {
      StillBefore(o, r, f, Before(r, c), Before(r, c), Last(r).calls[c].joinedAt + 1);
    }
  }

  /** What is in progress in a state lies between the two ends of the flight. */
  lemma WithinFlight(o: Options, r: Run, c: nat, f: nat, m: nat)
    requires IsRun(o, r) && c in Last(r).calls && Last(r).calls[c].pc.Answered?
    requires FlightSpan(r, c, f) && InProgress(r, f, m)
    ensures Before(r, c) < m < After(r, c)
  {
    if m <= Before(r, c) { RunExtends(o, r, m, Before(r, c)); }
    if After(r, c) <= m { RunExtends(o, r, After(r, c), m); }
  }

  /** The cache read that missed came before the flight, with nothing in progress. */
  lemma OuterMiss(o: Options, r: Run, c: nat) returns (m: nat)
    requires Alone(o, r, c) && Last(r).calls[c].joined.Some?
    ensures Before(r, c) < Last(r).calls[c].admitted < m < After(r, c) <= |r.actions| && r.actions[m] == ReadCache(c)
    ensures !Flying(r.states[m]) && !CacheHit(o, r.states[m])
    ensures forall k: nat | InProgress(r, Last(r).calls[c].joined.value, k) :: m < k
  {
    SpanOfCall(o, r, c);
    Recall(o, r, c);
    SpanOfFlight(o, r, c);
    var call := Last(r).calls[c];
    var f := call.joined.value;
    m := MissedOnTheWay(o, r, |r.states| - 1, c);
    WithinFlight(o, r, c, f, call.joinedAt + 1);
    BegunBefore(o, r, c, m);
    QuietAround(o, r, c, m);
    forall k: nat | InProgress(r, f, k) ensures m < k {
      if k <= m { StillBefore(o, r, f, k, m, call.joinedAt + 1); }
    }
  }

  lemma BegunBefore(o: Options, r: Run, c: nat, m: nat)
    requires IsRun(o, r) && m < |r.states| && c in r.states[m].calls && !r.states[m].calls[c].pc.Entered?
    ensures c in Last(r).calls && Last(r).calls[c].begun < Last(r).calls[c].admitted < m
  {
    RunRemembers(o, r, m);
    assert CallMemory(o, r.states, m, c, r.states[m].calls[c]);
    RunExtends(o, r, m, |r.states| - 1);
  }

  /** A flight in progress at k and later at n is so in between. */
  lemma StillBefore(o: Options, r: Run, f: nat, k: nat, m: nat, n: nat)
    requires IsRun(o, r) && k <= m <= n < |r.states| && f < |r.states[k].flights| && InProgress(r, f, n)
    ensures Flying(r.states[m])
  {
    RunExtends(o, r, k, m);
    RunExtends(o, r, m, n);
    RunIsSound(o, r, m);
    assert FlightOk(o, r.states[m], f);
  }

  /** Until the round of its flight begins a call that is alone finds what was held when it began. */
  lemma CacheUntil(o: Options, r: Run, c: nat, m: nat)
    requires Alone(o, r, c) && Before(r, c) <= m <= After(r, c)
    requires Published(r.states[m]) == |r.states[m].rounds| == |r.states[Before(r, c)].rounds|
    ensures CachedResult(r.states[m]) == CachedResult(r.states[Before(r, c)])
  {
    SpanOfCall(o, r, c);
    QuietAround(o, r, c, Before(r, c));
    SameCache(o, r, Before(r, c), m);
  }

  lemma RoundsBetween(o: Options, r: Run, i: nat, m: nat, k: nat)
    requires IsRun(o, r) && i <= m <= k < |r.states|
    ensures |r.states[i].rounds| <= |r.states[m].rounds| <= |r.states[k].rounds|
    ensures r.states[i].now <= r.states[m].now <= r.states[k].now
  {
    RunExtends(o, r, i, m);
    RunExtends(o, r, m, k);
  }

  lemma FlagsOfFlight(o: Options, r: Run, c: nat)
    requires Alone(o, r, c) && Last(r).calls[c].joined.Some?
    ensures Before(r, c) < |r.states| && !r.states[Before(r, c)].shuttingDown
    ensures !FlagSetAt(r, Last(r).calls[c].admitted)
    ensures r.states[After(r, c)].shuttingDown <==> Last(r).calls[c].pc.via.Gate?
  {
    SpanOfCall(o, r, c);
    Recall(o, r, c);
    var call := Last(r).calls[c];
    if r.states[Before(r, c)].shuttingDown { FlagIsOneWay(o, r, Before(r, c), call.admitted); }
    AnsweringChangesNothing(o, r, c);
    if call.pc.via.Gate? {
      FlagIsOneWay(o, r, call.gateAt, After(r, c));
    } else {
      GateAtIsTheLastRead(o, r, |r.states| - 1, c);
      assert ReadsGate(r, c, call.pc.answered);
    }
  }

  /** What a call that came back from a flight returns: the entry of the flight, or the shutdown over what is held. */
  lemma AnswerAfterFlight(o: Options, r: Run, c: nat)
    requires Alone(o, r, c) && Last(r).calls[c].joined.Some? && FlightSpan(r, c, Last(r).calls[c].joined.value)
    ensures var call := Last(r).calls[c];
            AnswerOf(r, c) ==
            if call.pc.via.Gate? then ShutdownResult(o, CachedResult(r.states[After(r, c)]), call.pc.answeredAt)
            else Last(r).flights[call.joined.value].phase.entry.result
  {
    Recall(o, r, c);
    AnsweringChangesNothing(o, r, c);
  }

  /** The flight the call joined found the cache fresh at h. */
  lemma HitRunsNoRound(o: Options, r: Run, c: nat, f: nat)
    requires Alone(o, r, c) && Last(r).calls[c].joined == Some(f) && FlightSpan(r, c, f)
    requires FromHit(Last(r).flights[f].phase)
    ensures |r.states[Before(r, c)].rounds| == |r.states[After(r, c)].rounds|
    ensures forall q | 0 <= q < |Last(r).rounds| :: Last(r).rounds[q].flight != f
  {
    RunKeepsHits(o, r, |r.states| - 1);
    RunExtends(o, r, Before(r, c), After(r, c));
    if |r.states[Before(r, c)].rounds| < |r.states[After(r, c)].rounds| {
      RoundsAreItsOwn(o, r, c, |r.states[Before(r, c)].rounds|);
    }
  }

  lemma NothingUnpublished(o: Options, r: Run, f: nat, m: nat)
    requires IsRun(o, r) && InProgress(r, f, m) && forall q | 0 <= q < |Last(r).rounds| :: Last(r).rounds[q].flight != f
    ensures Published(r.states[m]) == |r.states[m].rounds|
  {
    RunIsSound(o, r, m);
    assert FlightOk(o, r.states[m], f);
    RunExtends(o, r, m, |r.states| - 1);
    assert |r.states[m].rounds| > 0 ==> Last(r).rounds[|r.states[m].rounds| - 1].flight != f;
  }

  /** A hit of a flight would be on what was held when the call began. */
  lemma HitIsOnWhatWasHeld(o: Options, r: Run, c: nat, f: nat) returns (h: nat)
    requires Alone(o, r, c) && Last(r).calls[c].joined == Some(f) && FlightSpan(r, c, f)
    requires Last(r).flights[f].phase.source.FromCache?
    ensures Before(r, c) < h < After(r, c) && InProgress(r, f, h)
    ensures var cached := CachedResult(r.states[Before(r, c)]);
            cached.Some? && IsFresh(cached.value, r.states[h].now, o.ttl)
  {
    h := Last(r).flights[f].phase.source.seenAt;
    HitIsFresh(o, r, f);
    WithinFlight(o, r, c, f, h);
    HitRunsNoRound(o, r, c, f);
    NothingUnpublished(o, r, f, h);
    RoundsBetween(o, r, Before(r, c), h, After(r, c));
    CacheUntil(o, r, c, h);
  }

  /** What has expired before the flight has expired inside it: the flight of a call that is alone runs a round. */
  lemma LoneFlightsRunRounds(o: Options, r: Run, c: nat, f: nat)
    requires Alone(o, r, c) && Last(r).calls[c].joined == Some(f) && FlightSpan(r, c, f)
    ensures Last(r).flights[f].phase.source.FromRound?
  {
    if Last(r).flights[f].phase.source.FromCache? {
      var h := HitIsOnWhatWasHeld(o, r, c, f);
      var m := OuterMissSame(o, r, c);
      RunExtends(o, r, m, h);
    }
  }

  lemma HitIsFresh(o: Options, r: Run, f: nat)
    requires IsRun(o, r) && f < |Last(r).flights|
    requires Last(r).flights[f].phase.Landed? && Last(r).flights[f].phase.source.FromCache?
    ensures var h := Last(r).flights[f].phase.source.seenAt;
            InProgress(r, f, h) && FreshAt(o, r, Last(r).flights[f].phase.entry, h)
  {
    var n := |r.states| - 1;
    RunRemembers(o, r, n);
    assert FlightMemory(o, r.states, n, f, Last(r).flights[f]);
  }

  lemma QuietEnds(o: Options, r: Run, c: nat)
    requires Alone(o, r, c)
    ensures Before(r, c) < After(r, c) < |r.states| && !Flying(r.states[Before(r, c)]) && !Flying(r.states[After(r, c)])
  {
    SpanOfCall(o, r, c);
    QuietAround(o, r, c, Before(r, c));
    QuietAround(o, r, c, After(r, c));
  }

  /** The cache that was read before the flight held what was held when the call began. */
  lemma OuterMissSame(o: Options, r: Run, c: nat) returns (m: nat)
    requires Alone(o, r, c) && Last(r).calls[c].joined.Some?
    ensures Before(r, c) < Last(r).calls[c].admitted < m < After(r, c) <= |r.actions| && r.actions[m] == ReadCache(c)
    ensures r.states[Before(r, c)].now <= r.states[m].now
    ensures var cached := CachedResult(r.states[Before(r, c)]);
            cached.Some? ==> !IsFresh(cached.value, r.states[m].now, o.ttl)
    ensures forall k: nat | InProgress(r, Last(r).calls[c].joined.value, k) :: m < k
  {
    m := OuterMiss(o, r, c);
    var b := Before(r, c);
    RunExtends(o, r, b, m);
    if |r.states[b].rounds| < |r.states[m].rounds| {
      var q := |r.states[b].rounds|;
      RoundsBetween(o, r, b, m, After(r, c));
      RoundsAreItsOwn(o, r, c, q);
      RoundBegunBy(o, r, q, m);
    }
    CacheUntil(o, r, c, m);
  }

  /** A round there is at m began before, in a flight then in progress. */
  lemma RoundBegunBy(o: Options, r: Run, q: nat, m: nat)
    requires IsRun(o, r) && m < |r.states| && q < |r.states[m].rounds| && q < |Last(r).rounds|
    ensures Last(r).rounds[q].begun < m && InProgress(r, Last(r).rounds[q].flight, Last(r).rounds[q].begun)
  {
    RunExtends(o, r, m, |r.states| - 1);
    RoundsBeginMissed(o, r, q);
    RunRemembers(o, r, |r.states| - 1);
    var round := Last(r).rounds[q];
    assert RoundMemory(r.states, |r.states| - 1, q, round);
    if m <= round.begun { RunExtends(o, r, m, round.begun); }
  }

  /** Where a round began: its flight had missed, and it was the next. */
  lemma Beginning(o: Options, r: Run, q: nat) returns (m: nat)
    requires IsRun(o, r) && q < |Last(r).rounds|
    ensures m + 1 < |r.states| && InProgress(r, Last(r).rounds[q].flight, m)
    ensures r.states[m].flights[Last(r).rounds[q].flight].phase.Missed?
    ensures |r.states[m].rounds| == q && |r.states[m + 1].rounds| == q + 1
    ensures Last(r).rounds[q].startedAt == r.states[m].now
  {
    RoundsBeginMissed(o, r, q);
    RunRemembers(o, r, |r.states| - 1);
    var round := Last(r).rounds[q];
    assert RoundMemory(r.states, |r.states| - 1, q, round);
    m := round.begun;
  }

  lemma RoundOfFlight(o: Options, r: Run, f: nat) returns (q: nat)
    requires IsRun(o, r) && f < |Last(r).flights|
    requires Last(r).flights[f].phase.Landed? && Last(r).flights[f].phase.source.FromRound?
    ensures q < |Last(r).rounds| && IsRoundEntry(o, Last(r).rounds, Last(r).flights[f].phase.entry)
    ensures Last(r).flights[f].phase.entry.round == q && Last(r).rounds[q].flight == f
  {
    RunIsSound(o, r, |r.states| - 1);
    assert FlightOk(o, Last(r), f);
    q := Last(r).flights[f].phase.entry.round;
  }

  /** The flight of the call ran a round while the call was open, when the cache was stale or empty. */
  lemma ItsRound(o: Options, r: Run, c: nat, f: nat) returns (q: nat, m: nat)
    requires Alone(o, r, c) && Last(r).calls[c].joined == Some(f) && FlightSpan(r, c, f)
    requires Last(r).flights[f].phase.source.FromRound?
    ensures q < |Last(r).rounds| && IsRoundEntry(o, Last(r).rounds, Last(r).flights[f].phase.entry)
    ensures Last(r).flights[f].phase.entry.round == q && Last(r).rounds[q].flight == f
    ensures Before(r, c) < m < After(r, c) && InProgress(r, f, m) && r.states[m].flights[f].phase.Missed?
    ensures |r.states[Before(r, c)].rounds| <= q == |r.states[m].rounds| < |r.states[After(r, c)].rounds|
    ensures Last(r).rounds[q].startedAt == r.states[m].now
  {
    q := RoundOfFlight(o, r, f);
    m := Beginning(o, r, q);
    WithinFlight(o, r, c, f, m);
    RoundIsBetween(o, r, Before(r, c), q, m, After(r, c));
  }

  lemma RoundIsBetween(o: Options, r: Run, i: nat, q: nat, m: nat, k: nat)
    requires IsRun(o, r) && i <= m < k < |r.states| && |r.states[m].rounds| == q && |r.states[m + 1].rounds| == q + 1
    ensures |r.states[i].rounds| <= q < |r.states[k].rounds|
  {
    RoundsBetween(o, r, i, m, k);
    RoundsBetween(o, r, m, m + 1, k);
  }

  /** It is the only one. */
  lemma ItIsTheOnlyRound(o: Options, r: Run, c: nat, p: nat, q: nat)
    requires Alone(o, r, c) && Before(r, c) <= After(r, c) < |r.states|
    requires |r.states[Before(r, c)].rounds| <= p <= q < |r.states[After(r, c)].rounds|
    ensures p == q
  {
    RoundsAreItsOwn(o, r, c, p);
    RoundsAreItsOwn(o, r, c, q);
    RunIsSound(o, r, |r.states| - 1);
    if p < q {
      FlightsOfRoundsDiffer(o, Last(r), p, q);
    }
  }

  /** Where its flight read the cache again, and found it as stale or empty as it was when the call began. */
  lemma InnerMissSame(o: Options, r: Run, c: nat, f: nat, i: nat) returns (m: nat)
    requires Alone(o, r, c) && Last(r).calls[c].joined == Some(f) && FlightSpan(r, c, f)
    requires Before(r, c) < i < After(r, c) && InProgress(r, f, i) && r.states[i].flights[f].phase.Missed?
    requires |r.states[i].rounds| == |r.states[Before(r, c)].rounds|
    ensures Before(r, c) < m < i <= |r.actions| && r.actions[m] == Recheck && InProgress(r, f, m)
    ensures r.states[m].now <= r.states[i].now
    ensures var cached := CachedResult(r.states[Before(r, c)]);
            cached.Some? ==> !IsFresh(cached.value, r.states[m].now, o.ttl)
  {
    m := RecheckOf(o, r, i, f);
    WithinFlight(o, r, c, f, m);
    RoundsBetween(o, r, Before(r, c), m, i);
    CacheUntil(o, r, c, m);
  }

  lemma FlightRoundAlone(o: Options, r: Run, c: nat, f: nat) returns (e: Script, cache: nat, recheck: nat)
    requires Alone(o, r, c) && Last(r).calls[c].joined == Some(f) && FlightSpan(r, c, f)
    requires Last(r).flights[f].phase.source.FromRound?
    ensures Agrees(o, r, c, e) && IsItsScript(o, r, c, e, cache, recheck)
  {
    var b, a := Before(r, c), After(r, c);
    var q, i := ItsOnlyRound(o, r, c, f);
    recheck := InnerMissSame(o, r, c, f, i);
    cache := OuterMissSame(o, r, c);
    RunExtends(o, r, cache, recheck);
    var round := r.states[a].rounds[q];
    var flip := FlipMet(false, false, FlagSetAt(r, cache), FlagSetAt(r, a));
    e := Script(r.states[cache].now, r.states[recheck].now, Seen(round.checks), round.evaluatedAt.value,
                Last(r).calls[c].pc.answeredAt, flip);
    FlightScriptAgrees(o, r, c, f, q, e);
    GateOfCall(o, r, c);
    FlagsOfFlight(o, r, c);
    assert IsRoundOf(Last(r).rounds[q], f, e);
  }

  /** The flight of the call ran just one round, which had ended when the call was answered. */
  lemma ItsOnlyRound(o: Options, r: Run, c: nat, f: nat) returns (q: nat, i: nat)
    requires Alone(o, r, c) && Last(r).calls[c].joined == Some(f) && FlightSpan(r, c, f)
    requires Last(r).flights[f].phase.source.FromRound?
    ensures q == |r.states[Before(r, c)].rounds| == |r.states[After(r, c)].rounds| - 1
    ensures q < |Last(r).rounds| && Last(r).rounds[q] == r.states[After(r, c)].rounds[q]
    ensures var round := Last(r).rounds[q];
            && round.flight == f && RoundOk(o, round) && round.evaluatedAt.Some?
            && round.startedAt <= round.evaluatedAt.value <= r.states[After(r, c)].now
    ensures IsRoundEntry(o, Last(r).rounds, Last(r).flights[f].phase.entry)
    ensures Last(r).flights[f].phase.entry.round == q
    ensures Before(r, c) < i < After(r, c) && InProgress(r, f, i) && r.states[i].flights[f].phase.Missed?
    ensures |r.states[i].rounds| == q && Last(r).rounds[q].startedAt == r.states[i].now
  {
    q, i := ItsRound(o, r, c, f);
    ItIsTheOnlyRound(o, r, c, |r.states[Before(r, c)].rounds|, q);
    ItIsTheOnlyRound(o, r, c, q, |r.states[After(r, c)].rounds| - 1);
    QuietEnds(o, r, c);
    OneRoundLeaves(o, r, Before(r, c), After(r, c));
    RoundAsHeld(o, r, After(r, c), q);
  }

  /** The sequential Evaluate does with a script whose round is the only one what the run did. */
  lemma FlightScriptAgrees(o: Options, r: Run, c: nat, f: nat, q: nat, e: Script)
    requires Alone(o, r, c) && Last(r).calls[c].joined == Some(f) && FlightSpan(r, c, f)
    requires q == |r.states[Before(r, c)].rounds| == |r.states[After(r, c)].rounds| - 1
    requires q < |Last(r).rounds| && Last(r).rounds[q] == r.states[After(r, c)].rounds[q]
    requires RoundOk(o, Last(r).rounds[q]) && IsRoundOf(Last(r).rounds[q], f, e)
    requires IsRoundEntry(o, Last(r).rounds, Last(r).flights[f].phase.entry)
    requires Last(r).flights[f].phase.entry.round == q
    requires var cached := CachedResult(r.states[Before(r, c)]);
             cached.Some? ==> !IsFresh(cached.value, e.outer, o.ttl) && !IsFresh(cached.value, e.inner, o.ttl)
    requires r.states[Before(r, c)].now <= e.outer <= e.inner <= e.probedAt <= r.states[After(r, c)].now
    requires e.end == Last(r).calls[c].pc.answeredAt
    requires !e.flip.BeforeGate? && (e.flip.Never? <==> !r.states[After(r, c)].shuttingDown)
    ensures Agrees(o, r, c, e)
  {
    QuietEnds(o, r, c);
    OneRoundLeaves(o, r, Before(r, c), After(r, c));
    FlagsOfFlight(o, r, c);
    AnswerAfterFlight(o, r, c);
    AnsweringChangesNothing(o, r, c);
    TimesOfCall(o, r, c);
    RoundAsHeld(o, r, After(r, c), q);
  }

  lemma RoundAsHeld(o: Options, r: Run, k: nat, q: nat)
    requires IsRun(o, r) && k < |r.states| && q < |r.states[k].rounds| && r.states[k].rounds[q].evaluatedAt.Some?
    ensures q < |Last(r).rounds| && Last(r).rounds[q] == r.states[k].rounds[q]
    ensures var round := r.states[k].rounds[q];
            && round.startedAt <= round.evaluatedAt.value <= r.states[k].now
            && RoundOk(o, round)
            && ResultOf(o, round) ==
               RoundResult(o, StatusesOf(o.names, Seen(round.checks)), round.evaluatedAt.value)
  {
    RunIsSound(o, r, k);
    RunExtends(o, r, k, |r.states| - 1);
    assert RoundTimed(r.states[k], r.states[k].rounds[q]) && RoundOk(o, r.states[k].rounds[q]);
    SlotsAreSequential(o, r.states[k].rounds[q]);
  }

  /**
   Any call that meets no other leaves behind and returns what the sequential Evaluate does with the
   clock readings, the checks and the flag it met in the run.
   */
  lemma AloneIsSequential(o: Options, r: Run, c: nat) returns (e: Script, cache: nat, recheck: nat)
    requires Alone(o, r, c)
    ensures Agrees(o, r, c, e) && IsItsScript(o, r, c, e, cache, recheck)
  {
    var call := Last(r).calls[c];
    Recall(o, r, c);
    cache, recheck := 0, 0;
    if call.joined.Some? {
      SpanOfFlight(o, r, c);
      LoneFlightsRunRounds(o, r, c, call.joined.value);
      e, cache, recheck := FlightRoundAlone(o, r, c, call.joined.value);
    } else if call.pc.via.OuterCache? {
      cache := call.pc.answered;
      e := OuterHitAlone(o, r, c);
    } else {
      e := RefusedAlone(o, r, c);
    }
  }
}

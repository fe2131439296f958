/**
 Runs that count time only inside checks: the clock moves only while every goroutine is inside a
 check or waiting for one, and never past the deadline of a check that is still running.
 */
module ReadinessUrgent {
  import opened Prelude
  import opened Aggregate
  import opened Readiness
  import opened ReadinessCore
  import opened ReadinessLinks
  import opened ReadinessHistory
  import opened ReadinessTheorems
  import opened ReadinessTiming

  /** The call is over, or waits for a flight that has not landed. */
  ghost predicate AtRest(s: State, call: Call) {
    call.pc.Answered? || (call.pc.InFlight? && !HasLanded(s, call))
  }

  /** Nothing can move but checks that have been called and have not returned. */
  ghost predicate OnlyChecksRun(s: State) {
    && (forall c | c in s.calls :: AtRest(s, s.calls[c]))
    && (Flying(s) ==> ProbingNow(s) && !AllReturned(Newest(s).checks)
                      && forall i | 0 <= i < |Newest(s).checks| :: !Newest(s).checks[i].Unstarted?)
  }

  ghost predicate BeforeDeadlines(o: Options, checks: seq<Check>, t: Time) {
    forall i | 0 <= i < |checks| :: checks[i].Running? ==> t <= checks[i].since + o.timeout
  }

  ghost predicate Timely(o: Options, s: State, a: Action) {
    a.Tick? ==> OnlyChecksRun(s) && (ProbingNow(s) ==> BeforeDeadlines(o, Newest(s).checks, a.to))
  }

  ghost predicate IsTimelyRun(o: Options, r: Run) {
    IsRun(o, r) && forall k | 0 <= k < |r.actions| :: Timely(o, r.states[k], r.actions[k])
  }

  // ---- what timely actions keep ----

  /** Every check has returned by t, the last of them at t. */
  ghost predicate LastReturnsAt(round: Round, t: Time) {
    && AllReturned(round.checks)
    && (forall i | 0 <= i < |round.checks| :: round.checks[i].until <= t)
    && (if round.checks == [] then t == round.startedAt
        else exists i :: 0 <= i < |round.checks| && round.checks[i].until == t)
  }

  ghost predicate CheckPrompt(check: Check, start: Time, now: Time) {
    match check
    case Unstarted => now == start
    case Running(since) => since == start
    case Returned(since, until, _, _) => since == start && until <= now
  }

  ghost predicate ProbePrompt(o: Options, round: Round, now: Time) {
    && now <= round.startedAt + o.timeout
    && (forall i | 0 <= i < |round.checks| :: CheckPrompt(round.checks[i], round.startedAt, now))
    && (AllReturned(round.checks) ==> LastReturnsAt(round, now))
  }

  ghost predicate RoundPrompt(o: Options, round: Round) {
    round.evaluatedAt.Some? ==>
      && round.evaluatedAt.value <= round.startedAt + o.timeout
      && (forall i | 0 <= i < |round.checks| :: CheckPrompt(round.checks[i], round.startedAt, round.evaluatedAt.value))
      && LastReturnsAt(round, round.evaluatedAt.value)
  }

  ghost predicate StartedAt(rounds: seq<Round>, q: nat, t: Time) {
    q < |rounds| && rounds[q].startedAt == t
  }

  ghost predicate FlightPrompt(o: Options, s: State, flight: Flight) {
    match flight.phase
    case Rechecking => s.now == flight.bornAt
    case Missed => s.now == flight.bornAt
    case Probing => |s.rounds| > 0 && Newest(s).startedAt == flight.bornAt && ProbePrompt(o, Newest(s), s.now)
    case Folding(_, _) => |s.rounds| > 0 && Newest(s).startedAt == flight.bornAt && Newest(s).evaluatedAt == Some(s.now)
    case Settled(e, source) =>
      flight.bornAt <= s.now <= flight.bornAt + o.timeout
      && (if source.FromRound? then StartedAt(s.rounds, e.round, flight.bornAt) else s.now == flight.bornAt)
    case Landed(e, source, _, at) =>
      flight.bornAt <= at <= flight.bornAt + o.timeout
      && (if source.FromRound? then StartedAt(s.rounds, e.round, flight.bornAt) else at == flight.bornAt)
  }

  ghost predicate CallPrompt(o: Options, s: State, call: Call) {
    match call.pc
    case Answered(_, _, _, at) => call.begunAt <= at <= call.begunAt + o.timeout
    case InFlight =>
      && call.joined.Some? && call.joined.value < |s.flights|
      && s.flights[call.joined.value].bornAt <= call.begunAt <= s.now
      && (HasLanded(s, call) ==> s.now <= call.begunAt + o.timeout)
    case Got(_) => call.begunAt <= s.now <= call.begunAt + o.timeout
    case Refused => call.begunAt <= s.now <= call.begunAt + o.timeout
    case _ => s.now == call.begunAt
  }

  ghost predicate CallsPrompt(o: Options, s: State) {
    forall c | c in s.calls :: CallPrompt(o, s, s.calls[c])
  }

  ghost predicate Prompt(o: Options, s: State) {
    && RoundsPrompt(o, s.rounds)
    && (forall f | 0 <= f < |s.flights| :: FlightPrompt(o, s, s.flights[f]))
    && CallsPrompt(o, s)
  }

  /** While a flight is in progress, at most one Timeout has passed since it was born. */
  lemma FlightIsYoung(o: Options, s: State)
    requires 0 <= o.timeout && Prompt(o, s) && Sound(o, s) && Flying(s)
    ensures Current(s).bornAt <= s.now <= Current(s).bornAt + o.timeout
  {
    assert FlightPrompt(o, s, Current(s));
    if |s.rounds| > 0 {
      assert RoundTimed(s, Newest(s)) && RoundPrompt(o, Newest(s));
    }
  }

  lemma TickStaysPrompt(o: Options, s: State, to: Time)
    requires 0 <= o.timeout && Sound(o, s) && Prompt(o, s) && Enabled(o, s, Tick(to)) && Timely(o, s, Tick(to))
    ensures Prompt(o, Next(o, s, Tick(to)))
  {
    var s' := Next(o, s, Tick(to));
    forall f | 0 <= f < |s'.flights| ensures FlightPrompt(o, s', s'.flights[f]) {
      TickKeepsFlight(o, s, f, to);
    }
    forall c | c in s'.calls ensures CallPrompt(o, s', s'.calls[c]) {
      assert CallPrompt(o, s, s.calls[c]) && AtRest(s, s.calls[c]);
    }
  }

  lemma TickKeepsFlight(o: Options, s: State, f: nat, to: Time)
    requires f < |s.flights| && FlightPrompt(o, s, s.flights[f]) && FlightOk(o, s, f)
    requires s.now <= to && Timely(o, s, Tick(to))
    ensures FlightPrompt(o, Next(o, s, Tick(to)), s.flights[f])
  {
    if !s.flights[f].phase.Landed? {
      TickDuringProbe(o, Newest(s), s.now, to);
    }
  }

  lemma TickDuringProbe(o: Options, round: Round, now: Time, to: Time)
    requires ProbePrompt(o, round, now) && now <= to && BeforeDeadlines(o, round.checks, to)
    requires !AllReturned(round.checks) && forall i | 0 <= i < |round.checks| :: !round.checks[i].Unstarted?
    ensures ProbePrompt(o, round, to)
  {
    var i :| 0 <= i < |round.checks| && !round.checks[i].Returned?;
    assert CheckPrompt(round.checks[i], round.startedAt, now);
    forall j | 0 <= j < |round.checks| ensures CheckPrompt(round.checks[j], round.startedAt, to) {
      assert CheckPrompt(round.checks[j], round.startedAt, now);
    }
  }

  /** Actions of one call, at the current instant. */
  lemma CallStaysPrompt(o: Options, s: State, a: Action, c: nat)
    requires 0 <= o.timeout && Prompt(o, s) && Enabled(o, s, a)
    requires Mover(a) == Some(c) && !a.Join?
    ensures Prompt(o, Next(o, s, a))
  {
    var s' := Next(o, s, a);
    AsideLeavesRoundsAlone(o, s, a);
    forall f | 0 <= f < |s'.flights| ensures FlightPrompt(o, s', s'.flights[f]) {
      assert FlightPrompt(o, s, s.flights[f]);
    }
    forall d | d in s'.calls ensures CallPrompt(o, s', s'.calls[d]) {
      NoNewCall(o, s, a, d);
      assert CallPrompt(o, s, s.calls[d]);
      if d == c {
        MoverIsPrompt(o, s, a, c);
      } else {
        OthersStay(o, s, a, d);
      }
    }
  }

  lemma MoverIsPrompt(o: Options, s: State, a: Action, c: nat)
    requires 0 <= o.timeout && Enabled(o, s, a) && Mover(a) == Some(c) && !a.Join?
    requires CallPrompt(o, s, s.calls[c])
    ensures CallPrompt(o, Next(o, s, a), Next(o, s, a).calls[c])
  {}

  lemma NoNewCall(o: Options, s: State, a: Action, d: nat)
    requires Enabled(o, s, a) && !a.Enter? && d in Next(o, s, a).calls
    ensures d in s.calls
  {}

  lemma JoinStaysPrompt(o: Options, s: State, c: nat)
    requires 0 <= o.timeout && Sound(o, s) && Prompt(o, s) && Enabled(o, s, Join(c))
    ensures Prompt(o, Next(o, s, Join(c)))
  {
    var s' := Next(o, s, Join(c));
    JoinLeavesFlightsPrompt(o, s, c);
    forall d | d in s'.calls ensures CallPrompt(o, s', s'.calls[d]) {
      if d != c {
        OtherCallStaysPrompt(o, s, c, d);
      } else {
        JoinerIsPrompt(o, s, c);
      }
    }
  }

  lemma JoinLeavesFlightsPrompt(o: Options, s: State, c: nat)
    requires Prompt(o, s) && Enabled(o, s, Join(c))
    ensures var s' := Next(o, s, Join(c));
            && s'.rounds == s.rounds && (forall f | 0 <= f < |s'.flights| :: FlightPrompt(o, s', s'.flights[f]))
  {
    forall f | 0 <= f < |s.flights| ensures FlightPrompt(o, Next(o, s, Join(c)), s.flights[f]) {
      assert FlightPrompt(o, s, s.flights[f]);
    }
  }

  lemma JoinerIsPrompt(o: Options, s: State, c: nat)
    requires 0 <= o.timeout && Sound(o, s) && Prompt(o, s) && Enabled(o, s, Join(c))
    ensures CallPrompt(o, Next(o, s, Join(c)), Next(o, s, Join(c)).calls[c])
  {
    assert CallPrompt(o, s, s.calls[c]);
    if Flying(s) { FlightIsYoung(o, s); }
  }

  lemma OtherCallStaysPrompt(o: Options, s: State, c: nat, d: nat)
    requires Links(o, s) && Prompt(o, s) && Enabled(o, s, Join(c)) && d in s.calls && d != c
    ensures CallPrompt(o, Next(o, s, Join(c)), Next(o, s, Join(c)).calls[d])
  {
    assert CallPrompt(o, s, s.calls[d]) && CallOk(o, s, s.calls[d]);
  }

  /** Actions of the flight in progress leave its callers waiting, in time. */
  lemma CallersStayPrompt(o: Options, s: State, s': State)
    requires 0 <= o.timeout && Sound(o, s) && Prompt(o, s) && IsFlightStep(s, s')
    ensures CallsPrompt(o, s')
  {
    FlightIsYoung(o, s);
    forall c | c in s'.calls ensures CallPrompt(o, s', s'.calls[c]) {
      CallerStaysPrompt(o, s, s', c);
    }
  }

  lemma CallerStaysPrompt(o: Options, s: State, s': State, c: nat)
    requires Links(o, s) && CallsPrompt(o, s) && IsFlightStep(s, s') && c in s.calls
    requires Current(s).bornAt <= s.now <= Current(s).bornAt + o.timeout
    ensures CallPrompt(o, s', s'.calls[c])
  {
    assert CallPrompt(o, s, s.calls[c]);
    if s.calls[c].pc.InFlight? {
      assert FlightOk(o, s, s.calls[c].joined.value);
    }
  }

  lemma OldFlightsStayPrompt(o: Options, s: State, s': State)
    requires Links(o, s) && Prompt(o, s) && IsFlightStep(s, s')
    ensures forall f | 0 <= f < |s.flights| - 1 :: FlightPrompt(o, s', s'.flights[f])
  {
    forall f | 0 <= f < |s.flights| - 1 ensures FlightPrompt(o, s', s'.flights[f]) {
      assert FlightPrompt(o, s, s.flights[f]) && FlightOk(o, s, f);
    }
  }

  /** The flight in progress takes a step, at the same instant, and nobody joins or leaves it. */
  ghost predicate IsFlightStep(s: State, s': State) {
    && Flying(s) && s'.now == s.now && s'.calls == s.calls && |s'.flights| == |s.flights|
    && (forall f | 0 <= f < |s.flights| - 1 :: s'.flights[f] == s.flights[f])
    && Current(s').bornAt == Current(s).bornAt
    && RoundsExtend(s.rounds, s'.rounds)
  }

  ghost predicate RoundsPrompt(o: Options, rounds: seq<Round>) {
    forall q | 0 <= q < |rounds| :: RoundPrompt(o, rounds[q])
  }

  predicate IsFlightAction(a: Action) {
    a.Recheck? || a.StartRound? || a.StartCheck? || a.FinishCheck? || a.Collect? || a.Record? || a.Publish? || a.Land?
  }

  lemma FlightActionIsAStep(o: Options, s: State, a: Action)
    requires Core(o, s) && Enabled(o, s, a) && IsFlightAction(a)
    ensures IsFlightStep(s, Next(o, s, a))
  {
    StepExtendsRounds(o, s, a);
    FlightActionShape(o, s, a);
  }

  lemma FlightActionShape(o: Options, s: State, a: Action)
    requires Enabled(o, s, a) && IsFlightAction(a)
    ensures var s' := Next(o, s, a);
            && Flying(s) && s'.now == s.now && s'.calls == s.calls && |s'.flights| == |s.flights|
            && (forall f | 0 <= f < |s.flights| - 1 :: s'.flights[f] == s.flights[f])
            && Current(s').bornAt == Current(s).bornAt
  {}

  /** What the step has to show for the rest to follow: its rounds and its flight. */
  lemma FlightStaysPrompt(o: Options, s: State, s': State)
    requires 0 <= o.timeout && Sound(o, s) && Prompt(o, s) && IsFlightStep(s, s')
    requires RoundsPrompt(o, s'.rounds) && FlightPrompt(o, s', Current(s'))
    ensures Prompt(o, s')
  {
    CallersStayPrompt(o, s, s');
    OldFlightsStayPrompt(o, s, s');
    PromptFromParts(o, s');
  }

  lemma PromptFromParts(o: Options, s: State)
    requires |s.flights| > 0 && CallsPrompt(o, s) && FlightPrompt(o, s, Current(s)) && RoundsPrompt(o, s.rounds)
    requires forall f | 0 <= f < |s.flights| - 1 :: FlightPrompt(o, s, s.flights[f])
    ensures Prompt(o, s)
  {
    forall f | 0 <= f < |s.flights| ensures FlightPrompt(o, s, s.flights[f]) {
      if f == |s.flights| - 1 {
        assert s.flights[f] == Current(s);
      }
    }
  }

  lemma PhaseStepStaysPrompt(o: Options, s: State, a: Action)
    requires 0 <= o.timeout && Sound(o, s) && Prompt(o, s) && Enabled(o, s, a)
    requires a.Recheck? || a.Record? || a.Publish? || a.Land?
    ensures Prompt(o, Next(o, s, a))
  {
    FlightActionIsAStep(o, s, a);
    FlightIsYoung(o, s);
    assert FlightPrompt(o, s, Current(s));
    NewPhaseIsPrompt(o, s, a);
    FlightStaysPrompt(o, s, Next(o, s, a));
  }

  lemma NewPhaseIsPrompt(o: Options, s: State, a: Action)
    requires 0 <= o.timeout && Flying(s) && FlightPrompt(o, s, Current(s)) && Enabled(o, s, a)
    requires Current(s).bornAt <= s.now <= Current(s).bornAt + o.timeout
    requires a.Recheck? || a.Record? || a.Publish? || a.Land?
    ensures FlightPrompt(o, Next(o, s, a), Current(Next(o, s, a))) && Next(o, s, a).rounds == s.rounds
  {}

  lemma StartRoundStaysPrompt(o: Options, s: State)
    requires 0 <= o.timeout && Sound(o, s) && Prompt(o, s) && Enabled(o, s, StartRound)
    ensures Prompt(o, Next(o, s, StartRound))
  {
    var s' := Next(o, s, StartRound);
    FlightActionIsAStep(o, s, StartRound);
    assert FlightPrompt(o, s, Current(s));
    NewRoundIsPrompt(o, s);
    assert s'.rounds[..|s.rounds|] == s.rounds;
    NewestIsPromptToo(o, s.rounds, s'.rounds);
    FlightStaysPrompt(o, s, s');
  }

  lemma NewRoundIsPrompt(o: Options, s: State)
    requires 0 <= o.timeout && Enabled(o, s, StartRound) && FlightPrompt(o, s, Current(s))
    ensures var s' := Next(o, s, StartRound);
            && FlightPrompt(o, s', Current(s'))
            && |s'.rounds| == |s.rounds| + 1 && s.rounds <= s'.rounds && Newest(s').evaluatedAt.None?
  {
    UnstartedIsPrompt(o, Newest(Next(o, s, StartRound)));
  }

  lemma NewestIsPromptToo(o: Options, rounds: seq<Round>, rounds': seq<Round>)
    requires RoundsPrompt(o, rounds) && 0 < |rounds'| <= |rounds| + 1
    requires rounds'[..|rounds'| - 1] == rounds[..|rounds'| - 1] && RoundPrompt(o, rounds'[|rounds'| - 1])
    ensures RoundsPrompt(o, rounds')
  {
    forall q | 0 <= q < |rounds'| ensures RoundPrompt(o, rounds'[q]) {
      if q < |rounds'| - 1 {
        assert rounds'[q] == rounds'[..|rounds'| - 1][q] == rounds[q];
      }
    }
  }

  lemma UnstartedIsPrompt(o: Options, round: Round)
    requires 0 <= o.timeout && forall i | 0 <= i < |round.checks| :: round.checks[i].Unstarted?
    ensures ProbePrompt(o, round, round.startedAt)
  {
    if round.checks != [] {
      assert round.checks[0].Unstarted?;
    }
  }

  lemma CheckStepStaysPrompt(o: Options, s: State, a: Action, i: nat)
    requires 0 <= o.timeout && Sound(o, s) && Prompt(o, s) && Enabled(o, s, a)
    requires a == StartCheck(i) || (a.FinishCheck? && a.i == i)
    ensures Prompt(o, Next(o, s, a))
  {
    var s' := Next(o, s, a);
    FlightActionIsAStep(o, s, a);
    assert FlightPrompt(o, s, Current(s));
    CheckStepIsPrompt(o, s, a, i);
    NewestIsPromptToo(o, s.rounds, s'.rounds);
    FlightStaysPrompt(o, s, s');
  }

  lemma CheckStepIsPrompt(o: Options, s: State, a: Action, i: nat)
    requires Enabled(o, s, a) && (a == StartCheck(i) || (a.FinishCheck? && a.i == i))
    requires FlightPrompt(o, s, Current(s)) && Newest(s).evaluatedAt.None?
    ensures var s' := Next(o, s, a);
            && FlightPrompt(o, s', Current(s')) && 0 < |s'.rounds| == |s.rounds|
            && s'.rounds[..|s.rounds| - 1] == s.rounds[..|s.rounds| - 1] && Newest(s').evaluatedAt.None?
  {
    var s' := Next(o, s, a);
    assert CheckPrompt(Newest(s).checks[i], Newest(s).startedAt, s.now);
    SlotStaysPrompt(o, Newest(s), Newest(s'), i, s.now);
  }

  lemma SlotStaysPrompt(o: Options, round: Round, round': Round, i: nat, now: Time)
    requires ProbePrompt(o, round, now) && i < |round.checks|
    requires |round'.checks| == |round.checks|
    requires round' == round.(checks := round'.checks) && round'.checks == round.checks[i := round'.checks[i]]
    requires CheckPrompt(round'.checks[i], round.startedAt, now)
    requires round'.checks[i].Returned? ==> round'.checks[i].until == now
    ensures ProbePrompt(o, round', now)
  {
    forall j | 0 <= j < |round'.checks| ensures CheckPrompt(round'.checks[j], round.startedAt, now) {
      assert CheckPrompt(round.checks[j], round.startedAt, now);
    }
    if AllReturned(round'.checks) {
      forall j | 0 <= j < |round'.checks| ensures round'.checks[j].until <= now {
        assert CheckPrompt(round'.checks[j], round.startedAt, now);
      }
    }
  }

  lemma CollectStaysPrompt(o: Options, s: State)
    requires 0 <= o.timeout && Sound(o, s) && Prompt(o, s) && Enabled(o, s, Collect)
    ensures Prompt(o, Next(o, s, Collect))
  {
    var s' := Next(o, s, Collect);
    FlightActionIsAStep(o, s, Collect);
    assert FlightPrompt(o, s, Current(s));
    CollectedIsPrompt(o, s);
    NewestIsPromptToo(o, s.rounds, s'.rounds);
    FlightStaysPrompt(o, s, s');
  }

  lemma CollectedIsPrompt(o: Options, s: State)
    requires Enabled(o, s, Collect) && FlightPrompt(o, s, Current(s))
    ensures var s' := Next(o, s, Collect);
            && FlightPrompt(o, s', Current(s')) && 0 < |s'.rounds| == |s.rounds|
            && s'.rounds[..|s.rounds| - 1] == s.rounds[..|s.rounds| - 1] && RoundPrompt(o, Newest(s'))
  {
    assert Newest(Next(o, s, Collect)).checks == Newest(s).checks;
  }

  lemma AsideStaysPrompt(o: Options, s: State, a: Action)
    requires Prompt(o, s) && Enabled(o, s, a) && (a.BeginShutdown? || a.Enter?) && 0 <= o.timeout
    ensures Prompt(o, Next(o, s, a))
  {
    var s' := Next(o, s, a);
    forall f | 0 <= f < |s'.flights| ensures FlightPrompt(o, s', s'.flights[f]) {
      assert FlightPrompt(o, s, s.flights[f]);
    }
    forall d | d in s'.calls ensures CallPrompt(o, s', s'.calls[d]) {
      if d in s.calls {
        OthersStay(o, s, a, d);
        assert CallPrompt(o, s, s.calls[d]);
      }
    }
  }

  lemma PromptKept(o: Options, s: State, a: Action)
    requires 0 <= o.timeout && Sound(o, s) && Prompt(o, s) && Enabled(o, s, a) && Timely(o, s, a)
    ensures Prompt(o, Next(o, s, a))
  {
    if Mover(a).Some? && !a.Join? {
      CallStaysPrompt(o, s, a, Mover(a).value);
    } else {
      match a
      case Tick(to) => TickStaysPrompt(o, s, to);
      case BeginShutdown => AsideStaysPrompt(o, s, a);
      case Enter(_) => AsideStaysPrompt(o, s, a);
      case Join(c) => JoinStaysPrompt(o, s, c);
      case StartCheck(i) => CheckStepStaysPrompt(o, s, a, i);
      case FinishCheck(i, _) => CheckStepStaysPrompt(o, s, a, i);
      case Collect => CollectStaysPrompt(o, s);
      case StartRound => StartRoundStaysPrompt(o, s);
      case _ => PhaseStepStaysPrompt(o, s, a);
    }
  }

  lemma {:induction false} TimelyRunIsPrompt(o: Options, r: Run, k: nat)
    requires 0 <= o.timeout && IsTimelyRun(o, r) && k < |r.states|
    ensures Prompt(o, r.states[k])
    decreases k
  {
    if k > 0 {
      TimelyRunIsPrompt(o, r, k - 1);
      TimelyStep(o, r, k - 1);
    }
  }

  lemma TimelyStep(o: Options, r: Run, k: nat)
    requires 0 <= o.timeout && IsTimelyRun(o, r) && k + 1 < |r.states| && Prompt(o, r.states[k])
    ensures Prompt(o, r.states[k + 1])
  {
    RunIsSound(o, r, k);
    assert Took(o, r, k) && Timely(o, r.states[k], r.actions[k]);
    PromptKept(o, r.states[k], r.actions[k]);
  }

  // ---- what follows ----

  /** Counting time only in checks, every call returns within one Timeout. */
  lemma CallsReturnWithinOneTimeout(o: Options, r: Run, c: nat)
    requires 0 <= o.timeout && IsTimelyRun(o, r) && AnsweredIn(o, r, c)
    ensures var call := Last(r).calls[c]; call.begunAt <= call.pc.answeredAt <= call.begunAt + o.timeout
  {
    TimelyRunIsPrompt(o, r, |r.states| - 1);
    assert CallPrompt(o, Last(r), Last(r).calls[c]);
  }

  /** Nor has a call that is still open been open for longer. */
  lemma OpenCallsAreInTime(o: Options, r: Run, c: nat)
    requires 0 <= o.timeout && IsTimelyRun(o, r) && c in Last(r).calls && !Last(r).calls[c].pc.Answered?
    ensures Last(r).calls[c].begunAt <= Last(r).now <= Last(r).calls[c].begunAt + o.timeout
  {
    TimelyRunIsPrompt(o, r, |r.states| - 1);
    RunIsSound(o, r, |r.states| - 1);
    var call := Last(r).calls[c];
    assert CallPrompt(o, Last(r), call);
    if call.pc.InFlight? && !HasLanded(Last(r), call) {
      WaitersAreInTime(o, Last(r), call);
    }
  }

  lemma WaitersAreInTime(o: Options, s: State, call: Call)
    requires 0 <= o.timeout && Sound(o, s) && Prompt(o, s) && CallPrompt(o, s, call)
    requires call.pc.InFlight? && !HasLanded(s, call)
    ensures call.begunAt <= s.now <= call.begunAt + o.timeout
  {
    assert FlightOk(o, s, call.joined.value);
    FlightIsYoung(o, s);
  }

  /** A round lasts as long as its longest check, not as long as all of them together. */
  lemma RoundsTakeTheirLongestCheck(o: Options, r: Run, q: nat)
    requires 0 <= o.timeout && IsTimelyRun(o, r) && q < |Last(r).rounds| && Last(r).rounds[q].evaluatedAt.Some?
    ensures var round := Last(r).rounds[q];
            var took := round.evaluatedAt.value - round.startedAt;
            && AllReturned(round.checks)
            && took <= o.timeout
            && (forall i | 0 <= i < |round.checks| :: round.checks[i].until - round.checks[i].since <= took)
            && (if round.checks == [] then took == 0
                else exists i :: 0 <= i < |round.checks| && round.checks[i].until - round.checks[i].since == took)
  {
    TimelyRunIsPrompt(o, r, |r.states| - 1);
    var round := Last(r).rounds[q];
    assert RoundPrompt(o, round);
    assert forall i | 0 <= i < |round.checks| :: CheckPrompt(round.checks[i], round.startedAt, round.evaluatedAt.value);
    if round.checks != [] {
      var i :| 0 <= i < |round.checks| && round.checks[i].until == round.evaluatedAt.value;
      assert CheckPrompt(round.checks[i], round.startedAt, round.evaluatedAt.value);
    }
  }

  lemma TimelyRunsHaveNoLag(o: Options, r: Run)
    requires 0 <= o.timeout && IsTimelyRun(o, r)
    ensures LagIsAtMost(o, r, 0)
  {
    var n := |r.states| - 1;
    TimelyRunIsPrompt(o, r, n);
    RunRemembers(o, r, n);
    forall q | 0 <= q < |Last(r).rounds| ensures RoundInTime(o, Last(r).rounds[q], 0) {
      assert RoundPrompt(o, Last(r).rounds[q]);
    }
    forall f | 0 <= f < |Last(r).flights| ensures FlightInTime(o, r, Last(r).flights[f], 0) {
      var flight := Last(r).flights[f];
      assert FlightPrompt(o, Last(r), flight) && FlightMemory(o, r.states, n, f, flight);
      if flight.phase.Landed? && flight.phase.source.FromCache? {
        RunExtends(o, r, flight.born, flight.phase.source.seenAt);
      }
    }
  }

  /** Recovery, counting time only in checks: the delay without a lag, under two Timeouts when TTL < Timeout. */
  lemma RecoveryTakesUnderTwoTimeouts(o: Options, r: Run, c: nat, healedAt: Time)
    requires IsTimelyRun(o, r) && AnsweredIn(o, r, c) && !AnswerOf(r, c).shuttingDown
    requires 0 <= o.timeout && 0 <= o.ttl && HealthyFrom(Last(r), healedAt)
    requires || healedAt + RecoveryDelay(o.timeout, o.ttl, 0) < Last(r).calls[c].begunAt
             || (o.ttl < o.timeout && healedAt + 2 * o.timeout <= Last(r).calls[c].begunAt)
    ensures AnswerOf(r, c).status == Ready
  {
    TimelyRunsHaveNoLag(o, r);
    RecoveryIsBounded(o, r, c, healedAt, 0);
  }
}

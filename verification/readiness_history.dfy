/** What the records of a run say about its earlier states, for every run. */
module ReadinessHistory {
  import opened Prelude
  import opened Aggregate
  import opened Readiness
  import opened ReadinessCore
  import opened ReadinessLinks

  // ---- when rounds happen ----

  ghost predicate RoundTimed(s: State, r: Round) {
    && r.startedAt <= s.now && r.flight < |s.flights|
    && (r.evaluatedAt.Some? ==> r.startedAt <= r.evaluatedAt.value <= s.now)
    && forall i | 0 <= i < |r.checks| :: CheckTimed(r, r.checks[i], s.now)
  }

  ghost predicate CheckTimed(r: Round, check: Check, now: Time) {
    match check
    case Unstarted => true
    case Running(since) => r.startedAt <= since <= now
    case Returned(since, until, _, _) => r.startedAt <= since <= until <= now
  }

  /** Round q waited for round r, and for the cached result to expire. */
  ghost predicate Spaced(o: Options, r: Round, q: Round) {
    && r.evaluatedAt.Some?
    && r.evaluatedAt.value + o.ttl <= q.startedAt
    && r.flight < q.flight
  }

  ghost predicate FollowsLast(o: Options, rounds: seq<Round>, r: int) {
    0 < r < |rounds| && Spaced(o, rounds[r - 1], rounds[r])
  }

  ghost predicate Spacing(o: Options, s: State) {
    && (forall r | 0 <= r < |s.rounds| :: RoundTimed(s, s.rounds[r]))
    && (forall r | 0 < r < |s.rounds| :: FollowsLast(o, s.rounds, r))
    && (Flying(s) && Current(s).phase.Missed? ==> !CacheHit(o, s))
    && (Flying(s) && (Current(s).phase.Missed? || Current(s).phase.Rechecking?) && |s.rounds| > 0 ==>
          Newest(s).flight < |s.flights| - 1)
  }

  lemma StartRoundKeepsSpacing(o: Options, s: State)
    requires Core(o, s) && Spacing(o, s) && Enabled(o, s, StartRound)
    ensures Spacing(o, Next(o, s, StartRound))
  {
    var s' := Next(o, s, StartRound);
    StartRoundShape(o, s);
    forall r | 0 <= r < |s'.rounds| ensures RoundTimed(s', s'.rounds[r]) {
      if r < |s.rounds| { assert RoundTimed(s, s.rounds[r]); }
    }
    forall r | 0 < r < |s'.rounds| ensures FollowsLast(o, s'.rounds, r) {
      if r < |s.rounds| { assert FollowsLast(o, s.rounds, r); }
    }
  }

  /** The new round waited for the one before to expire in the cache. */
  lemma StartRoundShape(o: Options, s: State)
    requires Core(o, s) && Spacing(o, s) && Enabled(o, s, StartRound)
    ensures var s' := Next(o, s, StartRound);
            && s'.now == s.now && |s'.flights| == |s.flights| && Current(s').phase.Probing?
            && |s'.rounds| == |s.rounds| + 1 && s.rounds <= s'.rounds
            && RoundTimed(s', Newest(s')) && (|s.rounds| > 0 ==> Spaced(o, Newest(s), Newest(s')))
  {}

  lemma CollectKeepsSpacing(o: Options, s: State)
    requires Core(o, s) && Spacing(o, s) && Enabled(o, s, Collect)
    ensures Spacing(o, Next(o, s, Collect))
  {
    StepExtendsRounds(o, s, Collect);
    StillFollows(o, s, Next(o, s, Collect));
  }

  /** Rounds that have been evaluated stay as they are, and with them the distance of the next. */
  lemma StillFollows(o: Options, s: State, s': State)
    requires Spacing(o, s) && RoundsExtend(s.rounds, s'.rounds) && |s'.rounds| == |s.rounds|
    ensures forall r | 0 < r < |s'.rounds| :: FollowsLast(o, s'.rounds, r)
  {
    forall r | 0 < r < |s'.rounds| ensures FollowsLast(o, s'.rounds, r) {
      assert FollowsLast(o, s.rounds, r);
    }
  }

  lemma JoinKeepsSpacing(o: Options, s: State, c: nat)
    requires Core(o, s) && Spacing(o, s) && Enabled(o, s, Join(c))
    ensures Spacing(o, Next(o, s, Join(c)))
  {}

  lemma PublishKeepsSpacing(o: Options, s: State)
    requires Core(o, s) && Spacing(o, s) && Enabled(o, s, Publish)
    ensures Spacing(o, Next(o, s, Publish))
  {}

  lemma SpacingFrame(o: Options, s: State, s': State)
    requires Spacing(o, s)
    requires s'.rounds == s.rounds && s'.flights == s.flights && s'.cached == s.cached && s.now <= s'.now
    ensures Spacing(o, s')
  {}

  lemma CheckActionKeepsSpacing(o: Options, s: State, a: Action, i: nat)
    requires Core(o, s) && Spacing(o, s) && Enabled(o, s, a) && (a == StartCheck(i) || (a.FinishCheck? && a.i == i))
    ensures Spacing(o, Next(o, s, a))
  {
    var s' := Next(o, s, a);
    assert RoundTimed(s, Newest(s));
    assert CheckTimed(Newest(s), Newest(s).checks[i], s.now);
    StepExtendsRounds(o, s, a);
    StillFollows(o, s, s');
  }

  lemma PhaseActionKeepsSpacing(o: Options, s: State, a: Action)
    requires Spacing(o, s) && Enabled(o, s, a) && (a.Recheck? || a.Record? || a.Land?)
    ensures Spacing(o, Next(o, s, a))
  {
    var p := Current(Next(o, s, a)).phase;
    SpacingFrame(o, SetPhase(s, p), Next(o, s, a));
  }

  lemma SpacingKept(o: Options, s: State, a: Action)
    requires Core(o, s) && Spacing(o, s) && Enabled(o, s, a)
    ensures Spacing(o, Next(o, s, a))
  {
    if Aside(a) {
      AsideLeavesRoundsAlone(o, s, a);
      SpacingFrame(o, s, Next(o, s, a));
    } else {
      match a
      case Join(c) => JoinKeepsSpacing(o, s, c);
      case StartRound => StartRoundKeepsSpacing(o, s);
      case StartCheck(i) => CheckActionKeepsSpacing(o, s, a, i);
      case FinishCheck(i, _) => CheckActionKeepsSpacing(o, s, a, i);
      case Collect => CollectKeepsSpacing(o, s);
      case Publish => PublishKeepsSpacing(o, s);
      case _ => PhaseActionKeepsSpacing(o, s, a);
    }
  }

  // ---- runs ----

  ghost predicate Sound(o: Options, s: State) {
    Core(o, s) && Links(o, s) && Spacing(o, s)
  }

  lemma {:induction false} RunIsSound(o: Options, r: Run, k: nat)
    requires IsRun(o, r) && k < |r.states|
    ensures Sound(o, r.states[k]) && r.states[k].step == k
    decreases k
  {
    if k > 0 {
      RunIsSound(o, r, k - 1);
      assert Took(o, r, k - 1);
      var s, a := r.states[k - 1], r.actions[k - 1];
      CoreKept(o, s, a);
      LinksKept(o, s, a);
      SpacingKept(o, s, a);
    }
  }

  ghost predicate GrowsAt(states: seq<State>, k: nat) {
    k + 1 < |states| && Extends(states[k], states[k + 1])
  }

  lemma {:induction false} ChainExtends(states: seq<State>, i: nat, k: nat)
    requires i <= k < |states|
    requires forall j | i <= j < k :: GrowsAt(states, j)
    ensures Extends(states[i], states[k])
    decreases k
  {
    if i < k {
      ChainExtends(states, i, k - 1);
      assert GrowsAt(states, k - 1);
    }
  }

  lemma RunStepExtends(o: Options, r: Run, k: nat)
    requires IsRun(o, r) && k + 1 < |r.states|
    ensures GrowsAt(r.states, k)
  {
    RunIsSound(o, r, k);
    assert Took(o, r, k);
    StepExtends(o, r.states[k], r.actions[k]);
  }

  /** Along every run the clock and the flag only move forward and history only grows. */
  lemma RunExtends(o: Options, r: Run, i: nat, k: nat)
    requires IsRun(o, r) && i <= k < |r.states|
    ensures Extends(r.states[i], r.states[k])
  {
    forall j: nat | i <= j < k ensures GrowsAt(r.states, j) {
      RunStepExtends(o, r, j);
    }
    ChainExtends(r.states, i, k);
  }

  // ---- what a record remembers ----

  /** The flag at the last gate read of the call, a moment inside it, was `closed`. */
  ghost predicate GateSeen(states: seq<State>, k: nat, call: Call, closed: bool)
    requires k < |states|
  {
    call.begun < call.gateAt < k && states[call.gateAt].shuttingDown == closed
  }

  ghost predicate CallMemory(o: Options, states: seq<State>, k: nat, c: nat, call: Call)
    requires k < |states|
  {
    && call.begun < k && c !in states[call.begun].calls && call.begunAt == states[call.begun].now
    && (call.joined.Some? ==> JoinSeen(states, k, call))
    && (!call.pc.Entered? ==> OpenSeen(states, k, c, call))
    && (call.joined.Some? && (call.pc.Refused? || call.pc.Answered?) ==>
          call.gateAt < k && HasLanded(states[call.gateAt], call))
    && match call.pc
       case Entered => true
       case Refused => GateSeen(states, k, call, true)
       case Answered(result, via, at, answeredAt) =>
         && GateSeen(states, k, call, result.shuttingDown)
         && call.gateAt <= at < k && answeredAt == states[at].now
         && (call.joined.Some? ==> call.joinedAt < at)
         && (match via
             case OuterCache(q) => states[at].cached == Some(Entry(result, q)) && CacheHit(o, states[at])
             case SharedFlight(_) => true
             case Gate => result == ShutdownResult(o, CachedResult(states[at]), answeredAt))
       case _ => GateSeen(states, k, call, false)
  }

  ghost predicate OpenSeen(states: seq<State>, k: nat, c: nat, call: Call)
    requires k < |states|
  {
    && call.begun < call.admitted < k
    && c in states[call.admitted + 1].calls && !states[call.admitted + 1].calls[c].pc.Entered?
    && (states[call.admitted].shuttingDown ==> call.joined.None?)
    && (call.pc.PastGate? || call.pc.AtFlight? ==> !states[call.admitted].shuttingDown)
  }

  /** The flight the call joined was in progress at a moment inside the call. */
  ghost predicate JoinSeen(states: seq<State>, k: nat, call: Call)
    requires k < |states| && call.joined.Some?
  {
    && call.begun < call.admitted < call.joinedAt < k
    && !states[call.admitted].shuttingDown
    && call.joined.value < |states[call.joinedAt + 1].flights|
    && !states[call.joinedAt + 1].flights[call.joined.value].phase.Landed?
  }

  ghost predicate FlightMemory(o: Options, states: seq<State>, k: nat, f: nat, flight: Flight)
    requires k < |states|
  {
    && flight.born < k && flight.bornAt == states[flight.born].now
    && (flight.phase.Landed? ==> LandingSeen(states, k, f, flight))
    && (flight.phase.Settled? || flight.phase.Landed? ==>
          match flight.phase.source
          case FromRound => true
          case FromCache(h) =>
            && flight.born < h < k
            && f < |states[h].flights| && !states[h].flights[f].phase.Landed?
            && states[h].cached == Some(flight.phase.entry) && CacheHit(o, states[h]))
  }

  ghost predicate LandingSeen(states: seq<State>, k: nat, f: nat, flight: Flight)
    requires k < |states| && flight.phase.Landed?
  {
    && flight.phase.landed < k && flight.phase.at == states[flight.phase.landed].now
    && f < |states[flight.phase.landed + 1].flights| && states[flight.phase.landed + 1].flights[f].phase.Landed?
  }

  ghost predicate RoundMemory(states: seq<State>, k: nat, q: nat, round: Round)
    requires k < |states|
  {
    && round.begun < k && round.startedAt == states[round.begun].now
    && |states[round.begun].rounds| == q && |states[round.begun + 1].rounds| == q + 1
    && round.flight < |states[round.begun].flights| && !states[round.begun].flights[round.flight].phase.Landed?
  }

  ghost predicate Memory(o: Options, states: seq<State>, k: nat)
    requires k < |states|
  {
    var s := states[k];
    && (forall c | c in s.calls :: CallMemory(o, states, k, c, s.calls[c]))
    && FlightsRemember(o, states, k)
    && RoundsRemember(states, k)
  }

  ghost predicate FlightsRemember(o: Options, states: seq<State>, k: nat)
    requires k < |states|
  {
    forall f | 0 <= f < |states[k].flights| :: FlightMemory(o, states, k, f, states[k].flights[f])
  }

  ghost predicate RoundsRemember(states: seq<State>, k: nat)
    requires k < |states|
  {
    forall q | 0 <= q < |states[k].rounds| :: RoundMemory(states, k, q, states[k].rounds[q])
  }

  /** What a step of the run records, it records about the state it is taken in. */
  ghost predicate IsStep(o: Options, states: seq<State>, k: nat, a: Action) {
    && k + 1 < |states| && states[k].step == k
    && Links(o, states[k]) && Enabled(o, states[k], a) && states[k + 1] == Next(o, states[k], a)
  }

  lemma GateReadIsRemembered(o: Options, states: seq<State>, k: nat, a: Action, c: nat)
    requires IsStep(o, states, k, a) && (a == ReadGate(c) || a == ReadGateAgain(c))
    requires CallMemory(o, states, k, c, states[k].calls[c])
    ensures CallMemory(o, states, k + 1, c, states[k + 1].calls[c])
  {
    assert CallOk(o, states[k], states[k].calls[c]);
    var call := states[k + 1].calls[c];
    assert GateSeen(states, k + 1, call, states[k].shuttingDown);
    if a == ReadGateAgain(c) {
      var f := call.joined.value;
      assert FlightOk(o, states[k], f);
      assert !states[k].flights[f].phase.entry.result.shuttingDown;
    }
  }

  lemma JoinIsRemembered(o: Options, states: seq<State>, k: nat, c: nat)
    requires IsStep(o, states, k, Join(c))
    requires CallMemory(o, states, k, c, states[k].calls[c])
    ensures CallMemory(o, states, k + 1, c, states[k + 1].calls[c])
  {
    var call := states[k + 1].calls[c];
    assert GateSeen(states, k, states[k].calls[c], false);
    assert JoinSeen(states, k + 1, call);
  }

  lemma CacheAnswerIsRemembered(o: Options, states: seq<State>, k: nat, c: nat)
    requires IsStep(o, states, k, ReadCache(c)) && CacheInv(o, states[k])
    requires CallMemory(o, states, k, c, states[k].calls[c])
    ensures CallMemory(o, states, k + 1, c, states[k + 1].calls[c])
  {
    assert CallOk(o, states[k], states[k].calls[c]);
    assert GateSeen(states, k, states[k].calls[c], false);
  }

  lemma RefusalIsRemembered(o: Options, states: seq<State>, k: nat, c: nat)
    requires IsStep(o, states, k, Refuse(c))
    requires CallMemory(o, states, k, c, states[k].calls[c])
    ensures CallMemory(o, states, k + 1, c, states[k + 1].calls[c])
  {
    var was := states[k].calls[c];
    assert GateSeen(states, k, was, true);
    assert was.joined.Some? ==> JoinSeen(states, k, was);
  }

  lemma LeaveIsRemembered(o: Options, states: seq<State>, k: nat, c: nat)
    requires IsStep(o, states, k, Leave(c))
    requires CallMemory(o, states, k, c, states[k].calls[c])
    ensures CallMemory(o, states, k + 1, c, states[k + 1].calls[c])
  {
    assert GateSeen(states, k, states[k].calls[c], false);
    assert JoinSeen(states, k, states[k].calls[c]);
  }

  function Mover(a: Action): Option<nat> {
    match a
    case ReadGate(c) => Some(c)
    case ReadCache(c) => Some(c)
    case Join(c) => Some(c)
    case Leave(c) => Some(c)
    case ReadGateAgain(c) => Some(c)
    case Refuse(c) => Some(c)
    case _ => None
  }

  lemma OthersStay(o: Options, s: State, a: Action, c: nat)
    requires Enabled(o, s, a) && c in s.calls && Mover(a) != Some(c)
    ensures c in Next(o, s, a).calls && Next(o, s, a).calls[c] == s.calls[c]
  {}

  lemma StepRemembersCall(o: Options, states: seq<State>, k: nat, a: Action, c: nat)
    requires IsStep(o, states, k, a) && CacheInv(o, states[k])
    requires c in states[k].calls && CallMemory(o, states, k, c, states[k].calls[c])
    ensures c in states[k + 1].calls && CallMemory(o, states, k + 1, c, states[k + 1].calls[c])
  {
    if Mover(a) != Some(c) {
      OthersStay(o, states[k], a, c);
    } else if a.ReadGate? || a.ReadGateAgain? {
      GateReadIsRemembered(o, states, k, a, c);
    } else if a.Join? {
      JoinIsRemembered(o, states, k, c);
    } else if a.Leave? {
      LeaveIsRemembered(o, states, k, c);
    } else if a.ReadCache? {
      CacheAnswerIsRemembered(o, states, k, c);
    } else {
      RefusalIsRemembered(o, states, k, c);
    }
  }

  lemma StepRemembersFlight(o: Options, states: seq<State>, k: nat, a: Action, f: nat)
    requires IsStep(o, states, k, a) && f < |states[k].flights| && FlightMemory(o, states, k, f, states[k].flights[f])
    ensures FlightMemory(o, states, k + 1, f, states[k + 1].flights[f])
  {
    if Aside(a) {
      AsideLeavesRoundsAlone(o, states[k], a);
    } else {
      RoundStepRemembersFlight(o, states, k, a, f);
    }
  }

  lemma RoundStepRemembersFlight(o: Options, states: seq<State>, k: nat, a: Action, f: nat)
    requires IsStep(o, states, k, a) && !Aside(a)
    requires f < |states[k].flights| && FlightMemory(o, states, k, f, states[k].flights[f])
    ensures FlightMemory(o, states, k + 1, f, states[k + 1].flights[f])
  {
    if a.Recheck? || a.Land? || a.Publish? {
      PhaseStepRemembersFlight(o, states, k, a, f);
    } else {
      OtherStepSettlesNothing(o, states[k], a, f);
    }
  }

  lemma PhaseStepRemembersFlight(o: Options, states: seq<State>, k: nat, a: Action, f: nat)
    requires IsStep(o, states, k, a) && (a.Recheck? || a.Land? || a.Publish?)
    requires f < |states[k].flights| && FlightMemory(o, states, k, f, states[k].flights[f])
    ensures FlightMemory(o, states, k + 1, f, states[k + 1].flights[f])
  {}

  lemma OtherStepSettlesNothing(o: Options, s: State, a: Action, f: nat)
    requires Enabled(o, s, a) && !Aside(a) && !a.Recheck? && !a.Land? && !a.Publish? && f < |s.flights|
    ensures var flight, flight' := s.flights[f], Next(o, s, a).flights[f];
            && flight'.born == flight.born && flight'.bornAt == flight.bornAt
            && (flight' == flight || (!flight'.phase.Settled? && !flight'.phase.Landed?))
  {}

  lemma StepRemembersFlights(o: Options, states: seq<State>, k: nat, a: Action)
    requires IsStep(o, states, k, a) && Memory(o, states, k)
    ensures FlightsRemember(o, states, k + 1)
  {
    var s, s' := states[k], states[k + 1];
    forall f | 0 <= f < |s'.flights| ensures FlightMemory(o, states, k + 1, f, s'.flights[f]) {
      if f < |s.flights| { StepRemembersFlight(o, states, k, a, f); }
    }
  }

  lemma StepRemembersRounds(o: Options, states: seq<State>, k: nat, a: Action)
    requires IsStep(o, states, k, a) && Memory(o, states, k)
    ensures RoundsRemember(states, k + 1)
  {
    var s, s' := states[k], states[k + 1];
    if Aside(a) {
      AsideLeavesRoundsAlone(o, s, a);
    }
    forall q | 0 <= q < |s'.rounds| ensures RoundMemory(states, k + 1, q, s'.rounds[q]) {
      if q < |s.rounds| { assert RoundMemory(states, k, q, s.rounds[q]); }
    }
  }

  lemma StepRemembers(o: Options, states: seq<State>, k: nat, a: Action)
    requires IsStep(o, states, k, a) && CacheInv(o, states[k]) && Memory(o, states, k)
    ensures Memory(o, states, k + 1)
  {
    StepRemembersFlights(o, states, k, a);
    StepRemembersRounds(o, states, k, a);
    var s, s' := states[k], states[k + 1];
    forall c | c in s'.calls ensures CallMemory(o, states, k + 1, c, s'.calls[c]) {
      if c in s.calls {
        StepRemembersCall(o, states, k, a, c);
      } else {
        NewCallIsEntering(o, s, a, c);
      }
    }
  }

  lemma NewCallIsEntering(o: Options, s: State, a: Action, c: nat)
    requires Enabled(o, s, a) && c !in s.calls && c in Next(o, s, a).calls
    ensures Next(o, s, a).calls[c] == Call(s.step, s.now, s.step, s.step, None, s.step, Entered)
  {}

  lemma {:induction false} RunRemembers(o: Options, r: Run, k: nat)
    requires IsRun(o, r) && k < |r.states|
    ensures Memory(o, r.states, k)
    decreases k
  {
    if k > 0 {
      RunRemembers(o, r, k - 1);
      RunIsSound(o, r, k - 1);
      assert Took(o, r, k - 1);
      StepRemembers(o, r.states, k - 1, r.actions[k - 1]);
    }
  }
}

/**
 Aggregator.Evaluate for any number of concurrent callers: a state machine whose actions are the
 points of internal/health/aggregate.go between which other goroutines can run. Singleflight is
 its own documented protocol: one flight at a time, whose waiters get the leader's value.
 */
module Readiness {
  import opened Prelude
  import opened Checker
  import opened DepMetrics
  import opened Aggregate

  /** The goroutine of one checker in one round. */
  datatype Check =
    | Unstarted
    | Running(since: Time)
    | Returned(since: Time, until: Time, outcome: Option<Err>, status: Status)

  /** One run of evaluateNow: which flight it belongs to, its start (action number and clock), its slots. */
  datatype Round = Round(flight: nat, begun: nat, startedAt: Time, checks: seq<Check>, evaluatedAt: Option<Time>)

  /** A result together with the number of the round that produced it. */
  datatype Entry = Entry(result: Result, round: nat)

  datatype Source = FromRound | FromCache(seenAt: nat)

  /** Where the function passed to singleflight is. */
  datatype Phase =
    | Rechecking
    | Missed
    | Probing
    | Folding(result: Result, next: nat)
    | Settled(entry: Entry, source: Source)
    | Landed(entry: Entry, source: Source, landed: nat, at: Time)

  datatype Flight = Flight(leader: nat, born: nat, bornAt: Time, phase: Phase)

  /** How a call came by what it returned. */
  datatype Via = OuterCache(round: nat) | SharedFlight(round: nat) | Gate

  /** Where one call of Evaluate is. */
  datatype Pc =
    | Entered
    | PastGate
    | AtFlight
    | InFlight
    | Got(entry: Entry)
    | Refused
    | Answered(result: Result, via: Via, answered: nat, answeredAt: Time)

  /** `admitted` is the first gate read of the call and `gateAt` its latest. */
  datatype Call = Call(
    begun: nat, begunAt: Time, admitted: nat, gateAt: nat, joined: Option<nat>, joinedAt: nat, pc: Pc)

  /** `step` counts the actions taken; rounds, flights and answered calls are never forgotten. */
  datatype State = State(
    step: nat,
    now: Time,
    shuttingDown: bool,
    cached: Option<Entry>,
    checkRounds: nat,
    rounds: seq<Round>,
    flights: seq<Flight>,
    calls: map<nat, Call>,
    metrics: Metrics,
    checkCalls: seq<nat>)

  datatype Action =
    | Tick(to: Time)
    | BeginShutdown
    | Enter(c: nat)
    | ReadGate(c: nat)
    | ReadCache(c: nat)
    | Join(c: nat)
    | Recheck
    | StartRound
    | StartCheck(i: nat)
    | FinishCheck(i: nat, outcome: Option<Err>)
    | Collect
    | Record
    | Publish
    | Land
    | Leave(c: nat)
    | ReadGateAgain(c: nat)
    | Refuse(c: nat)

  function Init(o: Options, now: Time): State {
    State(0, now, false, None, 0, [], [], map[], NO_METRICS, seq(|o.names|, _ => 0))
  }

  // ---- what the actions look at ----

  function CachedResult(s: State): Option<Result> {
    if s.cached.Some? then Some(s.cached.value.result) else None
  }

  /** fresh() would find the cached result at this moment. */
  predicate CacheHit(o: Options, s: State) {
    s.cached.Some? && IsFresh(s.cached.value.result, s.now, o.ttl)
  }

  /** A singleflight call is in progress; it is always the newest. */
  predicate Flying(s: State) {
    |s.flights| > 0 && !s.flights[|s.flights| - 1].phase.Landed?
  }

  function Current(s: State): Flight
    requires |s.flights| > 0
  {
    s.flights[|s.flights| - 1]
  }

  predicate ProbingNow(s: State) {
    Flying(s) && Current(s).phase.Probing? && |s.rounds| > 0
  }

  function Newest(s: State): Round
    requires |s.rounds| > 0
  {
    s.rounds[|s.rounds| - 1]
  }

  predicate AllReturned(checks: seq<Check>) {
    forall i | 0 <= i < |checks| :: checks[i].Returned?
  }

  function StatusesIn(checks: seq<Check>): seq<Status>
    requires AllReturned(checks)
  {
    seq(|checks|, i requires 0 <= i < |checks| => checks[i].status)
  }

  predicate At(s: State, c: nat, pc: Pc) {
    c in s.calls && s.calls[c].pc == pc
  }

  // ---- the actions ----

  predicate Enabled(o: Options, s: State, a: Action) {
    match a
    case Tick(to) => s.now <= to
    case BeginShutdown => true
    case Enter(c) => c !in s.calls
    case ReadGate(c) => At(s, c, Entered)
    case ReadCache(c) => At(s, c, PastGate)
    case Join(c) => At(s, c, AtFlight)
    case Recheck => Flying(s) && Current(s).phase.Rechecking?
    case StartRound => Flying(s) && Current(s).phase.Missed?
    case StartCheck(i) =>
      ProbingNow(s) && i < |Newest(s).checks| && i < |s.checkCalls| && Newest(s).checks[i].Unstarted?
    case FinishCheck(i, outcome) =>
      ProbingNow(s) && i < |Newest(s).checks| && i < |o.names| && Newest(s).checks[i].Running?
    case Collect => ProbingNow(s) && AllReturned(Newest(s).checks)
    case Record =>
      Flying(s) && Current(s).phase.Folding? && Current(s).phase.next < |Current(s).phase.result.dependencies|
    case Publish =>
      && Flying(s) && Current(s).phase.Folding? && |s.rounds| > 0
      && Current(s).phase.next == |Current(s).phase.result.dependencies|
    case Land => Flying(s) && Current(s).phase.Settled?
    case Leave(c) =>
      && At(s, c, InFlight) && s.calls[c].joined.Some? && s.calls[c].joined.value < |s.flights|
      && s.flights[s.calls[c].joined.value].phase.Landed?
    case ReadGateAgain(c) => c in s.calls && s.calls[c].pc.Got?
    case Refuse(c) => At(s, c, Refused)
  }

  function SetPc(s: State, c: nat, pc: Pc): State
    requires c in s.calls
  {
    s.(calls := s.calls[c := s.calls[c].(pc := pc)])
  }

  function SetPhase(s: State, p: Phase): State
    requires |s.flights| > 0
  {
    s.(flights := s.flights[|s.flights| - 1 := Current(s).(phase := p)])
  }

  function SetCheck(s: State, i: nat, check: Check): State
    requires |s.rounds| > 0 && i < |Newest(s).checks|
  {
    s.(rounds := s.rounds[|s.rounds| - 1 := Newest(s).(checks := Newest(s).checks[i := check])])
  }

  /** The gate is read: by a call that may go on to `open`, or must report the shutdown. */
  function GateRead(s: State, c: nat, open: Pc): State
    requires c in s.calls
  {
    var call := s.calls[c];
    s.(calls := s.calls[c := call.(
         admitted := if call.pc.Entered? then s.step else call.admitted,
         gateAt := s.step,
         pc := if s.shuttingDown then Refused else open)])
  }

  function Joined(s: State, c: nat): State
    requires c in s.calls
  {
    var flights := if Flying(s) then s.flights else s.flights + [Flight(c, s.step, s.now, Rechecking)];
    s.(flights := flights,
       calls := s.calls[c := s.calls[c].(joined := Some(|flights| - 1), joinedAt := s.step, pc := InFlight)])
  }

  function Effect(o: Options, s: State, a: Action): State
    requires Enabled(o, s, a)
  {
    match a
    case Tick(to) => s.(now := to)
    case BeginShutdown => s.(shuttingDown := true)
    case Enter(c) => s.(calls := s.calls[c := Call(s.step, s.now, s.step, s.step, None, s.step, Entered)])
    case ReadGate(c) => GateRead(s, c, PastGate)
    case ReadCache(c) =>
      if CacheHit(o, s)
      then SetPc(s, c, Answered(s.cached.value.result, OuterCache(s.cached.value.round), s.step, s.now))
      else SetPc(s, c, AtFlight)
    case Join(c) => Joined(s, c)
    case Recheck =>
      if CacheHit(o, s) then SetPhase(s, Settled(s.cached.value, FromCache(s.step))) else SetPhase(s, Missed)
    case StartRound =>
      var round := Round(|s.flights| - 1, s.step, s.now, seq(|o.names|, _ => Unstarted), None);
      SetPhase(s, Probing).(checkRounds := s.checkRounds + 1, rounds := s.rounds + [round])
    case StartCheck(i) => SetCheck(s, i, Running(s.now)).(checkCalls := s.checkCalls[i := s.checkCalls[i] + 1])
    case FinishCheck(i, outcome) =>
      var since := Newest(s).checks[i].since;
      SetCheck(s, i, Returned(since, s.now, outcome, StatusOf(o.names[i], since, s.now, outcome)))
    case Collect =>
      var result := Result(Ready, o.service, o.version, s.now, false, StatusesIn(Newest(s).checks));
      SetPhase(s, Folding(result, 0)).(rounds := s.rounds[|s.rounds| - 1 := Newest(s).(evaluatedAt := Some(s.now))])
    case Record =>
      var Folding(result, k) := Current(s).phase;
      var st := result.dependencies[k];
      SetPhase(s, Folding(if st.healthy then result else result.(status := NotReady), k + 1)).(
        metrics := RecordedStatus(s.metrics, st))
    case Publish =>
      var entry := Entry(Current(s).phase.result, |s.rounds| - 1);
      SetPhase(s, Settled(entry, FromRound)).(cached := Some(entry))
    case Land => SetPhase(s, Landed(Current(s).phase.entry, Current(s).phase.source, s.step, s.now))
    case Leave(c) => SetPc(s, c, Got(s.flights[s.calls[c].joined.value].phase.entry))
    case ReadGateAgain(c) =>
      var entry := s.calls[c].pc.entry;
      GateRead(s, c, Answered(entry.result, SharedFlight(entry.round), s.step, s.now))
    case Refuse(c) => SetPc(s, c, Answered(ShutdownResult(o, CachedResult(s), s.now), Gate, s.step, s.now))
  }

  function Next(o: Options, s: State, a: Action): State
    requires Enabled(o, s, a)
  {
    Effect(o, s, a).(step := s.step + 1)
  }

  /** A run: the states it goes through and the action taken in each but the last. */
  datatype Run = Run(states: seq<State>, actions: seq<Action>)

  /** Step k of the run is the action recorded for it. */
  ghost predicate Took(o: Options, r: Run, k: nat) {
    && k < |r.actions| && k + 1 < |r.states|
    && Enabled(o, r.states[k], r.actions[k])
    && r.states[k + 1] == Next(o, r.states[k], r.actions[k])
  }

  ghost predicate IsRun(o: Options, r: Run) {
    && |r.states| == |r.actions| + 1
    && (exists t :: r.states[0] == Init(o, t))
    && forall k | 0 <= k < |r.actions| :: Took(o, r, k)
  }
}

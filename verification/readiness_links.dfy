/** What every action keeps about calls and the flights they share, and that history only grows. */
module ReadinessLinks {
  import opened Prelude
  import opened Aggregate
  import opened Readiness
  import opened ReadinessCore

  // ---- nothing recorded is ever revised ----

  ghost predicate RoundsExtend(rounds: seq<Round>, rounds': seq<Round>) {
    && |rounds| <= |rounds'|
    && forall r | 0 <= r < |rounds| ::
         && rounds'[r].flight == rounds[r].flight
         && rounds'[r].begun == rounds[r].begun
         && rounds'[r].startedAt == rounds[r].startedAt
         && (rounds[r].evaluatedAt.Some? ==> rounds'[r] == rounds[r])
  }

  ghost predicate FlightsExtend(flights: seq<Flight>, flights': seq<Flight>) {
    && |flights| <= |flights'|
    && forall f | 0 <= f < |flights| ::
         && flights'[f].leader == flights[f].leader
         && flights'[f].born == flights[f].born
         && flights'[f].bornAt == flights[f].bornAt
         && (flights[f].phase.Landed? ==> flights'[f] == flights[f])
  }

  ghost predicate CallsExtend(calls: map<nat, Call>, calls': map<nat, Call>) {
    forall c | c in calls ::
      && c in calls'
      && calls'[c].begun == calls[c].begun
      && calls'[c].begunAt == calls[c].begunAt
      && (!calls[c].pc.Entered? ==> !calls'[c].pc.Entered? && calls'[c].admitted == calls[c].admitted)
      && (calls[c].pc.Refused? ==>
            (calls'[c].pc.Refused? || calls'[c].pc.Answered?) && calls'[c].joined == calls[c].joined)
      && (calls[c].joined.Some? ==> calls'[c].joined == calls[c].joined && calls'[c].joinedAt == calls[c].joinedAt)
      && (calls[c].pc.Answered? ==> calls'[c] == calls[c])
  }

  ghost predicate Extends(s: State, s': State) {
    && s.step <= s'.step && s.now <= s'.now && (s.shuttingDown ==> s'.shuttingDown)
    && RoundsExtend(s.rounds, s'.rounds)
    && FlightsExtend(s.flights, s'.flights)
    && CallsExtend(s.calls, s'.calls)
  }

  // ---- calls and flights ----

  ghost predicate FlightOk(o: Options, s: State, f: nat)
    requires f < |s.flights|
  {
    var flight := s.flights[f];
    && flight.leader in s.calls && s.calls[flight.leader].joined == Some(f)
    && (!flight.phase.Landed? ==> f == |s.flights| - 1 && s.calls[flight.leader].pc.InFlight?)
    && (flight.phase.Settled? || flight.phase.Landed? ==>
          && IsRoundEntry(o, s.rounds, flight.phase.entry)
          && (flight.phase.source.FromRound? ==> s.rounds[flight.phase.entry.round].flight == f))
  }

  ghost predicate HasLanded(s: State, call: Call) {
    call.joined.Some? && call.joined.value < |s.flights| && s.flights[call.joined.value].phase.Landed?
  }

  ghost predicate CallOk(o: Options, s: State, call: Call) {
    match call.pc
    case InFlight => call.joined.Some? && call.joined.value < |s.flights|
    case Got(entry) => HasLanded(s, call) && s.flights[call.joined.value].phase.entry == entry
    case Refused => call.joined.None? || HasLanded(s, call)
    case Answered(result, via, _, _) =>
      (match via
       case OuterCache(r) => call.joined.None? && IsRoundEntry(o, s.rounds, Entry(result, r))
       case SharedFlight(r) => HasLanded(s, call) && s.flights[call.joined.value].phase.entry == Entry(result, r)
       case Gate => (call.joined.None? || HasLanded(s, call)) && result.shuttingDown && result.status == NotReady)
    case _ => call.joined.None?
  }

  ghost predicate Links(o: Options, s: State) {
    && (forall f | 0 <= f < |s.flights| :: FlightOk(o, s, f))
    && (forall c | c in s.calls :: CallOk(o, s, s.calls[c]))
  }

  lemma StepExtendsRounds(o: Options, s: State, a: Action)
    requires Core(o, s) && Enabled(o, s, a)
    ensures RoundsExtend(s.rounds, Next(o, s, a).rounds)
  {}

  lemma StepExtendsFlights(o: Options, s: State, a: Action)
    requires Enabled(o, s, a)
    ensures FlightsExtend(s.flights, Next(o, s, a).flights)
  {}

  lemma StepExtendsCalls(o: Options, s: State, a: Action)
    requires Links(o, s) && Enabled(o, s, a)
    ensures CallsExtend(s.calls, Next(o, s, a).calls)
  {
    match a
    case Join(c) => assert CallOk(o, s, s.calls[c]);
    case _ =>
  }

  lemma StepExtends(o: Options, s: State, a: Action)
    requires Core(o, s) && Links(o, s) && Enabled(o, s, a)
    ensures Extends(s, Next(o, s, a))
  {
    StepExtendsRounds(o, s, a);
    StepExtendsFlights(o, s, a);
    StepExtendsCalls(o, s, a);
  }

  lemma EntriesSurvive(o: Options, rounds: seq<Round>, rounds': seq<Round>, e: Entry)
    requires RoundsExtend(rounds, rounds') && IsRoundEntry(o, rounds, e)
    ensures IsRoundEntry(o, rounds', e)
  {}

  /** A call moves on; its flight, if it has one, stays. */
  lemma MoveKeepsLinks(o: Options, s: State, c: nat, call: Call)
    requires Links(o, s) && c in s.calls
    requires call.joined == s.calls[c].joined && CallOk(o, s, call)
    requires s.calls[c].pc.InFlight? ==> call.pc.InFlight? || HasLanded(s, call)
    ensures Links(o, s.(calls := s.calls[c := call]))
  {
    var s' := s.(calls := s.calls[c := call]);
    forall f | 0 <= f < |s.flights| ensures FlightOk(o, s', f) {
      assert FlightOk(o, s, f);
    }
    forall d | d in s'.calls ensures CallOk(o, s', s'.calls[d]) {
      if d != c { assert CallOk(o, s, s.calls[d]); }
    }
  }

  lemma EnterKeepsLinks(o: Options, s: State, c: nat)
    requires Links(o, s) && Enabled(o, s, Enter(c))
    ensures Links(o, Next(o, s, Enter(c)))
  {
    var s' := Next(o, s, Enter(c));
    forall f | 0 <= f < |s.flights| ensures FlightOk(o, s', f) {
      assert FlightOk(o, s, f);
    }
    forall d | d in s'.calls ensures CallOk(o, s', s'.calls[d]) {
      if d != c { assert CallOk(o, s, s.calls[d]); }
    }
  }

  lemma JoinKeepsLinks(o: Options, s: State, c: nat)
    requires Links(o, s) && Enabled(o, s, Join(c))
    ensures Links(o, Next(o, s, Join(c)))
  {
    var s' := Next(o, s, Join(c));
    assert CallOk(o, s, s.calls[c]);
    forall f | 0 <= f < |s'.flights| ensures FlightOk(o, s', f) {
      if f < |s.flights| { assert FlightOk(o, s, f); }
    }
    forall d | d in s'.calls ensures CallOk(o, s', s'.calls[d]) {
      if d != c { assert CallOk(o, s, s.calls[d]); }
    }
  }

  /** The flight in progress moves on and the rounds grow. */
  lemma PhaseKeepsLinks(o: Options, s: State, p: Phase, rounds': seq<Round>)
    requires Links(o, s) && Flying(s) && RoundsExtend(s.rounds, rounds')
    requires p.Settled? || p.Landed? ==>
               && IsRoundEntry(o, rounds', p.entry)
               && (p.source.FromRound? ==> rounds'[p.entry.round].flight == |s.flights| - 1)
    ensures Links(o, SetPhase(s, p).(rounds := rounds'))
  {
    var s' := SetPhase(s, p).(rounds := rounds');
    forall f | 0 <= f < |s'.flights| ensures FlightOk(o, s', f) {
      assert FlightOk(o, s, f);
      if f < |s.flights| - 1 { EntriesSurvive(o, s.rounds, rounds', s.flights[f].phase.entry); }
    }
    forall d | d in s'.calls ensures CallOk(o, s', s'.calls[d]) {
      assert CallOk(o, s, s.calls[d]);
      if s.calls[d].pc.Answered? && s.calls[d].pc.via.OuterCache? {
        EntriesSurvive(o, s.rounds, rounds', Entry(s.calls[d].pc.result, s.calls[d].pc.via.round));
      }
    }
  }

  lemma LinksFrame(o: Options, s: State, s': State)
    requires Links(o, s)
    requires s'.rounds == s.rounds && s'.flights == s.flights && s'.calls == s.calls
    ensures Links(o, s')
  {
    forall f | 0 <= f < |s'.flights| ensures FlightOk(o, s', f) {
      assert FlightOk(o, s, f);
    }
    forall d | d in s'.calls ensures CallOk(o, s', s'.calls[d]) {
      assert CallOk(o, s, s.calls[d]);
    }
  }

  lemma CallStepKeepsLinks(o: Options, s: State, a: Action, c: nat)
    requires Links(o, s) && Enabled(o, s, a)
    requires a == ReadGate(c) || a == ReadCache(c) || a == Leave(c) || a == ReadGateAgain(c) || a == Refuse(c)
    requires CacheInv(o, s)
    ensures Links(o, Next(o, s, a))
  {
    var s' := Next(o, s, a);
    assert CallOk(o, s, s.calls[c]);
    MoveKeepsLinks(o, s, c, s'.calls[c]);
    LinksFrame(o, s.(calls := s.calls[c := s'.calls[c]]), s');
  }

  lemma FlightStepKeepsLinks(o: Options, s: State, a: Action)
    requires Core(o, s) && Links(o, s) && Enabled(o, s, a)
    requires a.Recheck? || a.StartRound? || a.Collect? || a.Record? || a.Land?
    ensures Links(o, Next(o, s, a))
  {
    var s' := Next(o, s, a);
    StepExtendsRounds(o, s, a);
    var p := Current(s').phase;
    assert FlightOk(o, s, |s.flights| - 1);
    PhaseKeepsLinks(o, s, p, s'.rounds);
    LinksFrame(o, SetPhase(s, p).(rounds := s'.rounds), s');
  }

  lemma PublishKeepsLinks(o: Options, s: State)
    requires Core(o, s) && Links(o, s) && Enabled(o, s, Publish)
    ensures Links(o, Next(o, s, Publish))
  {
    var entry := Entry(Current(s).phase.result, |s.rounds| - 1);
    PublishKeepsCore(o, s);
    PhaseKeepsLinks(o, s, Settled(entry, FromRound), s.rounds);
    LinksFrame(o, SetPhase(s, Settled(entry, FromRound)).(rounds := s.rounds), Next(o, s, Publish));
  }

  lemma CheckStepKeepsLinks(o: Options, s: State, a: Action)
    requires Core(o, s) && Links(o, s) && Enabled(o, s, a)
    requires a.StartCheck? || a.FinishCheck?
    ensures Links(o, Next(o, s, a))
  {
    var s' := Next(o, s, a);
    StepExtendsRounds(o, s, a);
    PhaseKeepsLinks(o, s, Current(s).phase, s'.rounds);
    LinksFrame(o, SetPhase(s, Current(s).phase).(rounds := s'.rounds), s');
  }

  /** Actions of the clock, the flag, or one call that is neither new nor joining a flight. */
  lemma AsideKeepsLinks(o: Options, s: State, a: Action)
    requires CacheInv(o, s) && Links(o, s) && Enabled(o, s, a) && Aside(a) && !a.Enter?
    ensures Links(o, Next(o, s, a))
  {
    match a
    case ReadGate(c) => CallStepKeepsLinks(o, s, a, c);
    case ReadCache(c) => CallStepKeepsLinks(o, s, a, c);
    case Leave(c) => CallStepKeepsLinks(o, s, a, c);
    case ReadGateAgain(c) => CallStepKeepsLinks(o, s, a, c);
    case Refuse(c) => CallStepKeepsLinks(o, s, a, c);
    case Tick(_) => LinksFrame(o, s, Next(o, s, a));
    case BeginShutdown => LinksFrame(o, s, Next(o, s, a));
  }

  lemma LinksKept(o: Options, s: State, a: Action)
    requires Core(o, s) && Links(o, s) && Enabled(o, s, a)
    ensures Links(o, Next(o, s, a))
  {
    if Aside(a) && !a.Enter? {
      AsideKeepsLinks(o, s, a);
    } else {
      match a
      case Enter(c) => EnterKeepsLinks(o, s, c);
      case Join(c) => JoinKeepsLinks(o, s, c);
      case StartCheck(_) => CheckStepKeepsLinks(o, s, a);
      case FinishCheck(_, _) => CheckStepKeepsLinks(o, s, a);
      case Publish => PublishKeepsLinks(o, s);
      case Recheck => FlightStepKeepsLinks(o, s, a);
      case StartRound => FlightStepKeepsLinks(o, s, a);
      case Collect => FlightStepKeepsLinks(o, s, a);
      case Record => FlightStepKeepsLinks(o, s, a);
      case Land => FlightStepKeepsLinks(o, s, a);
    }
  }
}

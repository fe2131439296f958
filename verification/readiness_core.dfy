/** What every action keeps about the rounds, the cache and the flight in progress. */
module ReadinessCore {
  import opened Prelude
  import opened Checker
  import opened Aggregate
  import opened Readiness

  /** Slot i holds nothing but what run produced for checker i. */
  ghost predicate SlotOk(o: Options, check: Check, i: nat) {
    i < |o.names| && (check.Returned? ==> check.status == StatusOf(o.names[i], check.since, check.until, check.outcome))
  }

  ghost predicate RoundOk(o: Options, r: Round) {
    && |r.checks| == |o.names|
    && (forall i | 0 <= i < |r.checks| :: SlotOk(o, r.checks[i], i))
    && (r.evaluatedAt.Some? ==> AllReturned(r.checks))
  }

  /** What a completed round reports. */
  function ResultOf(o: Options, r: Round): Result
    requires r.evaluatedAt.Some? && AllReturned(r.checks)
  {
    RoundResult(o, StatusesIn(r.checks), r.evaluatedAt.value)
  }

  /** The number of rounds whose result has reached the cache. */
  function Published(s: State): nat {
    if Flying(s) && (Current(s).phase.Probing? || Current(s).phase.Folding?) && |s.rounds| > 0
    then |s.rounds| - 1 else |s.rounds|
  }

  ghost predicate IsRoundEntry(o: Options, rounds: seq<Round>, e: Entry) {
    && e.round < |rounds|
    && rounds[e.round].evaluatedAt.Some? && AllReturned(rounds[e.round].checks)
    && e.result == ResultOf(o, rounds[e.round])
  }

  ghost predicate RoundsInv(o: Options, s: State) {
    && s.checkRounds == |s.rounds|
    && |s.checkCalls| == |o.names|
    && (forall r | 0 <= r < |s.rounds| :: RoundOk(o, s.rounds[r]))
    && (forall r | 0 <= r < Published(s) :: s.rounds[r].evaluatedAt.Some?)
  }

  ghost predicate CacheInv(o: Options, s: State) {
    if s.cached.None? then Published(s) == 0
    else s.cached.value.round == Published(s) - 1 && IsRoundEntry(o, s.rounds, s.cached.value)
  }

  ghost predicate FoldOk(o: Options, r: Round, result: Result, k: nat) {
    && r.evaluatedAt.Some? && AllReturned(r.checks)
    && k <= |r.checks|
    && result == ResultOf(o, r).(status := if AllHealthy(StatusesIn(r.checks)[..k]) then Ready else NotReady)
  }

  ghost predicate PhaseOk(o: Options, s: State, p: Phase) {
    match p
    case Probing => |s.rounds| > 0 && Newest(s).evaluatedAt.None? && Newest(s).flight == |s.flights| - 1
    case Folding(result, k) => |s.rounds| > 0 && Newest(s).flight == |s.flights| - 1 && FoldOk(o, Newest(s), result, k)
    case _ => true
  }

  ghost predicate PhaseInv(o: Options, s: State) {
    Flying(s) ==> PhaseOk(o, s, Current(s).phase)
  }

  ghost predicate Core(o: Options, s: State) {
    RoundsInv(o, s) && CacheInv(o, s) && PhaseInv(o, s)
  }

  /** Actions that touch neither rounds, flights nor the cache. */
  lemma CoreFrame(o: Options, s: State, s': State)
    requires Core(o, s)
    requires s'.rounds == s.rounds && s'.flights == s.flights && s'.cached == s.cached
    requires s'.checkRounds == s.checkRounds && |s'.checkCalls| == |s.checkCalls|
    ensures Core(o, s')
  {}

  lemma JoinKeepsCore(o: Options, s: State, c: nat)
    requires Core(o, s) && Enabled(o, s, Join(c))
    ensures Core(o, Next(o, s, Join(c)))
  {}

  /** A new phase that neither starts nor publishes a round. */
  lemma SetPhaseKeepsCore(o: Options, s: State, p: Phase)
    requires Core(o, s) && Flying(s) && PhaseOk(o, s, p)
    requires (p.Probing? || p.Folding?) == (Current(s).phase.Probing? || Current(s).phase.Folding?)
    ensures Core(o, SetPhase(s, p))
  {}

  lemma StartRoundKeepsCore(o: Options, s: State)
    requires Core(o, s) && Enabled(o, s, StartRound)
    ensures Core(o, Next(o, s, StartRound))
  {}

  lemma SetCheckKeepsCore(o: Options, s: State, i: nat, check: Check)
    requires Core(o, s) && ProbingNow(s) && i < |Newest(s).checks| && SlotOk(o, check, i)
    ensures Core(o, SetCheck(s, i, check))
  {}

  lemma StartCheckKeepsCore(o: Options, s: State, i: nat)
    requires Core(o, s) && Enabled(o, s, StartCheck(i))
    ensures Core(o, Next(o, s, StartCheck(i)))
  {
    SetCheckKeepsCore(o, s, i, Running(s.now));
    CoreFrame(o, SetCheck(s, i, Running(s.now)), Next(o, s, StartCheck(i)));
  }

  lemma FinishCheckKeepsCore(o: Options, s: State, i: nat, outcome: Option<Err>)
    requires Core(o, s) && Enabled(o, s, FinishCheck(i, outcome))
    ensures Core(o, Next(o, s, FinishCheck(i, outcome)))
  {
    var since := Newest(s).checks[i].since;
    var check := Returned(since, s.now, outcome, StatusOf(o.names[i], since, s.now, outcome));
    SetCheckKeepsCore(o, s, i, check);
    CoreFrame(o, SetCheck(s, i, check), Next(o, s, FinishCheck(i, outcome)));
  }

  lemma CollectKeepsCore(o: Options, s: State)
    requires Core(o, s) && Enabled(o, s, Collect)
    ensures Core(o, Next(o, s, Collect))
  {}

  lemma RecordKeepsCore(o: Options, s: State)
    requires Core(o, s) && Enabled(o, s, Record)
    ensures Core(o, Next(o, s, Record))
  {
    var Folding(result, k) := Current(s).phase;
    OneMoreHealthy(StatusesIn(Newest(s).checks), k);
    var p := Folding(if result.dependencies[k].healthy then result else result.(status := NotReady), k + 1);
    assert FoldOk(o, Newest(s), p.result, p.next);
    SetPhaseKeepsCore(o, s, p);
    CoreFrame(o, SetPhase(s, p), Next(o, s, Record));
  }

  lemma PublishKeepsCore(o: Options, s: State)
    requires Core(o, s) && Enabled(o, s, Publish)
    ensures Core(o, Next(o, s, Publish))
  {
    PublishShape(o, s);
    CoreOncePublished(o, s, Next(o, s, Publish));
  }

  lemma PublishShape(o: Options, s: State)
    requires Core(o, s) && Enabled(o, s, Publish)
    ensures FoldOk(o, Newest(s), Current(s).phase.result, |Newest(s).checks|) && Published(s) == |s.rounds| - 1
    ensures var s' := Next(o, s, Publish);
            && s'.rounds == s.rounds && s'.checkRounds == s.checkRounds && s'.checkCalls == s.checkCalls
            && s'.cached == Some(Entry(Current(s).phase.result, |s.rounds| - 1))
            && |s'.flights| > 0 && Current(s').phase.Settled?
  {}

  /** The newest round has been folded, and is now the one in the cache. */
  lemma CoreOncePublished(o: Options, s: State, s': State)
    requires RoundsInv(o, s) && |s.rounds| > 0 && Published(s) == |s.rounds| - 1
    requires s'.rounds == s.rounds && s'.checkRounds == s.checkRounds && s'.checkCalls == s.checkCalls
    requires |s'.flights| > 0 && Current(s').phase.Settled?
    requires s'.cached.Some? && s'.cached.value.round == |s.rounds| - 1
    requires FoldOk(o, Newest(s), s'.cached.value.result, |Newest(s).checks|)
    ensures Core(o, s')
  {
    var statuses := StatusesIn(Newest(s).checks);
    assert statuses[..|statuses|] == statuses;
  }

  lemma RecheckKeepsCore(o: Options, s: State)
    requires Core(o, s) && Enabled(o, s, Recheck)
    ensures Core(o, Next(o, s, Recheck))
  {
    var p := if CacheHit(o, s) then Settled(s.cached.value, FromCache(s.step)) else Missed;
    SetPhaseKeepsCore(o, s, p);
    CoreFrame(o, SetPhase(s, p), Next(o, s, Recheck));
  }

  lemma LandKeepsCore(o: Options, s: State)
    requires Core(o, s) && Enabled(o, s, Land)
    ensures Core(o, Next(o, s, Land))
  {
    var p := Landed(Current(s).phase.entry, Current(s).phase.source, s.step, s.now);
    SetPhaseKeepsCore(o, s, p);
    CoreFrame(o, SetPhase(s, p), Next(o, s, Land));
  }

  /** Actions of the clock, the flag, or one call that is not joining a flight. */
  predicate Aside(a: Action) {
    match a
    case Tick(_) => true
    case BeginShutdown => true
    case Enter(_) => true
    case ReadGate(_) => true
    case ReadCache(_) => true
    case Leave(_) => true
    case ReadGateAgain(_) => true
    case Refuse(_) => true
    case _ => false
  }

  lemma AsideLeavesRoundsAlone(o: Options, s: State, a: Action)
    requires Enabled(o, s, a) && Aside(a)
    ensures var s' := Next(o, s, a);
            && s'.rounds == s.rounds && s'.flights == s.flights && s'.cached == s.cached
            && s'.checkRounds == s.checkRounds && s'.checkCalls == s.checkCalls && s'.metrics == s.metrics
            && s.now <= s'.now
  {}

  lemma CoreKept(o: Options, s: State, a: Action)
    requires Core(o, s) && Enabled(o, s, a)
    ensures Core(o, Next(o, s, a))
  {
    if Aside(a) {
      AsideLeavesRoundsAlone(o, s, a);
      CoreFrame(o, s, Next(o, s, a));
    } else {
      match a
      case Join(c) => JoinKeepsCore(o, s, c);
      case Recheck => RecheckKeepsCore(o, s);
      case StartRound => StartRoundKeepsCore(o, s);
      case StartCheck(i) => StartCheckKeepsCore(o, s, i);
      case FinishCheck(i, outcome) => FinishCheckKeepsCore(o, s, i, outcome);
      case Collect => CollectKeepsCore(o, s);
      case Record => RecordKeepsCore(o, s);
      case Publish => PublishKeepsCore(o, s);
      case Land => LandKeepsCore(o, s);
    }
  }
}

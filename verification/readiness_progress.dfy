/**
 That calls can finish: wherever a run is, every open call can be brought to its answer at the present
 instant, whatever the checks of its flight answer.
 */
module ReadinessProgress {
  import opened Prelude
  import opened Checker
  import opened Aggregate
  import opened Readiness
  import opened ReadinessCore
  import opened ReadinessLinks
  import opened ReadinessHistory
  import opened ReadinessTheorems
  import opened ReadinessUrgent

  // ---- runs that go on ----

  ghost predicate Grows(o: Options, r: Run, q: Run) {
    IsRun(o, r) && IsRun(o, q) && r.states <= q.states && r.actions <= q.actions
  }

  /** The run goes on, and stays timely if it was. */
  ghost predicate Continues(o: Options, r: Run, q: Run) {
    Grows(o, r, q) && (IsTimelyRun(o, r) ==> IsTimelyRun(o, q))
  }

  /** What happens without the clock, a new call, or the flag. */
  predicate IsMove(a: Action) {
    !a.Tick? && !a.Enter? && !a.BeginShutdown?
  }

  /** The run goes on, by moves alone. */
  ghost predicate Proceeds(o: Options, r: Run, q: Run) {
    Continues(o, r, q) && forall k | |r.actions| <= k < |q.actions| :: IsMove(q.actions[k])
  }

  lemma Grow(o: Options, r: Run, a: Action) returns (q: Run)
    requires IsRun(o, r) && Enabled(o, Last(r), a)
    ensures Grows(o, r, q) && Last(q) == Next(o, Last(r), a)
    ensures q.actions == r.actions + [a] && |q.states| == |r.states| + 1
    ensures IsTimelyRun(o, r) && Timely(o, Last(r), a) ==> IsTimelyRun(o, q)
  {
    q := Extended(o, r, a);
    if IsTimelyRun(o, r) && Timely(o, Last(r), a) {
      forall k | 0 <= k < |q.actions| ensures Timely(o, q.states[k], q.actions[k]) {
        if k < |r.actions| { assert Timely(o, r.states[k], r.actions[k]); }
      }
    }
  }

  /** The run takes one more action, at the same instant. */
  lemma Act(o: Options, r: Run, a: Action) returns (q: Run)
    requires IsRun(o, r) && Enabled(o, Last(r), a) && !a.Tick?
    ensures Continues(o, r, q) && Last(q) == Next(o, Last(r), a)
    ensures q.actions == r.actions + [a] && |q.states| == |r.states| + 1
    ensures IsMove(a) ==> Proceeds(o, r, q)
  {
    q := Grow(o, r, a);
  }

  /** The clock moves on. */
  lemma Wait(o: Options, r: Run, to: Time) returns (q: Run)
    requires IsRun(o, r) && Last(r).now <= to
    ensures Grows(o, r, q) && Last(q) == Last(r).(now := to, step := Last(r).step + 1)
    ensures IsTimelyRun(o, r) && Timely(o, Last(r), Tick(to)) ==> IsTimelyRun(o, q)
  {
    q := Grow(o, r, Tick(to));
  }

  // ---- the checks of the round in progress ----

  /** The check, once it has been called if need be, and has answered. */
  function Finished(o: Options, i: nat, check: Check, now: Time, outcome: Option<Err>): Check
    requires i < |o.names|
  {
    match check
    case Unstarted => Returned(now, now, outcome, StatusOf(o.names[i], now, now, outcome))
    case Running(since) => Returned(since, now, outcome, StatusOf(o.names[i], since, now, outcome))
    case Returned(_, _, _, _) => check
  }

  function Called(check: Check, now: Time): Check {
    if check.Unstarted? then Running(now) else check
  }

  /** Nothing but the checks of the newest round, and the calls of Check, has changed. */
  ghost predicate OnlyChecks(s: State, s': State) {
    && ProbingNow(s) && ProbingNow(s')
    && s'.now == s.now && s'.shuttingDown == s.shuttingDown && s'.cached == s.cached && s'.calls == s.calls
    && s'.flights == s.flights && s'.checkRounds == s.checkRounds
    && |s'.rounds| == |s.rounds| && (forall q | 0 <= q < |s.rounds| - 1 :: s'.rounds[q] == s.rounds[q])
    && Newest(s') == Newest(s).(checks := Newest(s').checks) && |Newest(s').checks| == |Newest(s).checks|
  }

  /** Check i is called, unless it has been. */
  lemma CallCheck(o: Options, r: Run, i: nat) returns (q: Run)
    requires IsRun(o, r) && ProbingNow(Last(r)) && i < |o.names| == |Newest(Last(r)).checks|
    ensures Proceeds(o, r, q) && OnlyChecks(Last(r), Last(q))
    ensures Newest(Last(q)).checks == Newest(Last(r)).checks[i := Called(Newest(Last(r)).checks[i], Last(r).now)]
  {
    RunIsSound(o, r, |r.states| - 1);
    q := r;
    if Newest(Last(r)).checks[i].Unstarted? {
      q := Act(o, r, StartCheck(i));
    }
  }

  /** Check i, which has been called, answers, unless it has. */
  lemma EndCheck(o: Options, r: Run, i: nat, outcome: Option<Err>) returns (q: Run)
    requires IsRun(o, r) && ProbingNow(Last(r)) && i < |o.names| == |Newest(Last(r)).checks|
    requires !Newest(Last(r)).checks[i].Unstarted?
    ensures Proceeds(o, r, q) && OnlyChecks(Last(r), Last(q))
    ensures var was := Newest(Last(r)).checks;
            Newest(Last(q)).checks == was[i := Finished(o, i, was[i], Last(r).now, outcome)]
  {
    q := r;
    if Newest(Last(r)).checks[i].Running? {
      q := Act(o, r, FinishCheck(i, outcome));
    }
  }

  /** All checks from i on are called. */
  lemma {:induction false} CallChecks(o: Options, r: Run, i: nat) returns (q: Run)
    requires IsRun(o, r) && ProbingNow(Last(r)) && i <= |o.names| == |Newest(Last(r)).checks|
    ensures Proceeds(o, r, q) && OnlyChecks(Last(r), Last(q))
    ensures forall j | 0 <= j < i :: Newest(Last(q)).checks[j] == Newest(Last(r)).checks[j]
    ensures forall j | i <= j < |o.names| :: Newest(Last(q)).checks[j] == Called(Newest(Last(r)).checks[j], Last(r).now)
    decreases |o.names| - i
  {
    q := r;
    if i < |o.names| {
      q := CallCheck(o, q, i);
      q := CallChecks(o, q, i + 1);
    }
  }

  /** All checks from i on are called if need be, and answer. */
  lemma {:induction false} EndChecks(o: Options, r: Run, i: nat, outcome: Option<Err>) returns (q: Run)
    requires IsRun(o, r) && ProbingNow(Last(r)) && i <= |o.names| == |Newest(Last(r)).checks|
    ensures Proceeds(o, r, q) && OnlyChecks(Last(r), Last(q))
    ensures forall j | 0 <= j < i :: Newest(Last(q)).checks[j] == Newest(Last(r)).checks[j]
    ensures forall j | i <= j < |o.names| ::
              Newest(Last(q)).checks[j] == Finished(o, j, Newest(Last(r)).checks[j], Last(r).now, outcome)
    decreases |o.names| - i
  {
    q := r;
    if i < |o.names| {
      q := CallCheck(o, q, i);
      q := EndCheck(o, q, i, outcome);
      q := EndChecks(o, q, i + 1, outcome);
    }
  }

  // ---- the flight in progress ----

  /** The flight in progress has moved on, and nobody has joined or left it. */
  ghost predicate OnlyFlight(s: State, s': State) {
    && s'.now == s.now && s'.shuttingDown == s.shuttingDown && s'.calls == s.calls
    && 0 < |s.flights| == |s'.flights|
    && forall f | 0 <= f < |s.flights| - 1 :: s'.flights[f] == s.flights[f]
  }

  /** The same, and the rounds, of which there is one at least, are as they were. */
  ghost predicate OnlyFold(s: State, s': State) {
    OnlyFlight(s, s') && 0 < |s.rounds| && s'.rounds == s.rounds && s'.checkRounds == s.checkRounds
  }

  lemma Collected(o: Options, r: Run) returns (q: Run)
    requires IsRun(o, r) && ProbingNow(Last(r)) && AllReturned(Newest(Last(r)).checks)
    ensures Proceeds(o, r, q) && OnlyFlight(Last(r), Last(q)) && Flying(Last(q)) && Current(Last(q)).phase.Folding?
    ensures var s, s' := Last(r), Last(q);
            && |s'.rounds| == |s.rounds| && s'.checkRounds == s.checkRounds
            && (forall q | 0 <= q < |s.rounds| - 1 :: s'.rounds[q] == s.rounds[q])
            && Newest(s') == Newest(s).(evaluatedAt := Some(s.now))
  {
    q := Act(o, r, Collect);
  }

  lemma RecordedOne(o: Options, r: Run) returns (q: Run)
    requires IsRun(o, r) && Flying(Last(r)) && Current(Last(r)).phase.Folding? && 0 < |Last(r).rounds|
    requires Current(Last(r)).phase.next < |Current(Last(r)).phase.result.dependencies|
    ensures Proceeds(o, r, q) && OnlyFold(Last(r), Last(q)) && Flying(Last(q)) && Current(Last(q)).phase.Folding?
    ensures Current(Last(q)).phase.next == Current(Last(r)).phase.next + 1
    ensures Current(Last(q)).phase.result.dependencies == Current(Last(r)).phase.result.dependencies
  {
    q := Act(o, r, Record);
  }

  /** Every status is recorded. */
  lemma {:induction false} RecordedUp(o: Options, r: Run) returns (q: Run)
    requires IsRun(o, r) && Flying(Last(r)) && Current(Last(r)).phase.Folding? && 0 < |Last(r).rounds|
    requires Current(Last(r)).phase.next <= |Current(Last(r)).phase.result.dependencies|
    ensures Proceeds(o, r, q) && OnlyFold(Last(r), Last(q)) && Flying(Last(q)) && Current(Last(q)).phase.Folding?
    ensures Current(Last(q)).phase.next == |Current(Last(q)).phase.result.dependencies|
    decreases |Current(Last(r)).phase.result.dependencies| - Current(Last(r)).phase.next
  {
    q := r;
    if Current(Last(r)).phase.next < |Current(Last(r)).phase.result.dependencies| {
      q := RecordedOne(o, q);
      q := RecordedUp(o, q);
    }
  }

  lemma PublishedAndSettled(o: Options, r: Run) returns (q: Run)
    requires IsRun(o, r) && Flying(Last(r)) && Current(Last(r)).phase.Folding? && 0 < |Last(r).rounds|
    requires Current(Last(r)).phase.next == |Current(Last(r)).phase.result.dependencies|
    ensures Proceeds(o, r, q) && OnlyFold(Last(r), Last(q)) && Flying(Last(q))
    ensures var s := Last(q);
            && Current(s).phase.Settled? && Current(s).phase.source == FromRound
            && s.cached == Some(Current(s).phase.entry) && s.cached.value.round == |s.rounds| - 1
  {
    q := Act(o, r, Publish);
  }

  lemma Landing(o: Options, r: Run) returns (q: Run)
    requires IsRun(o, r) && Flying(Last(r)) && Current(Last(r)).phase.Settled?
    ensures Proceeds(o, r, q) && OnlyFlight(Last(r), Last(q)) && HasCome(Last(r), Last(q))
    ensures Last(q).rounds == Last(r).rounds && Last(q).cached == Last(r).cached
    ensures Last(q).checkRounds == Last(r).checkRounds
  {
    q := Act(o, r, Land);
  }

  /** The flight has landed, now, with what it had settled on. */
  ghost predicate HasCome(s: State, s': State) {
    && |s.flights| > 0 && |s'.flights| > 0 && Current(s).phase.Settled?
    && Current(s').phase.Landed? && Current(s').phase.at == s.now
    && Current(s').phase.entry == Current(s).phase.entry && Current(s').phase.source == Current(s).phase.source
  }

  /** The round of the flight has reached the cache, and the flight has landed with it. */
  ghost predicate CameFromRound(s: State, at: Time) {
    && 0 < |s.flights| && 0 < |s.rounds|
    && Current(s).phase.Landed? && Current(s).phase.source == FromRound && Current(s).phase.at == at
    && s.cached == Some(Current(s).phase.entry) && s.cached.value.round == |s.rounds| - 1
  }

  lemma FoldLands(o: Options, r: Run) returns (q: Run)
    requires IsRun(o, r) && Flying(Last(r)) && Current(Last(r)).phase.Folding? && 0 < |Last(r).rounds|
    requires Current(Last(r)).phase.next <= |Current(Last(r)).phase.result.dependencies|
    ensures Proceeds(o, r, q) && OnlyFold(Last(r), Last(q)) && CameFromRound(Last(q), Last(r).now)
  {
    q := RecordedUp(o, r);
    q := PublishedAndSettled(o, q);
    q := Landing(o, q);
  }

  /** The checks that are left answer, and the round is collected, folded and published, all at once. */
  lemma RoundLands(o: Options, r: Run, outcome: Option<Err>) returns (q: Run)
    requires IsRun(o, r) && ProbingNow(Last(r))
    ensures Proceeds(o, r, q) && OnlyFlight(Last(r), Last(q)) && CameFromRound(Last(q), Last(r).now)
    ensures Last(q).checkRounds == Last(r).checkRounds && |Last(q).rounds| == |Last(r).rounds|
    ensures forall p | 0 <= p < |Last(r).rounds| - 1 :: Last(q).rounds[p] == Last(r).rounds[p]
    ensures Newest(Last(q)).startedAt == Newest(Last(r)).startedAt && Newest(Last(q)).evaluatedAt == Some(Last(r).now)
    ensures |Newest(Last(q)).checks| == |o.names| == |Newest(Last(r)).checks|
    ensures forall j | 0 <= j < |o.names| ::
              Newest(Last(q)).checks[j] == Finished(o, j, Newest(Last(r)).checks[j], Last(r).now, outcome)
  {
    NewestHasASlotEach(o, r);
    q := EndChecks(o, r, 0, outcome);
    q := Collected(o, q);
    FoldBeginsInRange(o, q);
    q := FoldLands(o, q);
  }

  lemma NewestHasASlotEach(o: Options, r: Run)
    requires IsRun(o, r) && |Last(r).rounds| > 0
    ensures |Newest(Last(r)).checks| == |o.names|
  {
    RunIsSound(o, r, |r.states| - 1);
    assert RoundOk(o, Newest(Last(r)));
  }

  lemma FoldBeginsInRange(o: Options, r: Run)
    requires IsRun(o, r) && Flying(Last(r)) && Current(Last(r)).phase.Folding?
    ensures |Last(r).rounds| > 0 && Current(Last(r)).phase.next <= |Current(Last(r)).phase.result.dependencies|
  {
    RunIsSound(o, r, |r.states| - 1);
  }

  /** A flight that has missed starts its round. */
  lemma RoundStarts(o: Options, r: Run) returns (q: Run)
    requires IsRun(o, r) && Flying(Last(r)) && Current(Last(r)).phase.Missed?
    ensures Proceeds(o, r, q) && OnlyFlight(Last(r), Last(q)) && ProbingNow(Last(q))
    ensures var s, s' := Last(r), Last(q);
            && s'.cached == s.cached && s'.checkRounds == s.checkRounds + 1
            && |s'.rounds| == |s.rounds| + 1 && s.rounds <= s'.rounds
            && Newest(s').startedAt == s.now && |Newest(s').checks| == |o.names|
            && forall j | 0 <= j < |o.names| :: Newest(s').checks[j] == Unstarted
  {
    q := Act(o, r, StartRound);
  }

  /** The flight in progress can land, whatever the checks that are left answer. */
  lemma FlightLands(o: Options, r: Run, outcome: Option<Err>) returns (q: Run)
    requires IsRun(o, r) && Flying(Last(r))
    ensures Proceeds(o, r, q) && OnlyFlight(Last(r), Last(q)) && Current(Last(q)).phase.Landed?
  {
    q := PastStart(o, r);
    RunIsSound(o, q, |q.states| - 1);
    if Current(Last(q)).phase.Probing? {
      q := RoundLands(o, q, outcome);
    } else if Current(Last(q)).phase.Folding? {
      FoldBeginsInRange(o, q);
      q := FoldLands(o, q);
    } else {
      q := Landing(o, q);
    }
  }

  /** The flight starts its round, if it needs one. */
  lemma PastStart(o: Options, r: Run) returns (q: Run)
    requires IsRun(o, r) && Flying(Last(r))
    ensures Proceeds(o, r, q) && OnlyFlight(Last(r), Last(q)) && Flying(Last(q))
    ensures !Current(Last(q)).phase.Rechecking? && !Current(Last(q)).phase.Missed?
  {
    q := r;
    if Current(Last(q)).phase.Rechecking? {
      q := Rechecked(o, q);
    }
    if Current(Last(q)).phase.Missed? {
      q := RoundStarts(o, q);
    }
  }

  lemma Rechecked(o: Options, r: Run) returns (q: Run)
    requires IsRun(o, r) && Flying(Last(r)) && Current(Last(r)).phase.Rechecking?
    ensures Proceeds(o, r, q) && OnlyFlight(Last(r), Last(q)) && Flying(Last(q))
    ensures Current(Last(q)).phase.Missed? || Current(Last(q)).phase.Settled?
  {
    q := Act(o, r, Recheck);
  }

  // ---- the call ----

  /** Other calls, and the clock and the flag, are as they were. */
  ghost predicate OthersWait(s: State, s': State, c: nat) {
    && s'.now == s.now && s'.shuttingDown == s.shuttingDown && c in s.calls && s'.calls.Keys == s.calls.Keys
    && (forall d | d in s.calls && d != c :: s'.calls[d] == s.calls[d])
    && s'.calls[c].begun == s.calls[c].begun && s'.calls[c].begunAt == s.calls[c].begunAt
  }

  /** How many steps of its own the call has before it, at most. */
  function StepsLeft(pc: Pc): nat {
    match pc
    case Entered => 6
    case PastGate => 5
    case AtFlight => 4
    case InFlight => 3
    case Got(_) => 2
    case Refused => 1
    case Answered(_, _, _, _) => 0
  }

  /** The action a call takes next; one in a flight takes it when the flight has landed. */
  function NextStep(c: nat, pc: Pc): Action
    requires !pc.Answered?
  {
    match pc
    case Entered => ReadGate(c)
    case PastGate => ReadCache(c)
    case AtFlight => Join(c)
    case InFlight => Leave(c)
    case Got(_) => ReadGateAgain(c)
    case Refused => Refuse(c)
  }

  lemma StepOfCall(o: Options, r: Run, c: nat) returns (q: Run)
    requires IsRun(o, r) && c in Last(r).calls && !Last(r).calls[c].pc.Answered?
    requires Enabled(o, Last(r), NextStep(c, Last(r).calls[c].pc))
    ensures Proceeds(o, r, q) && OthersWait(Last(r), Last(q), c)
    ensures StepsLeft(Last(q).calls[c].pc) < StepsLeft(Last(r).calls[c].pc)
  {
    NextStepIsItsOwn(o, Last(r), c);
    q := Act(o, r, NextStep(c, Last(r).calls[c].pc));
  }

  lemma NextStepIsItsOwn(o: Options, s: State, c: nat)
    requires c in s.calls && !s.calls[c].pc.Answered? && Enabled(o, s, NextStep(c, s.calls[c].pc))
    ensures var s' := Next(o, s, NextStep(c, s.calls[c].pc));
            OthersWait(s, s', c) && StepsLeft(s'.calls[c].pc) < StepsLeft(s.calls[c].pc)
  {
    NextStepLeavesOthers(o, s, c);
  }

  lemma NextStepLeavesOthers(o: Options, s: State, c: nat)
    requires c in s.calls && !s.calls[c].pc.Answered? && Enabled(o, s, NextStep(c, s.calls[c].pc))
    ensures OthersWait(s, Next(o, s, NextStep(c, s.calls[c].pc)), c)
  {}

  /** The flight a call waits in lands. */
  lemma FlightOfCallLands(o: Options, r: Run, c: nat, outcome: Option<Err>) returns (q: Run)
    requires IsRun(o, r) && c in Last(r).calls && Last(r).calls[c].pc.InFlight?
    ensures Proceeds(o, r, q) && OthersWait(Last(r), Last(q), c) && Last(q).calls[c] == Last(r).calls[c]
    ensures Enabled(o, Last(q), Leave(c))
  {
    var s := Last(r);
    RunIsSound(o, r, |r.states| - 1);
    assert CallOk(o, s, s.calls[c]);
    assert FlightOk(o, s, s.calls[c].joined.value);
    q := r;
    if !s.flights[s.calls[c].joined.value].phase.Landed? {
      q := FlightLands(o, r, outcome);
    }
  }

  /**
   Every open call can be answered at the present instant, whatever the checks still to answer in its
   flight answer.
   */
  lemma {:induction false} EveryCallCanReturn(o: Options, r: Run, c: nat, outcome: Option<Err>) returns (q: Run)
    requires IsRun(o, r) && c in Last(r).calls
    ensures Proceeds(o, r, q) && AnsweredIn(o, q, c) && OthersWait(Last(r), Last(q), c)
    decreases StepsLeft(Last(r).calls[c].pc)
  {
    q := r;
    if !Last(r).calls[c].pc.Answered? {
      if Last(r).calls[c].pc.InFlight? {
        q := FlightOfCallLands(o, q, c, outcome);
      }
      q := StepOfCall(o, q, c);
      q := EveryCallCanReturn(o, q, c, outcome);
    }
  }

  /** So can any number of them, one after another. */
  lemma {:induction false} CallsCanReturn(o: Options, r: Run, open: set<nat>, outcome: Option<Err>) returns (q: Run)
    requires IsRun(o, r) && open <= Last(r).calls.Keys
    ensures Proceeds(o, r, q) && Last(q).calls.Keys == Last(r).calls.Keys
    ensures Last(q).now == Last(r).now && Last(q).shuttingDown == Last(r).shuttingDown
    ensures forall c | c in open :: Last(q).calls[c].pc.Answered?
    ensures forall c | c in Last(r).calls && c !in open :: Last(q).calls[c] == Last(r).calls[c]
    decreases |open|
  {
    q := r;
    if open != {} {
      var c :| c in open;
      q := EveryCallCanReturn(o, q, c, outcome);
      q := CallsCanReturn(o, q, open - {c}, outcome);
    }
  }
}

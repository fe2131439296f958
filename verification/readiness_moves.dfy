/**
 That calls do finish: from any state only so many moves can follow one another without the clock, a
 new call or the flag, and where none is possible every call has been answered.
 */
module ReadinessMoves {
  import opened Prelude
  import opened Aggregate
  import opened Readiness
  import opened ReadinessCore
  import opened ReadinessLinks
  import opened ReadinessHistory
  import opened ReadinessTheorems
  import opened ReadinessProgress

  // ---- the work that is left ----

  function CheckWork(check: Check): nat {
    match check
    case Unstarted => 2
    case Running(_) => 1
    case Returned(_, _, _, _) => 0
  }

  function ChecksWork(checks: seq<Check>): nat {
    if checks == [] then 0 else CheckWork(checks[0]) + ChecksWork(checks[1..])
  }

  /** What the function of a flight has before it: its reads, two moves and a record a checker, and its landing. */
  function FlightWork(o: Options, s: State): nat {
    if !Flying(s) then 0
    else
      match Current(s).phase
      case Rechecking => 3 * |o.names| + 5
      case Missed => 3 * |o.names| + 4
      case Probing => if |s.rounds| > 0 then |Newest(s).checks| + 3 + ChecksWork(Newest(s).checks) else 0
      case Folding(result, k) => 2 + if k <= |result.dependencies| then |result.dependencies| - k else 0
      case Settled(_, _) => 1
      case Landed(_, _, _, _) => 0
  }

  /** What a call has before it, with the flight it may yet have to lead. */
  function CallWork(o: Options, pc: Pc): nat {
    StepsLeft(pc) + if pc.Entered? || pc.PastGate? || pc.AtFlight? then 3 * |o.names| + 5 else 0
  }

  ghost function CallsWork(o: Options, calls: map<nat, Call>): nat {
    if calls == map[] then 0
    else
      var c :| c in calls;
      CallWork(o, calls[c].pc) + CallsWork(o, calls - {c})
  }

  /** How many moves can follow, at most. */
  ghost function MovesLeft(o: Options, s: State): nat {
    FlightWork(o, s) + CallsWork(o, s.calls)
  }

  // ---- sums ----

  lemma {:induction false} ChecksWorkAt(checks: seq<Check>, i: nat, check: Check)
    requires i < |checks|
    ensures ChecksWork(checks[i := check]) == ChecksWork(checks) - CheckWork(checks[i]) + CheckWork(check)
  {
    if i == 0 {
      assert checks[i := check][1..] == checks[1..];
    } else {
      ChecksWorkAt(checks[1..], i - 1, check);
      assert checks[i := check][1..] == checks[1..][i - 1 := check];
    }
  }

  lemma {:induction false} UnstartedWork(checks: seq<Check>)
    requires forall i | 0 <= i < |checks| :: checks[i].Unstarted?
    ensures ChecksWork(checks) == 2 * |checks|
  {
    if checks != [] {
      UnstartedWork(checks[1..]);
    }
  }

  lemma {:induction false} CallsWorkWithout(o: Options, calls: map<nat, Call>, c: nat)
    requires c in calls
    ensures CallsWork(o, calls) == CallWork(o, calls[c].pc) + CallsWork(o, calls - {c})
    decreases |calls|
  {
    var d :| d in calls && CallsWork(o, calls) == CallWork(o, calls[d].pc) + CallsWork(o, calls - {d});
    if d != c {
      CallsWorkWithout(o, calls - {d}, c);
      CallsWorkWithout(o, calls - {c}, d);
      assert calls - {d} - {c} == calls - {c} - {d};
    }
  }

  lemma CallsWorkAt(o: Options, calls: map<nat, Call>, c: nat, call: Call)
    requires c in calls
    ensures CallsWork(o, calls[c := call]) == CallsWork(o, calls) - CallWork(o, calls[c].pc) + CallWork(o, call.pc)
  {
    CallsWorkWithout(o, calls, c);
    CallsWorkWithout(o, calls[c := call], c);
    assert calls[c := call] - {c} == calls - {c};
  }

  // ---- every move uses up work ----

  lemma CheckMoveUsesWork(o: Options, s: State, a: Action)
    requires Enabled(o, s, a) && (a.StartCheck? || a.FinishCheck?)
    ensures FlightWork(o, Next(o, s, a)) < FlightWork(o, s) && Next(o, s, a).calls == s.calls
  {
    var s' := Next(o, s, a);
    ChecksWorkAt(Newest(s).checks, a.i, Newest(s').checks[a.i]);
  }

  lemma StartRoundUsesWork(o: Options, s: State)
    requires Enabled(o, s, StartRound)
    ensures FlightWork(o, Next(o, s, StartRound)) < FlightWork(o, s) && Next(o, s, StartRound).calls == s.calls
  {
    UnstartedWork(Newest(Next(o, s, StartRound)).checks);
  }

  lemma PhaseMoveUsesWork(o: Options, s: State, a: Action)
    requires Enabled(o, s, a) && (a.Recheck? || a.Collect? || a.Record? || a.Publish? || a.Land?)
    ensures FlightWork(o, Next(o, s, a)) < FlightWork(o, s) && Next(o, s, a).calls == s.calls
  {}

  /** A call that joins pays for the flight it may have to lead. */
  lemma JoinUsesWork(o: Options, s: State, c: nat)
    requires Enabled(o, s, Join(c))
    ensures MovesLeft(o, Next(o, s, Join(c))) < MovesLeft(o, s)
  {
    var s' := Next(o, s, Join(c));
    CallsWorkAt(o, s.calls, c, s'.calls[c]);
    assert FlightWork(o, s') <= FlightWork(o, s) + 3 * |o.names| + 5;
  }

  lemma CallMoveUsesWork(o: Options, s: State, a: Action, c: nat)
    requires Enabled(o, s, a) && Mover(a) == Some(c) && !a.Join?
    ensures MovesLeft(o, Next(o, s, a)) < MovesLeft(o, s)
  {
    var s' := Next(o, s, a);
    CallMoveShape(o, s, a, c);
    CallsWorkAt(o, s.calls, c, s'.calls[c]);
  }

  lemma CallMoveShape(o: Options, s: State, a: Action, c: nat)
    requires Enabled(o, s, a) && Mover(a) == Some(c) && !a.Join?
    ensures c in s.calls
    ensures var s' := Next(o, s, a);
            && s'.flights == s.flights && s'.rounds == s.rounds && c in s'.calls
            && s'.calls == s.calls[c := s'.calls[c]]
            && CallWork(o, s'.calls[c].pc) < CallWork(o, s.calls[c].pc)
  {}

  lemma MoveUsesWork(o: Options, s: State, a: Action)
    requires Enabled(o, s, a) && IsMove(a)
    ensures MovesLeft(o, Next(o, s, a)) < MovesLeft(o, s)
  {
    if a.Join? {
      JoinUsesWork(o, s, a.c);
    } else if Mover(a).Some? {
      CallMoveUsesWork(o, s, a, Mover(a).value);
    } else if a.StartCheck? || a.FinishCheck? {
      CheckMoveUsesWork(o, s, a);
    } else if a.StartRound? {
      StartRoundUsesWork(o, s);
    } else {
      PhaseMoveUsesWork(o, s, a);
    }
  }

  /** All actions of the run from i on are moves. */
  ghost predicate MovesFrom(r: Run, i: nat) {
    forall k | i <= k < |r.actions| :: IsMove(r.actions[k])
  }

  /** No more moves follow a state than the work that is left in it. */
  lemma {:induction false} MovesAreFinite(o: Options, r: Run, i: nat)
    requires IsRun(o, r) && i <= |r.actions| && MovesFrom(r, i)
    ensures |r.actions| - i <= MovesLeft(o, r.states[i])
    decreases |r.actions| - i
  {
    if i < |r.actions| {
      MovesAreFinite(o, r, i + 1);
      assert Took(o, r, i);
      MoveUsesWork(o, r.states[i], r.actions[i]);
    }
  }

  // ---- until the work is done ----

  /** The flight in progress always has a move. */
  lemma FlightHasAMove(o: Options, s: State) returns (a: Action)
    requires Core(o, s) && Flying(s)
    ensures IsMove(a) && Enabled(o, s, a)
  {
    match Current(s).phase
    case Rechecking => a := Recheck;
    case Missed => a := StartRound;
    case Probing => a := ProbeHasAMove(o, s);
    case Folding(result, k) => a := if k < |result.dependencies| then Record else Publish;
    case Settled(_, _) => a := Land;
  }

  lemma ProbeHasAMove(o: Options, s: State) returns (a: Action)
    requires Core(o, s) && Flying(s) && Current(s).phase.Probing?
    ensures IsMove(a) && Enabled(o, s, a)
  {
    assert RoundOk(o, Newest(s));
    if AllReturned(Newest(s).checks) {
      a := Collect;
    } else {
      var i :| 0 <= i < |Newest(s).checks| && !Newest(s).checks[i].Returned?;
      a := if Newest(s).checks[i].Unstarted? then StartCheck(i) else FinishCheck(i, None);
    }
  }

  /** So where a call is open there is a move. */
  lemma OpenCallsHaveAMove(o: Options, s: State, c: nat) returns (a: Action)
    requires Core(o, s) && Links(o, s) && c in s.calls && !s.calls[c].pc.Answered?
    ensures IsMove(a) && Enabled(o, s, a)
  {
    assert CallOk(o, s, s.calls[c]);
    if s.calls[c].pc.InFlight? && !HasLanded(s, s.calls[c]) {
      assert FlightOk(o, s, s.calls[c].joined.value);
      a := FlightHasAMove(o, s);
    } else {
      a := NextStep(c, s.calls[c].pc);
    }
  }

  /** No move is possible. */
  ghost predicate IsStill(o: Options, s: State) {
    forall a: Action | IsMove(a) :: !Enabled(o, s, a)
  }

  /**
   However the scheduler orders the moves: when they stop, as they must, every call has been answered,
   at the instant they began.
   */
  lemma MovesAnswerEveryCall(o: Options, r: Run, i: nat)
    requires IsRun(o, r) && i <= |r.actions| && MovesFrom(r, i) && IsStill(o, Last(r))
    ensures |r.actions| - i <= MovesLeft(o, r.states[i])
    ensures Last(r).now == r.states[i].now
    ensures forall c | c in r.states[i].calls :: c in Last(r).calls && Last(r).calls[c].pc.Answered?
    ensures !Flying(Last(r))
  {
    MovesAreFinite(o, r, i);
    MovesTakeNoTime(o, r, i);
    RunExtends(o, r, i, |r.states| - 1);
    RunIsSound(o, r, |r.states| - 1);
    forall c | c in Last(r).calls ensures Last(r).calls[c].pc.Answered? {
      if !Last(r).calls[c].pc.Answered? {
        var a := OpenCallsHaveAMove(o, Last(r), c);
      }
    }
    if Flying(Last(r)) {
      var a := FlightHasAMove(o, Last(r));
    }
  }

  lemma {:induction false} MovesTakeNoTime(o: Options, r: Run, i: nat)
    requires IsRun(o, r) && i <= |r.actions| && MovesFrom(r, i)
    ensures Last(r).now == r.states[i].now
    decreases |r.actions| - i
  {
    if i < |r.actions| {
      MovesTakeNoTime(o, r, i + 1);
      assert Took(o, r, i);
      MoveTakesNoTime(o, r.states[i], r.actions[i]);
    }
  }

  lemma MoveTakesNoTime(o: Options, s: State, a: Action)
    requires Enabled(o, s, a) && IsMove(a)
    ensures Next(o, s, a).now == s.now
  {}
}

/** Exactly which calls report a shutdown that begins while they run. */
module ReadinessGate {
  import opened Prelude
  import opened Aggregate
  import opened Readiness
  import opened ReadinessLinks
  import opened ReadinessHistory
  import opened ReadinessTheorems

  predicate IsGateRead(a: Action, c: nat) {
    a == ReadGate(c) || a == ReadGateAgain(c)
  }

  /** Action m of the run is a gate read of the call. */
  ghost predicate ReadsGate(r: Run, c: nat, m: nat) {
    m < |r.actions| && IsGateRead(r.actions[m], c)
  }

  // ---- what a call's record says about the actions of the run ----

  lemma ActionAndCall(o: Options, s: State, a: Action, c: nat)
    requires Enabled(o, s, a) && c in s.calls
    ensures c in Next(o, s, a).calls
    ensures var was, now := s.calls[c], Next(o, s, a).calls[c];
            if IsGateRead(a, c) then now.gateAt == s.step && !now.pc.Entered?
            else now.gateAt == was.gateAt && now.pc.Entered? == was.pc.Entered?
  {
    if Mover(a) != Some(c) {
      OthersStay(o, s, a, c);
    }
  }

  lemma RunAction(o: Options, r: Run, k: nat)
    requires IsRun(o, r) && k < |r.actions|
    ensures k + 1 < |r.states| && r.states[k].step == k
    ensures Enabled(o, r.states[k], r.actions[k]) && r.states[k + 1] == Next(o, r.states[k], r.actions[k])
  {
    assert Took(o, r, k);
    StepsAreCounted(o, r, k);
  }

  lemma StepsAreCounted(o: Options, r: Run, k: nat)
    requires IsRun(o, r) && k < |r.states|
    ensures r.states[k].step == k
  {
    RunIsSound(o, r, k);
  }

  lemma RunKeepsLinks(o: Options, r: Run, k: nat)
    requires IsRun(o, r) && k < |r.states|
    ensures Links(o, r.states[k])
  {
    RunIsSound(o, r, k);
  }

  lemma NotYetReading(o: Options, r: Run, m: nat, k: nat, c: nat)
    requires IsRun(o, r) && m <= k < |r.states| && c !in r.states[k].calls
    ensures !ReadsGate(r, c, m)
  {
    RunExtends(o, r, m, k);
    if m < |r.actions| {
      RunAction(o, r, m);
    }
  }

  ghost predicate IsLastRead(r: Run, k: nat, c: nat, call: Call) {
    if call.pc.Entered? then forall m | 0 <= m < k :: !ReadsGate(r, c, m)
    else call.gateAt < k && ReadsGate(r, c, call.gateAt) && forall m | call.gateAt < m < k :: !ReadsGate(r, c, m)
  }

  /** What a call records as its latest gate read is the last of its reads. */
  lemma {:induction false} GateAtIsTheLastRead(o: Options, r: Run, k: nat, c: nat)
    requires IsRun(o, r) && k < |r.states| && c in r.states[k].calls
    ensures IsLastRead(r, k, c, r.states[k].calls[c])
    decreases k
  {
    if k > 0 {
      RunAction(o, r, k - 1);
      if c in r.states[k - 1].calls {
        GateAtIsTheLastRead(o, r, k - 1, c);
        ActionAndCall(o, r.states[k - 1], r.actions[k - 1], c);
      } else {
        NewCallIsEntering(o, r.states[k - 1], r.actions[k - 1], c);
        forall m | 0 <= m < k ensures !ReadsGate(r, c, m) {
          NotYetReading(o, r, m, k - 1, c);
        }
      }
    }
  }

  function AnsweringAction(c: nat, via: Via): Action {
    match via
    case OuterCache(_) => ReadCache(c)
    case SharedFlight(_) => ReadGateAgain(c)
    case Gate => Refuse(c)
  }

  lemma AnswerOfAction(o: Options, s: State, a: Action, c: nat)
    requires Enabled(o, s, a) && c in Next(o, s, a).calls && Next(o, s, a).calls[c].pc.Answered?
    ensures var call := Next(o, s, a).calls[c];
            || (c in s.calls && s.calls[c] == call)
            || (call.pc.answered == s.step && a == AnsweringAction(c, call.pc.via))
  {
    if c in s.calls && Mover(a) != Some(c) {
      OthersStay(o, s, a, c);
    }
  }

  /** A call answers in the action that its way of answering names. */
  lemma {:induction false} AnsweredByItsAction(o: Options, r: Run, k: nat, c: nat)
    requires IsRun(o, r) && k < |r.states| && c in r.states[k].calls && r.states[k].calls[c].pc.Answered?
    ensures var pc := r.states[k].calls[c].pc;
            && pc.answered < k <= |r.actions| && r.actions[pc.answered] == AnsweringAction(c, pc.via)
            && c in r.states[pc.answered + 1].calls && r.states[pc.answered + 1].calls[c] == r.states[k].calls[c]
    decreases k
  {
    if k > 0 {
      RunAction(o, r, k - 1);
      AnswerOfAction(o, r.states[k - 1], r.actions[k - 1], c);
      if c in r.states[k - 1].calls && r.states[k - 1].calls[c] == r.states[k].calls[c] {
        AnsweredByItsAction(o, r, k - 1, c);
      }
    }
  }

  /** The call has read the gate on its way in, and not again. */
  ghost predicate HasReadOnce(call: Call) {
    match call.pc
    case PastGate => true
    case Refused => call.joined.None?
    case Answered(_, via, _, _) => via.OuterCache? || (via.Gate? && call.joined.None?)
    case _ => false
  }

  lemma ActionAndFirstRead(o: Options, s: State, a: Action, c: nat)
    requires Links(o, s) && Enabled(o, s, a) && c in Next(o, s, a).calls && HasReadOnce(Next(o, s, a).calls[c])
    ensures c in s.calls
    ensures var was, now := s.calls[c], Next(o, s, a).calls[c];
            || (a == ReadGate(c) && now.gateAt == s.step == now.admitted)
            || (HasReadOnce(was) && now.gateAt == was.gateAt && now.admitted == was.admitted)
  {
    if c in s.calls {
      assert CallOk(o, s, s.calls[c]);
      if Mover(a) != Some(c) { OthersStay(o, s, a, c); }
    }
  }

  /** A call refused at once or answered by the outer cache has read the gate only on its way in. */
  lemma {:induction false} EntryReadIsTheOnly(o: Options, r: Run, k: nat, c: nat)
    requires IsRun(o, r) && k < |r.states| && c in r.states[k].calls && HasReadOnce(r.states[k].calls[c])
    ensures var m := r.states[k].calls[c].gateAt; m < k <= |r.actions| && r.actions[m] == ReadGate(c)
    ensures r.states[k].calls[c].admitted == r.states[k].calls[c].gateAt
    decreases k
  {
    if k > 0 {
      RunAction(o, r, k - 1);
      RunKeepsLinks(o, r, k - 1);
      ActionAndFirstRead(o, r.states[k - 1], r.actions[k - 1], c);
      if r.actions[k - 1] != ReadGate(c) || r.states[k].calls[c].gateAt != k - 1 {
        EntryReadIsTheOnly(o, r, k - 1, c);
      }
    }
  }

  lemma ActionAndAdmission(o: Options, s: State, a: Action, c: nat)
    requires Enabled(o, s, a) && c in Next(o, s, a).calls && !Next(o, s, a).calls[c].pc.Entered?
    ensures c in s.calls
    ensures || (a == ReadGate(c) && Next(o, s, a).calls[c].admitted == s.step)
            || (!s.calls[c].pc.Entered? && Next(o, s, a).calls[c].admitted == s.calls[c].admitted)
  {
    if c in s.calls && Mover(a) != Some(c) {
      OthersStay(o, s, a, c);
    }
  }

  /** What a call records as its first gate read is its ReadGate. */
  lemma {:induction false} AdmittedIsItsFirstRead(o: Options, r: Run, k: nat, c: nat)
    requires IsRun(o, r) && k < |r.states| && c in r.states[k].calls && !r.states[k].calls[c].pc.Entered?
    ensures var m := r.states[k].calls[c].admitted; m < k <= |r.actions| && r.actions[m] == ReadGate(c)
    decreases k
  {
    if k > 0 {
      RunAction(o, r, k - 1);
      ActionAndAdmission(o, r.states[k - 1], r.actions[k - 1], c);
      if r.actions[k - 1] != ReadGate(c) || r.states[k].calls[c].admitted != k - 1 {
        AdmittedIsItsFirstRead(o, r, k - 1, c);
      }
    }
  }

  // ---- which calls report it ----

  /** The flag is set by action b of the run. */
  ghost predicate SetsFlag(r: Run, b: nat) {
    b + 1 < |r.states| && !r.states[b].shuttingDown && r.states[b + 1].shuttingDown
  }

  lemma FlagAt(o: Options, r: Run, b: nat, m: nat)
    requires IsRun(o, r) && SetsFlag(r, b) && m < |r.states|
    ensures r.states[m].shuttingDown <==> b < m
  {
    if b < m {
      FlagIsOneWay(o, r, b + 1, m);
    } else if r.states[m].shuttingDown {
      FlagIsOneWay(o, r, m, b);
    }
  }

  /** A call reports the shutdown exactly when it reads the gate after the flag is set. */
  lemma ShutdownIsSeenByLaterReads(o: Options, r: Run, c: nat, b: nat)
    requires AnsweredIn(o, r, c) && SetsFlag(r, b)
    ensures AnswerOf(r, c).shuttingDown <==> exists m :: b < m && ReadsGate(r, c, m)
  {
    Recall(o, r, c);
    var call := Last(r).calls[c];
    FlagAt(o, r, b, call.gateAt);
    GateAtIsTheLastRead(o, r, |r.states| - 1, c);
    assert IsLastRead(r, |r.actions|, c, call);
  }

  /**
   Of the calls that are still open when the flag is set, exactly those answered by a hit of the outer
   cache do not report it. They had read the gate before, and do not read it again.
   */
  lemma OnlyOuterHitsMissTheShutdown(o: Options, r: Run, c: nat, b: nat)
    requires AnsweredIn(o, r, c) && SetsFlag(r, b) && b < Last(r).calls[c].pc.answered
    ensures var m := Last(r).calls[c].pc.answered;
            && m < |r.actions| && (!AnswerOf(r, c).shuttingDown <==> r.actions[m] == ReadCache(c))
            && (r.actions[m] == ReadCache(c) ==>
                  CacheHit(o, r.states[m]) && exists n: nat :: n < b < |r.actions| && r.actions[n] == ReadGate(c))
  {
    var call := Last(r).calls[c];
    AnsweredByItsAction(o, r, |r.states| - 1, c);
    SharedFlightsReadAgain(o, r, c, b);
    if call.pc.via.OuterCache? {
      OuterHitsReadBefore(o, r, c, b);
    } else {
      Recall(o, r, c);
    }
  }

  lemma SharedFlightsReadAgain(o: Options, r: Run, c: nat, b: nat)
    requires AnsweredIn(o, r, c) && SetsFlag(r, b) && b < Last(r).calls[c].pc.answered
    ensures !Last(r).calls[c].pc.via.SharedFlight?
  {
    Recall(o, r, c);
    var call := Last(r).calls[c];
    FlagAt(o, r, b, call.gateAt);
    AnsweredByItsAction(o, r, |r.states| - 1, c);
    GateAtIsTheLastRead(o, r, |r.states| - 1, c);
    assert call.pc.via.SharedFlight? ==> ReadsGate(r, c, call.pc.answered);
  }

  lemma OuterHitsReadBefore(o: Options, r: Run, c: nat, b: nat)
    requires AnsweredIn(o, r, c) && SetsFlag(r, b) && Last(r).calls[c].pc.via.OuterCache?
    ensures var n := Last(r).calls[c].gateAt; n < b < |r.actions| && r.actions[n] == ReadGate(c)
    ensures !AnswerOf(r, c).shuttingDown
    ensures var m := Last(r).calls[c].pc.answered; m < |r.states| && CacheHit(o, r.states[m])
  {
    Recall(o, r, c);
    FlagAt(o, r, b, Last(r).calls[c].gateAt);
    EntryReadIsTheOnly(o, r, |r.states| - 1, c);
    RunAction(o, r, b);
  }
}

/** That the process can stop: wherever it serves, a signal can bring it to a clean end. */
module ProcessProgress {
  import opened Prelude
  import opened Aggregate
  import opened Readiness
  import opened ReadinessTheorems
  import opened ReadinessProgress
  import opened Process

  function Latest(h: History): Proc
    requires |h.states| > 0
  {
    h.states[|h.states| - 1]
  }

  ghost predicate GoesOn(o: Options, h: History, g: History) {
    IsHistory(o, h) && IsHistory(o, g) && h.states <= g.states && h.events <= g.events
  }

  lemma Happen(o: Options, h: History, e: Process.Event) returns (g: History)
    requires IsHistory(o, h) && CanHappen(o, Latest(h), e)
    ensures GoesOn(o, h, g) && Latest(g) == Then(o, Latest(h), e) && g.events == h.events + [e]
  {
    g := History(h.states + [Then(o, Latest(h), e)], h.events + [e]);
    assert g.states[0] == h.states[0];
    forall k | 0 <= k < |g.events| ensures Happened(o, g, k) {
      if k < |h.events| { assert Happened(o, h, k); }
    }
  }

  /** All but the readiness protocol and the clients is as it was. */
  ghost predicate OnlyReadiness(p: Proc, q: Proc) {
    q == p.(ready := q.ready, clients := q.clients) && |q.clients| == |p.clients|
  }

  lemma MoveHappens(o: Options, h: History, a: Action) returns (g: History)
    requires IsHistory(o, h) && Latest(h).alive && Enabled(o, Latest(h).ready, a) && IsMove(a)
    ensures GoesOn(o, h, g) && OnlyReadiness(Latest(h), Latest(g)) && Latest(g).ready == Next(o, Latest(h).ready, a)
  {
    HistoryKeepsOrder(o, h, |h.states| - 1);
    g := Happen(o, h, Step(a, None));
  }

  /** What the readiness protocol can do by moves alone the process can do. */
  lemma {:induction false} MovesHappen(o: Options, h: History, r: Run, k: nat) returns (g: History)
    requires IsHistory(o, h) && Latest(h).alive && IsRun(o, r) && k <= |r.actions| && Latest(h).ready == r.states[k]
    requires forall j | k <= j < |r.actions| :: IsMove(r.actions[j])
    ensures GoesOn(o, h, g) && OnlyReadiness(Latest(h), Latest(g)) && Latest(g).ready == Last(r)
    decreases |r.actions| - k
  {
    g := h;
    if k < |r.actions| {
      assert Took(o, r, k);
      g := MoveHappens(o, g, r.actions[k]);
      g := MovesHappen(o, g, r, k + 1);
    }
  }

  /** Every handler can finish. */
  lemma HandlersFinish(o: Options, h: History) returns (g: History)
    requires IsHistory(o, h) && Latest(h).alive
    ensures GoesOn(o, h, g) && OnlyReadiness(Latest(h), Latest(g)) && NoHandlerActive(Latest(g).ready)
  {
    var r := ReadinessRuns(o, h, |h.states| - 1);
    var q := CallsCanReturn(o, r, Last(r).calls.Keys, None);
    assert q.states[|r.actions|] == Last(r);
    g := MovesHappen(o, h, q, |r.actions|);
  }

  /** The steps of the shutdown so far have succeeded, and the next is about to start. */
  ghost predicate IsBefore(p: Proc, step: nat) {
    && p.alive && p.shutdown.Some?
    && var s := p.shutdown.value;
       && s.runner == L.Between(step) && s.select.Selecting? && s.exits == [] && s.steps == STEPS
       && s.done.None? && |s.results| == step && L.AllNil(s.results)
  }

  ghost predicate IsWithin(p: Proc, step: nat) {
    && p.alive && p.shutdown.Some?
    && var s := p.shutdown.value;
       && s.runner == L.Within(step) && s.select.Selecting? && s.exits == [] && s.steps == STEPS
       && s.done.None? && |s.results| == step && L.AllNil(s.results)
  }

  lemma StepStarts(o: Options, h: History, step: nat) returns (g: History)
    requires IsHistory(o, h) && IsBefore(Latest(h), step) && step < STEPS
    ensures GoesOn(o, h, g) && IsWithin(Latest(g), step)
    ensures Latest(g).closing == Latest(h).closing && Latest(g).closed == Latest(h).closed
    ensures Latest(g).clients == Latest(h).clients && Latest(g).ready == Latest(h).ready
  {
    g := Happen(o, h, Life(L.StartStep));
  }

  lemma StepSucceeds(o: Options, h: History, step: nat) returns (g: History)
    requires IsHistory(o, h) && IsWithin(Latest(h), step) && step < STEPS
    requires step == 1 ==> NoHandlerActive(Latest(h).ready)
    requires step == 2 ==> Latest(h).closed == |Latest(h).clients|
    ensures GoesOn(o, h, g) && IsBefore(Latest(g), step + 1)
    ensures Latest(g).closing == Latest(h).closing && Latest(g).closed == Latest(h).closed
    ensures Latest(g).clients == Latest(h).clients
  {
    g := Happen(o, h, Life(L.FinishStep(None)));
  }

  /** The clients are closed one after another. */
  lemma {:induction false} ClientsClose(o: Options, h: History) returns (g: History)
    requires IsHistory(o, h) && IsWithin(Latest(h), 2)
    requires Latest(h).closing == Latest(h).closed <= |Latest(h).clients|
    ensures GoesOn(o, h, g) && IsWithin(Latest(g), 2) && Latest(g).closed == |Latest(g).clients|
    decreases |Latest(h).clients| - Latest(h).closed
  {
    g := h;
    if Latest(g).closed < |Latest(g).clients| {
      g := Happen(o, g, BeginClose);
      g := Happen(o, g, EndClose);
      g := ClientsClose(o, g);
    }
  }

  lemma GateAndDrain(o: Options, h: History) returns (g: History)
    requires IsHistory(o, h) && IsBefore(Latest(h), 0)
    ensures GoesOn(o, h, g) && IsBefore(Latest(g), 2)
    ensures Latest(g).closing == Latest(h).closing && Latest(g).closed == Latest(h).closed
  {
    g := StepStarts(o, h, 0);
    g := StepSucceeds(o, g, 0);
    g := StepStarts(o, g, 1);
    g := HandlersFinish(o, g);
    g := StepSucceeds(o, g, 1);
  }

  /** The third step closes the clients, and Shutdown returns. */
  lemma CloseAndReturn(o: Options, h: History) returns (g: History)
    requires IsHistory(o, h) && IsBefore(Latest(h), 2)
    requires Latest(h).closing == Latest(h).closed <= |Latest(h).clients|
    ensures GoesOn(o, h, g) && Latest(g).shutdown.Some? && L.Completed(Latest(g).shutdown.value)
  {
    g := StepStarts(o, h, 2);
    g := ClientsClose(o, g);
    g := StepSucceeds(o, g, 2);
    g := ReportAndReturn(o, g);
  }

  lemma ReportAndReturn(o: Options, h: History) returns (g: History)
    requires IsHistory(o, h) && IsBefore(Latest(h), STEPS)
    ensures GoesOn(o, h, g) && Latest(g).shutdown.Some? && L.Completed(Latest(g).shutdown.value)
  {
    g := Happen(o, h, Life(L.Report));
    g := Happen(o, g, Life(L.TakeDone));
  }

  lemma SignalArrives(o: Options, h: History, grace: Time) returns (g: History)
    requires IsHistory(o, h) && Latest(h).alive && Latest(h).server == Serving && Latest(h).shutdown.None?
    ensures GoesOn(o, h, g) && IsBefore(Latest(g), 0) && Latest(g).closing == Latest(g).closed == 0
    ensures g.events == h.events + [FirstSignal(grace)]
  {
    HistoryKeepsOrder(o, h, |h.states| - 1);
    g := Happen(o, h, FirstSignal(grace));
  }

  /** From any state in which the process serves, a signal can bring it to a clean end. */
  lemma CleanStopIsPossible(o: Options, h: History, grace: Time) returns (g: History)
    requires IsHistory(o, h) && Latest(h).alive && Latest(h).server == Serving && Latest(h).shutdown.None?
    ensures GoesOn(o, h, g) && Latest(g).shutdown.Some? && L.Completed(Latest(g).shutdown.value)
    ensures h.events + [FirstSignal(grace)] <= g.events
  {
    g := SignalArrives(o, h, grace);
    g := GateAndDrain(o, g);
    g := CloseAndReturn(o, g);
  }

  /** So some history of every process ends cleanly. */
  lemma ProcessesEndCleanly(o: Options, now: Time, grace: Time) returns (h: History)
    ensures IsHistory(o, h) && Latest(h).shutdown.Some? && L.Completed(Latest(h).shutdown.value)
  {
    h := History([Boot(o, now)], []);
    h := Happen(o, h, Listen);
    h := CleanStopIsPossible(o, h, grace);
  }
}

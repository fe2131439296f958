/**
 cmd/api/main.go (and the worker, which is wired alike): the readiness aggregator, the HTTP server,
 the lazily built clients and the ordered shutdown as one process. A request handler is a call of
 Evaluate; the server accepts none once its Shutdown has returned nil, which it does only when no
 handler is active. That is http.Server's own contract and an assumption here.
 */
module Process {
  import opened Prelude
  import opened Checker
  import opened Aggregate
  import opened Clients
  import opened Readiness
  import opened ReadinessCore
  import opened ReadinessLinks
  import opened ReadinessHistory
  import opened ReadinessUrgent
  import G = ReadinessProgress
  import T = ReadinessTheorems
  import opened ReadinessMetrics
  import L = Lifecycle

  datatype Server = Starting | Serving | Draining | Drained

  /** Clients below `closed` have been closed; the one at `closed` is being closed when closing > closed. */
  datatype Proc = Proc(
    ready: State,
    clients: seq<Lazy>,
    server: Server,
    closing: nat,
    closed: nat,
    shutdown: Option<L.Shutdown>,
    alive: bool)

  datatype Event =
    | Step(a: Action, build: Option<Err>)  // one action of the readiness protocol
    | Abort                                // a signal before the listener opens
    | Listen
    | ServerFails                          // ListenAndServe returns an error
    | FirstSignal(grace: Time)
    | Life(e: L.Event)                     // one event of lifecycle.Shutdown
    | BeginClose
    | EndClose

  const STEPS := 3
  const WIRED_NAMES: seq<string> := ["kafka", "clickhouse", "redis"]

  function Boot(o: Options, now: Time): Proc {
    Proc(Init(o, now), seq(|o.names|, _ => UNBUILT), Starting, 0, 0, None, true)
  }

  predicate NoHandlerActive(s: State) {
    forall c | c in s.calls :: s.calls[c].pc.Answered?
  }

  predicate RunnerAt(p: Proc, r: L.Runner) {
    p.shutdown.Some? && p.shutdown.value.runner == r
  }

  /** What each of the three steps of main.go needs before it can return. */
  predicate StepMayFinish(p: Proc, err: Option<L.Error>) {
    && (RunnerAt(p, L.Within(0)) ==> err.None?)
    && (RunnerAt(p, L.Within(1)) && err.None? ==> NoHandlerActive(p.ready))
    && (RunnerAt(p, L.Within(2)) ==> p.closed == |p.clients|)
  }

  predicate CanHappen(o: Options, p: Proc, e: Event) {
    p.alive &&
    match e
    case Step(a, _) =>
      && Enabled(o, p.ready, a) && !a.BeginShutdown?
      && (a.Enter? ==> p.server == Serving || p.server == Draining)
      && (a.StartCheck? ==> a.i < |p.clients|)
    case Abort => p.server == Starting
    case Listen => p.server == Starting
    case ServerFails => p.server == Serving && p.shutdown.None?
    case FirstSignal(_) => p.server == Serving && p.shutdown.None?
    case Life(le) =>
      && p.shutdown.Some? && !le.Tick? && L.Possible(p.shutdown.value, le)
      && (le.FinishStep? ==> StepMayFinish(p, le.err))
    case BeginClose => RunnerAt(p, L.Within(2)) && p.closing == p.closed < |p.clients|
    case EndClose => p.closing == p.closed + 1 && p.closed < |p.clients|
  }

  function AfterStep(o: Options, p: Proc, a: Action, build: Option<Err>): Proc
    requires CanHappen(o, p, Step(a, build))
  {
    var q := p.(ready := Next(o, p.ready, a));
    match a
    case StartCheck(i) => q.(clients := p.clients[i := Built(p.clients[i], build)])
    case Tick(to) => if p.shutdown.Some? then q.(shutdown := Some(p.shutdown.value.(now := to))) else q
    case _ => q
  }

  function AfterLife(o: Options, p: Proc, le: L.Event): Proc
    requires CanHappen(o, p, Life(le))
  {
    var q := p.(shutdown := Some(L.After(p.shutdown.value, le)));
    match le
    case StartStep => if p.shutdown.value.runner.next == 1 then q.(server := Draining) else q
    case FinishStep(err) =>
      if RunnerAt(p, L.Within(0)) then q.(ready := Next(o, p.ready, BeginShutdown))
      else if RunnerAt(p, L.Within(1)) && err.None? then q.(server := Drained)
      else q
    case TakeDone => q.(alive := false)
    case TakeSecond => q.(alive := false)
    case TakeDeadline => q.(alive := false)
    case _ => q
  }

  function Then(o: Options, p: Proc, e: Event): Proc
    requires CanHappen(o, p, e)
  {
    match e
    case Step(a, build) => AfterStep(o, p, a, build)
    case Abort => p.(alive := false)
    case Listen => p.(server := Serving)
    case ServerFails => p.(alive := false)
    case FirstSignal(grace) => p.(shutdown := Some(L.Begin(STEPS, grace, p.ready.now)))
    case Life(le) => AfterLife(o, p, le)
    case BeginClose => p.(closing := p.closing + 1)
    case EndClose => p.(clients := p.clients[p.closed := Released(p.clients[p.closed])], closed := p.closed + 1)
  }

  datatype History = History(states: seq<Proc>, events: seq<Event>)

  ghost predicate Happened(o: Options, h: History, k: nat) {
    && k < |h.events| && k + 1 < |h.states|
    && CanHappen(o, h.states[k], h.events[k]) && h.states[k + 1] == Then(o, h.states[k], h.events[k])
  }

  ghost predicate IsHistory(o: Options, h: History) {
    && |h.states| == |h.events| + 1
    && (exists now :: h.states[0] == Boot(o, now))
    && forall k | 0 <= k < |h.events| :: Happened(o, h, k)
  }

  // ---- what every event keeps ----

  /** How many of the three steps have succeeded. */
  function StepsDone(p: Proc): nat {
    if p.shutdown.None? then 0
    else match p.shutdown.value.runner
         case Between(k) => k
         case Within(k) => k
         case Gone => 0
  }

  ghost predicate Ordered(p: Proc) {
    && (StepsDone(p) >= 1 ==> p.ready.shuttingDown)
    && (StepsDone(p) >= 2 ==> p.server == Drained)
    && (p.server == Draining || p.server == Drained ==> p.ready.shuttingDown)
    && (p.server == Drained ==> NoHandlerActive(p.ready))
    && (p.shutdown.None? || RunnerAt(p, L.Between(0)) || RunnerAt(p, L.Within(0)) || RunnerAt(p, L.Between(1)) ==>
          p.server == Starting || p.server == Serving)
    && (p.closing > 0 ==> p.server == Drained)
    && p.closed <= p.closing <= p.closed + 1 && p.closed <= |p.clients|
    && (p.server == Starting ==> p.shutdown.None? && p.ready.calls == map[])
    && (AllStepsSucceeded(p) ==> p.closed == |p.clients| && p.server == Drained)
  }

  /** Every step of the shutdown has finished without an error. */
  ghost predicate AllStepsSucceeded(p: Proc) {
    && p.shutdown.Some? && p.shutdown.value.steps == STEPS == |p.shutdown.value.results|
    && L.AllNil(p.shutdown.value.results)
  }

  /** The shutdown's own invariant, and its number of steps. */
  ghost predicate ShutdownOk(p: Proc) {
    p.shutdown.Some? ==> L.Inv(p.shutdown.value) && p.shutdown.value.steps == STEPS
  }

  ghost predicate Wired(o: Options, p: Proc) {
    && |p.clients| == |o.names|
    && (forall i | 0 <= i < |p.clients| :: p.clients[i].connection == Closed ==> i < p.closed)
    && (forall i | 0 <= i < p.closed :: i < |p.clients| ==> p.clients[i].connection != Open)
    && (forall i | 0 <= i < |p.clients| :: NotCalled(p.ready, i) || p.clients[i].once)
    && (p.server == Starting ==> forall i | 0 <= i < |p.clients| :: p.clients[i] == UNBUILT)
  }

  /** No round has called checker i yet. */
  ghost predicate NotCalled(s: State, i: nat) {
    forall q | 0 <= q < |s.rounds| :: i < |s.rounds[q].checks| ==> s.rounds[q].checks[i].Unstarted?
  }

  /** No checker's Check is running. */
  ghost predicate NoCheckRuns(s: State) {
    forall q, i | 0 <= q < |s.rounds| && 0 <= i < |s.rounds[q].checks| :: !s.rounds[q].checks[i].Running?
  }

  lemma FlyingNeedsAHandler(o: Options, s: State)
    requires Links(o, s) && Flying(s)
    ensures !NoHandlerActive(s)
  {
    assert FlightOk(o, s, |s.flights| - 1);
  }

  /** Without an active handler there is no flight, no round in progress and no check running. */
  lemma QuietMeansNoChecks(o: Options, s: State)
    requires Core(o, s) && Links(o, s) && NoHandlerActive(s)
    ensures !Flying(s) && NoCheckRuns(s)
  {
    if Flying(s) {
      FlyingNeedsAHandler(o, s);
    }
    forall q, i | 0 <= q < |s.rounds| && 0 <= i < |s.rounds[q].checks| ensures !s.rounds[q].checks[i].Running? {
      assert RoundOk(o, s.rounds[q]);
    }
  }

  lemma ShutdownKept(o: Options, p: Proc, e: Event)
    requires ShutdownOk(p) && CanHappen(o, p, e)
    ensures ShutdownOk(Then(o, p, e))
  {
    match e
    case Life(le) => L.InvKept(p.shutdown.value, le);
    case _ =>
  }

  lemma OrderKept(o: Options, p: Proc, e: Event)
    requires Ordered(p) && ShutdownOk(p) && Links(o, p.ready) && Core(o, p.ready) && CanHappen(o, p, e)
    ensures Ordered(Then(o, p, e))
  {
    match e
    case Step(a, build) => StepKeepsOrder(o, p, a, build);
    case Life(le) => LifeKeepsOrder(o, p, le);
    case _ =>
  }

  lemma LifeKeepsOrder(o: Options, p: Proc, le: L.Event)
    requires Ordered(p) && ShutdownOk(p) && CanHappen(o, p, Life(le))
    ensures Ordered(Then(o, p, Life(le)))
  {
    var q := Then(o, p, Life(le));
    assert q.ready.calls == p.ready.calls;
    if AllStepsSucceeded(q) {
      LastStepCloses(o, p, le);
    }
  }

  lemma LastStepCloses(o: Options, p: Proc, le: L.Event)
    requires Ordered(p) && ShutdownOk(p) && CanHappen(o, p, Life(le))
    requires AllStepsSucceeded(Then(o, p, Life(le)))
    ensures p.closed == |p.clients| && p.server == Drained
  {
    if le.FinishStep? {
      assert p.shutdown.value.runner.Within?;
      assert le.err == Then(o, p, Life(le)).shutdown.value.results[STEPS - 1];
    }
  }

  lemma StepKeepsOrder(o: Options, p: Proc, a: Action, build: Option<Err>)
    requires Ordered(p) && Links(o, p.ready) && Core(o, p.ready) && CanHappen(o, p, Step(a, build))
    ensures Ordered(Then(o, p, Step(a, build)))
  {
    StepKeepsFlag(o, p.ready, a);
    if p.server == Drained {
      QuietMeansNoChecks(o, p.ready);
      QuietStaysQuiet(o, p.ready, a);
    }
    if p.server == Starting {
      NobodyMovesYet(o, p.ready, a);
    }
  }

  lemma StepKeepsFlag(o: Options, s: State, a: Action)
    requires Enabled(o, s, a) && !a.BeginShutdown?
    ensures Next(o, s, a).shuttingDown == s.shuttingDown
  {}

  lemma QuietStaysQuiet(o: Options, s: State, a: Action)
    requires Core(o, s) && Links(o, s) && Enabled(o, s, a) && NoHandlerActive(s) && !a.Enter?
    ensures NoHandlerActive(Next(o, s, a)) && !a.StartCheck?
  {
    QuietMeansNoChecks(o, s);
  }

  lemma NobodyMovesYet(o: Options, s: State, a: Action)
    requires Core(o, s) && Links(o, s) && Enabled(o, s, a) && s.calls == map[] && !a.Enter?
    ensures Next(o, s, a).calls == map[] && !a.StartCheck?
  {
    QuietMeansNoChecks(o, s);
  }

  // ---- clients ----

  lemma StepKeepsWiring(o: Options, p: Proc, a: Action, build: Option<Err>)
    requires Wired(o, p) && Ordered(p) && Core(o, p.ready) && Links(o, p.ready) && CanHappen(o, p, Step(a, build))
    ensures Wired(o, Then(o, p, Step(a, build)))
  {
    var p' := Then(o, p, Step(a, build));
    if p.server == Drained {
      QuietStaysQuiet(o, p.ready, a);
    }
    if p.server == Starting {
      NobodyMovesYet(o, p.ready, a);
    }
    forall i | 0 <= i < |p'.clients| ensures NotCalled(p'.ready, i) || p'.clients[i].once {
      if NotCalled(p.ready, i) && !p'.clients[i].once {
        UncalledStays(o, p.ready, a, i);
      }
    }
  }

  lemma UncalledStays(o: Options, s: State, a: Action, i: nat)
    requires Enabled(o, s, a) && NotCalled(s, i) && a != StartCheck(i)
    ensures NotCalled(Next(o, s, a), i)
  {}

  lemma WiringKept(o: Options, p: Proc, e: Event)
    requires Wired(o, p) && Ordered(p) && Core(o, p.ready) && Links(o, p.ready) && CanHappen(o, p, e)
    ensures Wired(o, Then(o, p, e))
  {
    match e
    case Step(a, build) => StepKeepsWiring(o, p, a, build);
    case EndClose => CloseKeepsWiring(o, p);
    case _ => OthersKeepWiring(o, p, e);
  }

  lemma CloseKeepsWiring(o: Options, p: Proc)
    requires Wired(o, p) && Ordered(p) && CanHappen(o, p, EndClose)
    ensures Wired(o, Then(o, p, EndClose))
  {}

  /** Everything else leaves the clients and the rounds alone. */
  lemma OthersKeepWiring(o: Options, p: Proc, e: Event)
    requires Wired(o, p) && CanHappen(o, p, e) && !e.Step? && !e.EndClose?
    ensures Wired(o, Then(o, p, e))
  {
    var q := Then(o, p, e);
    assert q.clients == p.clients && q.closed == p.closed && q.ready.rounds == p.ready.rounds;
    assert forall i | 0 <= i < |p.clients| :: NotCalled(p.ready, i) ==> NotCalled(q.ready, i);
  }

  // ---- the process runs the readiness protocol and the shutdown ----

  /** A history that counts time only in checks, each of which returns by its deadline. */
  ghost predicate IsTimelyHistory(o: Options, h: History) {
    IsHistory(o, h) && forall k | 0 <= k < |h.events| :: TimelyEvent(o, h.states[k], h.events[k])
  }

  ghost predicate TimelyEvent(o: Options, p: Proc, e: Event) {
    e.Step? ==> Timely(o, p.ready, e.a)
  }

  /** The readiness half of every history of the process is a run of the readiness protocol. */
  lemma {:induction false} ReadinessRuns(o: Options, h: History, k: nat) returns (r: Run)
    requires IsHistory(o, h) && k < |h.states|
    ensures IsRun(o, r) && T.Last(r) == h.states[k].ready
    ensures IsTimelyHistory(o, h) ==> IsTimelyRun(o, r)
    decreases k
  {
    if k == 0 {
      r := Run([h.states[0].ready], []);
    } else {
      r := ReadinessRuns(o, h, k - 1);
      assert Happened(o, h, k - 1);
      var p, e := h.states[k - 1], h.events[k - 1];
      var a := ReadinessAction(p, e);
      assert IsTimelyHistory(o, h) ==> TimelyEvent(o, p, e);
      if a.Some? {
        r := G.Grow(o, r, a.value);
      }
    }
  }

  /** What an event of the process is to the readiness protocol, if anything. */
  function ReadinessAction(p: Proc, e: Event): Option<Action> {
    if e.Step? then Some(e.a)
    else if e.Life? && e.e.FinishStep? && RunnerAt(p, L.Within(0)) then Some(BeginShutdown)
    else None
  }

  /** The select of the shutdown reacts within the lag to the clock of the process. */
  ghost predicate ReactsWithin(h: History, lag: Time) {
    |h.events| <= |h.states| &&
    forall j | 0 <= j < |h.events| :: ReactsAt(h.states[j], h.events[j], lag)
  }

  ghost predicate ReactsAt(p: Proc, e: Event, lag: Time) {
    e.Step? && e.a.Tick? && p.shutdown.Some? ==> L.Reacts(p.shutdown.value, L.Tick(e.a.to), lag)
  }

  /** The shutdown half, from the first signal on, is a trace of lifecycle.Shutdown over the three steps. */
  lemma {:induction false} ShutdownRuns(o: Options, h: History, k: nat, lag: Time) returns (t: L.Trace, grace: Time)
    requires IsHistory(o, h) && k < |h.states| && h.states[k].shutdown.Some?
    ensures L.IsTrace(t, STEPS, grace) && L.End(t) == h.states[k].shutdown.value
    ensures L.End(t).now == h.states[k].ready.now
    ensures ReactsWithin(h, lag) ==> L.IsReactive(t, lag)
    decreases k
  {
    assert Happened(o, h, k - 1);
    var p, e := h.states[k - 1], h.events[k - 1];
    if p.shutdown.None? {
      grace := e.grace;
      t := L.Trace([h.states[k].shutdown.value], []);
    } else {
      t, grace := ShutdownRuns(o, h, k - 1, lag);
      assert ReactsWithin(h, lag) ==> ReactsAt(p, e, lag);
      t := ShutdownGoesOn(o, p, e, t, grace, lag);
    }
  }

  lemma ShutdownGoesOn(o: Options, p: Proc, e: Event, t: L.Trace, grace: Time, lag: Time) returns (u: L.Trace)
    requires CanHappen(o, p, e) && p.shutdown.Some?
    requires L.IsTrace(t, STEPS, grace) && L.End(t) == p.shutdown.value && p.shutdown.value.now == p.ready.now
    ensures L.IsTrace(u, STEPS, grace) && Then(o, p, e).shutdown == Some(L.End(u))
    ensures L.End(u).now == Then(o, p, e).ready.now
    ensures L.IsReactive(t, lag) && ReactsAt(p, e, lag) ==> L.IsReactive(u, lag)
  {
    var le := if e.Life? then Some(e.e) else if e.Step? && e.a.Tick? then Some(L.Tick(e.a.to)) else None;
    u := t;
    if le.Some? {
      u := L.OneMoreEvent(t, STEPS, grace, le.value);
    } else {
      ClockStays(o, p, e);
    }
  }

  /** The shutdown of a process begins with its first signal, with the grace of that. */
  lemma {:induction false} ShutdownBeganWithTheSignal(o: Options, h: History, j: nat, grace: Time, k: nat)
    requires IsHistory(o, h) && j < k < |h.states| && h.events[j] == FirstSignal(grace)
    ensures h.states[k].shutdown.Some?
    ensures h.states[k].shutdown.value.startedAt == h.states[j].ready.now && h.states[k].shutdown.value.grace == grace
    decreases k
  {
    assert Happened(o, h, k - 1);
    if j < k - 1 {
      ShutdownBeganWithTheSignal(o, h, j, grace, k - 1);
    }
  }

  /**
   A process that is signalled, and whose select reacts within the lag, has stopped by the end of the
   grace period and the lag, counted from the signal, whatever its steps do.
   */
  lemma StopsWithinGrace(o: Options, h: History, j: nat, grace: Time, k: nat, lag: Time)
    requires IsHistory(o, h) && j < k < |h.states| && h.events[j] == FirstSignal(grace)
    requires ReactsWithin(h, lag) && 0 <= lag
    ensures h.states[k].shutdown.Some?
    ensures var s, now := h.states[k].shutdown.value, h.states[k].ready.now;
            var waited := (if s.select.Selecting? then now else s.select.at) - h.states[j].ready.now;
            && 0 <= waited
            && (0 < grace ==> waited <= grace + lag)
            && (grace <= 0 ==> waited <= lag)
            && (s.select.Returned? && s.exits == [1] && s.select.err.Some? ==> grace <= waited)
  {
    ShutdownBeganWithTheSignal(o, h, j, grace, k);
    var t, grace' := ShutdownRuns(o, h, k, lag);
    L.TraceKeepsInv(t, STEPS, grace', |t.states| - 1);
    L.GraceIsKept(t, STEPS, grace', lag);
  }

  lemma ClockStays(o: Options, p: Proc, e: Event)
    requires CanHappen(o, p, e) && p.shutdown.Some? && !e.Life? && !(e.Step? && e.a.Tick?)
    ensures Then(o, p, e).shutdown == p.shutdown && Then(o, p, e).ready.now == p.ready.now
  {}

  /** The order of gate, drain and close, and what the shutdown and the clients have to do with it. */
  ghost predicate InPlace(o: Options, p: Proc) {
    Ordered(p) && ShutdownOk(p) && Wired(o, p)
  }

  lemma EventKeepsPlace(o: Options, p: Proc, e: Event)
    requires Core(o, p.ready) && Links(o, p.ready) && InPlace(o, p) && CanHappen(o, p, e)
    ensures InPlace(o, Then(o, p, e))
  {
    ShutdownKept(o, p, e);
    OrderKept(o, p, e);
    WiringKept(o, p, e);
  }

  lemma HistoryStepKeepsPlace(o: Options, h: History, k: nat)
    requires IsHistory(o, h) && k + 1 < |h.states| && InPlace(o, h.states[k])
    ensures InPlace(o, h.states[k + 1])
  {
    HistoryIsSound(o, h, k);
    assert Happened(o, h, k);
    EventKeepsPlace(o, h.states[k], h.events[k]);
  }

  lemma {:induction false} HistoryStaysInPlace(o: Options, h: History, k: nat)
    requires IsHistory(o, h) && k < |h.states|
    ensures InPlace(o, h.states[k])
    decreases k
  {
    if k > 0 {
      HistoryStaysInPlace(o, h, k - 1);
      HistoryStepKeepsPlace(o, h, k - 1);
    }
  }

  lemma HistoryIsSound(o: Options, h: History, k: nat)
    requires IsHistory(o, h) && k < |h.states|
    ensures Sound(o, h.states[k].ready)
  {
    var r := ReadinessRuns(o, h, k);
    RunIsSound(o, r, |r.states| - 1);
  }

  /** Every state of the process keeps the order of gate, drain and close. */
  lemma HistoryKeepsOrder(o: Options, h: History, k: nat)
    requires IsHistory(o, h) && k < |h.states|
    ensures Sound(o, h.states[k].ready) && InPlace(o, h.states[k])
  {
    HistoryIsSound(o, h, k);
    HistoryStaysInPlace(o, h, k);
  }

  lemma {:induction false} ClosingGrows(o: Options, h: History, k: nat, m: nat)
    requires IsHistory(o, h) && k <= m < |h.states|
    ensures h.states[k].closing <= h.states[m].closing
    decreases m
  {
    if k < m {
      ClosingGrows(o, h, k, m - 1);
      assert Happened(o, h, m - 1);
    }
  }

  /** The gate step and the drain step have both returned nil. */
  ghost predicate DrainSucceeded(p: Proc) {
    p.shutdown.Some? && |p.shutdown.value.results| >= 2
    && p.shutdown.value.results[0].None? && p.shutdown.value.results[1].None?
  }

  lemma DrainSuccessLasts(o: Options, p: Proc, e: Event)
    requires CanHappen(o, p, e) && ShutdownOk(p)
    requires p.server == Drained ==> DrainSucceeded(p)
    ensures Then(o, p, e).server == Drained ==> DrainSucceeded(Then(o, p, e))
  {
    if e.Life? && e.e.FinishStep? && p.server != Drained && Then(o, p, e).server == Drained {
      assert p.shutdown.value.results[0].None?;
    }
  }

  lemma {:induction false} DrainedMeansSucceeded(o: Options, h: History, k: nat)
    requires IsHistory(o, h) && k < |h.states|
    ensures h.states[k].server == Drained ==> DrainSucceeded(h.states[k])
    decreases k
  {
    if k > 0 {
      DrainedMeansSucceeded(o, h, k - 1);
      HistoryKeepsOrder(o, h, k - 1);
      assert Happened(o, h, k - 1);
      DrainSuccessLasts(o, h.states[k - 1], h.events[k - 1]);
    }
  }

  /** The step that flips the gate returns nil, and once it has, the flag is set. */
  lemma {:induction false} GateStepSucceeds(o: Options, h: History, k: nat)
    requires IsHistory(o, h) && k < |h.states|
    ensures var p := h.states[k];
            p.shutdown.Some? && |p.shutdown.value.results| > 0 ==>
              p.shutdown.value.results[0].None? && p.ready.shuttingDown
    decreases k
  {
    if k > 0 {
      GateStepSucceeds(o, h, k - 1);
      HistoryKeepsOrder(o, h, k - 1);
      assert Happened(o, h, k - 1);
      GateSuccessLasts(o, h.states[k - 1], h.events[k - 1]);
    }
  }

  lemma GateSuccessLasts(o: Options, p: Proc, e: Event)
    requires CanHappen(o, p, e) && ShutdownOk(p)
    requires p.shutdown.Some? && |p.shutdown.value.results| > 0 ==>
               p.shutdown.value.results[0].None? && p.ready.shuttingDown
    ensures var q := Then(o, p, e);
            q.shutdown.Some? && |q.shutdown.value.results| > 0 ==>
              q.shutdown.value.results[0].None? && q.ready.shuttingDown
  {
    if e.Step? {
      StepKeepsFlag(o, p.ready, e.a);
    }
  }

  // ---- what follows for the whole process ----

  /** Readiness flips before the server stops accepting, and no client closes unless the drain succeeded. */
  lemma GateThenDrainThenClose(o: Options, h: History, k: nat)
    requires IsHistory(o, h) && k < |h.states|
    ensures var p := h.states[k];
            && (p.server == Draining || p.server == Drained ==> p.ready.shuttingDown)
            && (p.closing > 0 ==>
                  p.server == Drained && DrainSucceeded(p) && NoHandlerActive(p.ready) && NoCheckRuns(p.ready))
  {
    HistoryKeepsOrder(o, h, k);
    DrainedMeansSucceeded(o, h, k);
    var p := h.states[k];
    if p.closing > 0 {
      QuietMeansNoChecks(o, p.ready);
    }
  }

  /** Shutdown ends in one of four ways: a clean end has closed every client, a failed drain none. */
  lemma TheProcessEndsOneWay(o: Options, h: History, k: nat)
    requires IsHistory(o, h) && k < |h.states|
    requires h.states[k].shutdown.Some? && h.states[k].shutdown.value.select.Returned?
    ensures var p, s := h.states[k], h.states[k].shutdown.value;
            && (L.Completed(s) || L.StepFailed(s) || L.SignalledAgain(s) || L.OutOfTime(s))
            && (L.Completed(s) ==> p.closed == |p.clients| && NoHandlerActive(p.ready))
            && (L.StepFailed(s) ==> |s.results| >= 2 && p.ready.shuttingDown)
            && (L.StepFailed(s) && |s.results| == 2 ==> p.closing == 0)
  {
    HistoryKeepsOrder(o, h, k);
    GateThenDrainThenClose(o, h, k);
    GateStepSucceeds(o, h, k);
  }

  lemma NoCheckOnceClosing(o: Options, h: History, m: nat)
    requires IsHistory(o, h) && m < |h.states| && h.states[m].closing > 0
    ensures NoCheckRuns(h.states[m].ready)
    ensures m < |h.events| ==> !(h.events[m].Step? && h.events[m].a.StartCheck?)
  {
    HistoryKeepsOrder(o, h, m);
    QuietMeansNoChecks(o, h.states[m].ready);
    if m < |h.events| {
      assert Happened(o, h, m);
    }
  }

  /** Once the first close has begun no check runs, starts, or builds a client, ever. */
  lemma {:induction false} NoCheckTouchesAClosedClient(o: Options, h: History, k: nat, m: nat)
    requires IsHistory(o, h) && k <= m < |h.states| && h.states[k].closing > 0
    ensures NoCheckRuns(h.states[m].ready)
    ensures m < |h.events| ==> !(h.events[m].Step? && h.events[m].a.StartCheck?)
    ensures |h.states[m].clients| == |h.states[k].clients|
    ensures forall i | 0 <= i < |h.states[m].clients| :: h.states[m].clients[i].once == h.states[k].clients[i].once
    decreases m
  {
    ClosingGrows(o, h, k, m);
    NoCheckOnceClosing(o, h, m);
    if k < m {
      NoCheckTouchesAClosedClient(o, h, k, m - 1);
      assert Happened(o, h, m - 1);
    }
  }

  /** A check that runs uses a client that has been built, if it could be, and has not been closed. */
  lemma RunningChecksHaveOpenClients(o: Options, h: History, k: nat, q: nat, i: nat)
    requires IsHistory(o, h) && k < |h.states|
    requires var s := h.states[k].ready; q < |s.rounds| && i < |s.rounds[q].checks| && s.rounds[q].checks[i].Running?
    ensures i < |h.states[k].clients| && h.states[k].clients[i].once && h.states[k].clients[i].connection != Closed
    ensures h.states[k].closing == 0
  {
    HistoryKeepsOrder(o, h, k);
    GateThenDrainThenClose(o, h, k);
    var p := h.states[k];
    assert RoundOk(o, p.ready.rounds[q]);
    assert !NotCalled(p.ready, i);
  }

  /** A process that is told to stop before it listens has served nobody and built nothing. */
  lemma AbortedStartupLeavesNothing(o: Options, h: History, k: nat)
    requires IsHistory(o, h) && k < |h.states| && h.states[k].server == Starting
    ensures h.states[k].ready.calls == map[] && h.states[k].ready.checkRounds == 0
    ensures forall i | 0 <= i < |h.states[k].clients| :: h.states[k].clients[i] == UNBUILT
  {
    HistoryKeepsOrder(o, h, k);
    RoundsNeedCalls(o, h.states[k].ready);
  }

  lemma RoundsNeedCalls(o: Options, s: State)
    requires Sound(o, s)
    ensures |s.rounds| > 0 ==> s.calls != map[]
  {
    if |s.rounds| > 0 {
      assert RoundTimed(s, s.rounds[0]);
      assert FlightOk(o, s, s.rounds[0].flight);
    }
  }

  /** Event j is the first check of checker i. */
  ghost predicate IsFirstCheck(h: History, j: nat, i: nat) {
    && j < |h.events| && ChecksAt(h, j, i)
    && forall m | 0 <= m < j :: !ChecksAt(h, m, i)
  }

  ghost predicate ChecksAt(h: History, j: nat, i: nat) {
    j < |h.events| && h.events[j].Step? && h.events[j].a == StartCheck(i)
  }

  /** What the client of a checker is, given what building it at the first check gave, and whether it is closed. */
  ghost predicate IsBuiltAs(c: Lazy, build: Option<Err>, closed: bool) {
    && c.once && c.initErr == build
    && c.connection == if build.Some? then Absent else if closed then Closed else Open
  }

  lemma {:induction false} UncheckedIsUnbuilt(o: Options, h: History, k: nat, i: nat)
    requires IsHistory(o, h) && k < |h.states| && i < |h.states[k].clients|
    requires forall m | 0 <= m < k :: !ChecksAt(h, m, i)
    ensures h.states[k].clients[i] == Lazy(false, Absent, None)
    decreases k
  {
    if k > 0 {
      assert Happened(o, h, k - 1);
      assert !ChecksAt(h, k - 1, i);
      OneEventAndAClient(o, h.states[k - 1], h.events[k - 1], i);
      UncheckedIsUnbuilt(o, h, k - 1, i);
    }
  }

  /** An event builds a client, closes it, or leaves it alone. */
  lemma OneEventAndAClient(o: Options, p: Proc, e: Event, i: nat)
    requires CanHappen(o, p, e) && i < |Then(o, p, e).clients|
    ensures i < |p.clients|
    ensures var was, now := p.clients[i], Then(o, p, e).clients[i];
            if e.Step? && e.a == StartCheck(i) then
              && (was.once ==> now == was)
              && (!was.once ==> now.once && now.initErr == e.build
                                && now.connection == if e.build.None? then Open else was.connection)
            else if e.EndClose? && p.closed == i then
              now == was.(connection := if was.connection == Absent then Absent else Closed)
            else now == was
  {}

  /** A client is for good what its first check made of it, until it is closed. */
  lemma {:induction false} ClientsAreAsFirstBuilt(o: Options, h: History, j: nat, k: nat, i: nat)
    requires IsHistory(o, h) && IsFirstCheck(h, j, i) && j < k < |h.states| && i < |h.states[k].clients|
    ensures IsBuiltAs(h.states[k].clients[i], h.events[j].build, i < h.states[k].closed)
    decreases k
  {
    assert Happened(o, h, k - 1);
    var p, e := h.states[k - 1], h.events[k - 1];
    OneEventAndAClient(o, p, e, i);
    if j < k - 1 {
      ClientsAreAsFirstBuilt(o, h, j, k - 1, i);
    } else {
      UncheckedIsUnbuilt(o, h, j, i);
      FirstCheckIsBeforeClosing(o, h, j, i);
    }
    ClosedGrows(o, p, e, i);
  }

  lemma FirstCheckIsBeforeClosing(o: Options, h: History, j: nat, i: nat)
    requires IsHistory(o, h) && j < |h.events| && ChecksAt(h, j, i)
    ensures h.states[j].closed == 0 && h.states[j + 1].closed == 0
  {
    assert Happened(o, h, j);
    HistoryKeepsOrder(o, h, j);
    if h.states[j].closing > 0 {
      NoCheckOnceClosing(o, h, j);
    }
  }

  lemma ClosedGrows(o: Options, p: Proc, e: Event, i: nat)
    requires CanHappen(o, p, e)
    ensures i < Then(o, p, e).closed <==> i < p.closed || (e.EndClose? && p.closed == i)
  {}

  /** A running check has an open client, or the error that building it gave. */
  lemma RunningChecksUseTheirClient(o: Options, h: History, k: nat, q: nat, i: nat)
    requires IsHistory(o, h) && k < |h.states|
    requires var s := h.states[k].ready;
             q < |s.rounds| && i < |s.rounds[q].checks| && s.rounds[q].checks[i].Running?
    ensures i < |h.states[k].clients|
    ensures var c := h.states[k].clients[i]; if c.initErr.None? then c.connection == Open else c.connection == Absent
  {
    RunningChecksHaveOpenClients(o, h, k, q, i);
    BuiltClients(o, h, k, i);
  }

  /** Every client that has been used was built by some first check. */
  lemma BuiltClients(o: Options, h: History, k: nat, i: nat)
    requires IsHistory(o, h) && k < |h.states| && i < |h.states[k].clients| && h.states[k].clients[i].once
    ensures exists j :: 0 <= j < k && IsFirstCheck(h, j, i)
                        && IsBuiltAs(h.states[k].clients[i], h.events[j].build, i < h.states[k].closed)
  {
    var j := FirstCheckBefore(o, h, k, i);
    ClientsAreAsFirstBuilt(o, h, j, k, i);
  }

  lemma {:induction false} FirstCheckBefore(o: Options, h: History, k: nat, i: nat) returns (j: nat)
    requires IsHistory(o, h) && k < |h.states| && i < |h.states[k].clients| && h.states[k].clients[i].once
    ensures j < k && IsFirstCheck(h, j, i)
    decreases k
  {
    if forall m | 0 <= m < k :: !ChecksAt(h, m, i) {
      UncheckedIsUnbuilt(o, h, k, i);
    }
    j := LeastCheck(h, k, i);
  }

  lemma {:induction false} LeastCheck(h: History, k: nat, i: nat) returns (j: nat)
    requires exists m :: 0 <= m < k && ChecksAt(h, m, i)
    ensures j < k && IsFirstCheck(h, j, i)
    decreases k
  {
    if exists m :: 0 <= m < k - 1 && ChecksAt(h, m, i) {
      j := LeastCheck(h, k - 1, i);
    } else {
      j := k - 1;
    }
  }

  /**
   When Shutdown reports success without forcing an exit every handler is done and every client has been
   closed: one that its first check could build is closed, one it could not build was never there.
   */
  lemma CleanExitReleasesEverything(o: Options, h: History, k: nat)
    requires IsHistory(o, h) && k < |h.states| && h.states[k].shutdown.Some? && L.Completed(h.states[k].shutdown.value)
    ensures var p := h.states[k];
            && NoHandlerActive(p.ready) && p.closed == |p.clients|
            && (forall i | 0 <= i < |p.clients| :: p.clients[i].connection != Open)
            && (forall i | 0 <= i < |p.clients| && p.clients[i].once && p.clients[i].initErr.None? ::
                  p.clients[i].connection == Closed)
    ensures forall i, j | 0 <= i < |h.states[k].clients| && 0 <= j < k && IsFirstCheck(h, j, i) ::
              IsBuiltAs(h.states[k].clients[i], h.events[j].build, true)
  {
    HistoryKeepsOrder(o, h, k);
    var p := h.states[k];
    forall i | 0 <= i < |p.clients| && p.clients[i].once && p.clients[i].initErr.None?
      ensures p.clients[i].connection == Closed
    {
      BuiltClients(o, h, k, i);
    }
    forall i, j | 0 <= i < |h.states[k].clients| && 0 <= j < k && IsFirstCheck(h, j, i)
      ensures IsBuiltAs(h.states[k].clients[i], h.events[j].build, true)
    {
      ClientsAreAsFirstBuilt(o, h, j, k, i);
    }
  }

  lemma WiredNamesAreDistinct()
    ensures Distinct(WIRED_NAMES)
  {}
}

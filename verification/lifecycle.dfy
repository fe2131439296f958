/**
 internal/lifecycle/shutdown.go: the steps run in order in their own goroutine, raced in a select
 against a repeated signal and the end of the grace period.
 */
module Lifecycle {
  import opened Prelude

  datatype Error = ErrTimeout | Failure(text: string)

  const FORCED_EXIT_CODE := 1

  /** The goroutine that runs the steps: about to start one, inside one, or gone. */
  datatype Runner = Between(next: nat) | Within(step: nat) | Gone

  datatype Select = Selecting | Returned(err: Option<Error>, at: Time)

  /**
   `ran` are the steps started, `results` what the finished ones returned, `done` the buffered
   channel between the goroutine and the select, `exits` the codes Exit was called with. `doneAt` and
   `secondAt` are when the two channels first had something to receive.
   */
  datatype Shutdown = Shutdown(
    steps: nat,
    startedAt: Time,
    grace: Time,
    now: Time,
    runner: Runner,
    ran: seq<nat>,
    results: seq<Option<Error>>,
    done: Option<Option<Error>>,
    doneAt: Option<Time>,
    second: bool,
    secondAt: Option<Time>,
    select: Select,
    exits: seq<int>)

  datatype Event =
    | Tick(to: Time)
    | StartStep
    | FinishStep(err: Option<Error>)
    | Report
    | Signal
    | TakeDone
    | TakeSecond
    | TakeDeadline

  function Begin(steps: nat, grace: Time, now: Time): Shutdown {
    Shutdown(steps, now, grace, now, Between(0), [], [], None, None, false, None, Selecting, [])
  }

  /** When the context of the grace period is done; one that is not positive has run out at once. */
  function Deadline(s: Shutdown): Time {
    s.startedAt + (if s.grace > 0 then s.grace else 0)
  }

  predicate Possible(s: Shutdown, e: Event) {
    match e
    case Tick(to) => s.now <= to
    case StartStep => s.runner.Between? && s.runner.next < s.steps
    case FinishStep(_) => s.runner.Within?
    case Report => s.runner.Between? && s.runner.next == s.steps
    case Signal => true
    case TakeDone => s.select.Selecting? && s.done.Some?
    case TakeSecond => s.select.Selecting? && s.second
    case TakeDeadline => s.select.Selecting? && Deadline(s) <= s.now
  }

  function After(s: Shutdown, e: Event): Shutdown
    requires Possible(s, e)
  {
    match e
    case Tick(to) => s.(now := to)
    case StartStep => s.(runner := Within(s.runner.next), ran := s.ran + [s.runner.next])
    case FinishStep(err) =>
      if err.Some? then s.(runner := Gone, results := s.results + [err], done := Some(err), doneAt := Some(s.now))
      else s.(runner := Between(s.runner.step + 1), results := s.results + [None])
    case Report => s.(runner := Gone, done := Some(None), doneAt := Some(s.now))
    case Signal => s.(second := true, secondAt := if s.secondAt.Some? then s.secondAt else Some(s.now))
    case TakeDone => s.(select := Returned(s.done.value, s.now))
    case TakeSecond => s.(second := false, exits := s.exits + [FORCED_EXIT_CODE], select := Returned(None, s.now))
    case TakeDeadline => s.(exits := s.exits + [FORCED_EXIT_CODE], select := Returned(Some(ErrTimeout), s.now))
  }

  // ---- the steps ----

  /** The error a sequence of step results stops at, if any. */
  function FirstFailure(results: seq<Option<Error>>): Option<Error> {
    if results == [] then None
    else if results[0].Some? then results[0] else FirstFailure(results[1..])
  }

  lemma {:induction false} FirstFailureAt(results: seq<Option<Error>>, k: nat)
    requires k < |results| && results[k].Some?
    requires forall j | 0 <= j < k :: results[j].None?
    ensures FirstFailure(results) == results[k]
  {
    if k > 0 {
      FirstFailureAt(results[1..], k - 1);
    }
  }

  lemma {:induction false} NoFailure(results: seq<Option<Error>>)
    requires forall j | 0 <= j < |results| :: results[j].None?
    ensures FirstFailure(results).None?
  {
    if results != [] {
      NoFailure(results[1..]);
    }
  }

  /** The goroutine's loop: what it reports, and how many steps it started. */
  method RunSteps(results: seq<Option<Error>>) returns (done: Option<Error>, ran: nat)
    ensures done == FirstFailure(results)
    ensures ran <= |results| && forall j | 0 <= j < ran - 1 :: results[j].None?
    ensures done.Some? ==> ran > 0 && results[ran - 1] == done
    ensures done.None? ==> ran == |results| && forall j | 0 <= j < |results| :: results[j].None?
  {
    for k := 0 to |results|
      invariant forall j | 0 <= j < k :: results[j].None?
    {
      if results[k].Some? {
        FirstFailureAt(results, k);
        return results[k], k + 1;
      }
    }
    NoFailure(results);
    return None, |results|;
  }

  // ---- every run ----

  ghost predicate AllNil(results: seq<Option<Error>>) {
    forall j | 0 <= j < |results| :: results[j].None?
  }

  /** The steps started are 0, 1, 2, ... in order, each once. */
  ghost predicate InOrder(s: Shutdown) {
    |s.ran| <= s.steps && forall j | 0 <= j < |s.ran| :: s.ran[j] == j
  }

  ghost predicate RunnerInv(s: Shutdown) {
    && |s.results| <= |s.ran|
    && match s.runner
       case Between(k) => |s.ran| == |s.results| == k <= s.steps && AllNil(s.results) && s.done.None?
       case Within(k) => |s.ran| == k + 1 && |s.results| == k < s.steps && AllNil(s.results) && s.done.None?
       case Gone => |s.ran| == |s.results| && s.done.Some? && Reported(s, s.done.value)
  }

  /** What the goroutine reports: nil after every step succeeded, else the first failure. */
  ghost predicate Reported(s: Shutdown, err: Option<Error>) {
    if err.None? then AllNil(s.results) && |s.results| == s.steps
    else 0 < |s.results| && s.results[|s.results| - 1] == err && AllNil(s.results[..|s.results| - 1])
  }

  /** All steps succeeded and nil, without an exit. */
  ghost predicate Completed(s: Shutdown) {
    s.select.Returned? && s.select.err.None? && s.exits == [] && AllNil(s.results) && |s.results| == s.steps
  }

  /** The first failing step's error, without an exit, and no step after it. */
  ghost predicate StepFailed(s: Shutdown) {
    && s.select.Returned? && s.exits == [] && s.select.err.Some?
    && 0 < |s.results| == |s.ran| && s.select.err == FirstFailure(s.results) == s.results[|s.results| - 1]
  }

  ghost predicate SignalledAgain(s: Shutdown) {
    s.select.Returned? && s.select.err.None? && s.exits == [FORCED_EXIT_CODE]
  }

  ghost predicate OutOfTime(s: Shutdown) {
    && s.select.Returned? && s.select.err == Some(ErrTimeout) && s.exits == [FORCED_EXIT_CODE]
    && Deadline(s) <= s.select.at
  }

  ghost predicate SelectInv(s: Shutdown) {
    if s.select.Selecting? then s.exits == []
    else Completed(s) || StepFailed(s) || SignalledAgain(s) || OutOfTime(s)
  }

  ghost predicate Inv(s: Shutdown) {
    InOrder(s) && RunnerInv(s) && SelectInv(s)
  }

  lemma ReportedIsFirstFailure(s: Shutdown, err: Option<Error>)
    requires Reported(s, err)
    ensures err == FirstFailure(s.results)
  {
    if err.None? {
      NoFailure(s.results);
    } else {
      var n := |s.results| - 1;
      assert forall j | 0 <= j < n :: s.results[..n][j] == s.results[j];
      FirstFailureAt(s.results, n);
    }
  }

  lemma RunnerKept(s: Shutdown, e: Event)
    requires InOrder(s) && RunnerInv(s) && Possible(s, e)
    ensures InOrder(After(s, e)) && RunnerInv(After(s, e))
  {
    if e.FinishStep? {
      assert After(s, e).results[..|s.results|] == s.results;
    }
  }

  lemma InvKept(s: Shutdown, e: Event)
    requires Inv(s) && Possible(s, e)
    ensures Inv(After(s, e))
  {
    RunnerKept(s, e);
    if e.TakeDone? {
      ReportedIsFirstFailure(s, s.done.value);
    }
  }

  datatype Trace = Trace(states: seq<Shutdown>, events: seq<Event>)

  ghost predicate Stepped(t: Trace, k: nat) {
    && k < |t.events| && k + 1 < |t.states|
    && Possible(t.states[k], t.events[k]) && t.states[k + 1] == After(t.states[k], t.events[k])
  }

  ghost predicate IsTrace(t: Trace, steps: nat, grace: Time) {
    && |t.states| == |t.events| + 1
    && (exists now :: t.states[0] == Begin(steps, grace, now))
    && forall k | 0 <= k < |t.events| :: Stepped(t, k)
  }

  function End(t: Trace): Shutdown
    requires |t.states| > 0
  {
    t.states[|t.states| - 1]
  }

  lemma {:induction false} TraceKeepsInv(t: Trace, steps: nat, grace: Time, k: nat)
    requires IsTrace(t, steps, grace) && k < |t.states|
    ensures Inv(t.states[k]) && t.states[k].steps == steps && t.states[k].grace == grace
    ensures t.states[k].startedAt == t.states[0].startedAt
    decreases k
  {
    if k > 0 {
      TraceKeepsInv(t, steps, grace, k - 1);
      assert Stepped(t, k - 1);
      InvKept(t.states[k - 1], t.events[k - 1]);
    }
  }

  /** Once Shutdown has returned, it did so in exactly one of four ways. */
  lemma ExactlyOneOutcome(t: Trace, steps: nat, grace: Time)
    requires IsTrace(t, steps, grace) && End(t).select.Returned?
    ensures Completed(End(t)) || StepFailed(End(t)) || SignalledAgain(End(t)) || OutOfTime(End(t))
    ensures !(Completed(End(t)) && StepFailed(End(t))) && !(SignalledAgain(End(t)) && OutOfTime(End(t)))
    ensures Completed(End(t)) || StepFailed(End(t)) ==> !SignalledAgain(End(t)) && !OutOfTime(End(t))
    ensures End(t).select.err.None? && End(t).exits == [] <==> Completed(End(t))
  {
    TraceKeepsInv(t, steps, grace, |t.states| - 1);
  }

  /** However many signals arrive, the steps started are a prefix of the list, in order, each once. */
  lemma StepsStartInOrderOnce(t: Trace, steps: nat, grace: Time, k: nat)
    requires IsTrace(t, steps, grace) && k < |t.states|
    ensures InOrder(t.states[k])
    ensures forall j | 0 <= j < |t.states[k].ran| - 1 :: j < |t.states[k].results| && t.states[k].results[j].None?
  {
    TraceKeepsInv(t, steps, grace, k);
  }

  /** A trace can take any event that is possible where it ends. */
  lemma OneMoreEvent(t: Trace, steps: nat, grace: Time, e: Event) returns (u: Trace)
    requires IsTrace(t, steps, grace) && Possible(End(t), e)
    ensures IsTrace(u, steps, grace) && End(u) == After(End(t), e)
    ensures u.states == t.states + [After(End(t), e)] && u.events == t.events + [e]
  {
    u := Trace(t.states + [After(End(t), e)], t.events + [e]);
    assert u.states[0] == t.states[0];
    forall k | 0 <= k < |u.events| ensures Stepped(u, k) {
      if k < |t.events| { assert Stepped(t, k); }
    }
  }

  // ---- when it returns ----

  predicate IsTake(e: Event) {
    e.TakeDone? || e.TakeSecond? || e.TakeDeadline?
  }

  /** When the channel of a branch of the select first had something to receive. */
  function ReadyAt(s: Shutdown, take: Event): Option<Time> {
    match take
    case TakeDone => s.doneAt
    case TakeSecond => s.secondAt
    case TakeDeadline => Some(Deadline(s))
    case _ => None
  }

  function Sooner(a: Option<Time>, b: Time): Time {
    if a.Some? && a.value < b then a.value else b
  }

  /** The first instant at which one of the three channels had something to receive. */
  function FirstReady(s: Shutdown): Time {
    Sooner(s.doneAt, Sooner(s.secondAt, Deadline(s)))
  }

  /**
   The select reacts within `lag`: while it waits, the clock moves to no instant at which a branch can
   be taken that has been ready for longer.
   */
  ghost predicate Reacts(s: Shutdown, e: Event, lag: Time) {
    e.Tick? ==>
      forall take: Event | IsTake(take) && Possible(s.(now := e.to), take) ::
        ReadyAt(s, take).Some? && e.to <= ReadyAt(s, take).value + lag
  }

  ghost predicate IsReactive(t: Trace, lag: Time) {
    |t.events| <= |t.states| && forall k | 0 <= k < |t.events| :: Reacts(t.states[k], t.events[k], lag)
  }

  /** The branch of the select that was taken. */
  function Taken(s: Shutdown): Event
    requires s.select.Returned?
  {
    if s.exits == [] then TakeDone else if s.select.err.None? then TakeSecond else TakeDeadline
  }

  ghost predicate IsDuring(lo: Time, t: Option<Time>, hi: Time) {
    t.Some? ==> lo <= t.value <= hi
  }

  /** The recorded instants are in the past, and a channel is ready from its instant until it is received from. */
  ghost predicate TimesInv(s: Shutdown) {
    && s.startedAt <= s.now && IsDuring(s.startedAt, s.doneAt, s.now) && IsDuring(s.startedAt, s.secondAt, s.now)
    && (s.done.Some? <==> s.doneAt.Some?)
    && (s.select.Selecting? ==> (s.second <==> s.secondAt.Some?))
    && (s.select.Returned? ==>
          && s.select.at <= s.now
          && ReadyAt(s, Taken(s)).Some? && ReadyAt(s, Taken(s)).value <= s.select.at)
  }

  /** The select has been waiting, or waited, no longer than the lag after the first channel was ready. */
  ghost predicate InTime(s: Shutdown, lag: Time) {
    (if s.select.Selecting? then s.now else s.select.at) <= FirstReady(s) + lag
  }

  lemma TimesKept(s: Shutdown, e: Event)
    requires Inv(s) && TimesInv(s) && Possible(s, e)
    ensures TimesInv(After(s, e))
  {}

  lemma InTimeKept(s: Shutdown, e: Event, lag: Time)
    requires Inv(s) && TimesInv(s) && Possible(s, e) && InTime(s, lag) && Reacts(s, e, lag) && 0 <= lag
    ensures InTime(After(s, e), lag)
  {
    if e.Tick? && s.select.Selecting? {
      var s' := After(s, e);
      assert s.done.Some? ==> IsTake(TakeDone) && Possible(s', TakeDone);
      assert s.second ==> IsTake(TakeSecond) && Possible(s', TakeSecond);
      assert Deadline(s) <= e.to ==> IsTake(TakeDeadline) && Possible(s', TakeDeadline);
    }
  }

  lemma {:induction false} TraceIsInTime(t: Trace, steps: nat, grace: Time, lag: Time, k: nat)
    requires IsTrace(t, steps, grace) && IsReactive(t, lag) && 0 <= lag && k < |t.states|
    ensures Inv(t.states[k]) && TimesInv(t.states[k]) && InTime(t.states[k], lag)
    decreases k
  {
    TraceKeepsInv(t, steps, grace, k);
    if k > 0 {
      TraceIsInTime(t, steps, grace, lag, k - 1);
      assert Stepped(t, k - 1) && Reacts(t.states[k - 1], t.events[k - 1], lag);
      TimesKept(t.states[k - 1], t.events[k - 1]);
      InTimeKept(t.states[k - 1], t.events[k - 1], lag);
    }
  }

  /**
   Shutdown returns within the reaction lag of the first instant at which one of its three channels
   was ready, so within the lag of the grace period, and by a branch that was ready.
   */
  lemma ReturnsWithinGrace(t: Trace, steps: nat, grace: Time, lag: Time)
    requires IsTrace(t, steps, grace) && IsReactive(t, lag) && 0 <= lag
    ensures var s := End(t);
            if s.select.Selecting? then s.now <= FirstReady(s) + lag <= Deadline(s) + lag
            else && FirstReady(s) <= s.select.at <= FirstReady(s) + lag <= Deadline(s) + lag
                 && ReadyAt(s, Taken(s)).Some? && ReadyAt(s, Taken(s)).value <= s.select.at
  {
    TraceIsInTime(t, steps, grace, lag, |t.states| - 1);
  }

  /** The instant the grace period of a trace is over, from the instant it began. */
  lemma DeadlineIs(t: Trace, steps: nat, grace: Time)
    requires IsTrace(t, steps, grace)
    ensures 0 < grace ==> Deadline(End(t)) == t.states[0].now + grace
    ensures grace <= 0 ==> Deadline(End(t)) == t.states[0].now
  {
    TraceKeepsInv(t, steps, grace, |t.states| - 1);
  }

  /**
   Shutdown waits no longer than the grace period and the lag, no time at all for one that is not
   positive, and does not give up before. It exits the process with 1, and with that only when it is
   signalled again or gives up.
   */
  lemma GraceIsKept(t: Trace, steps: nat, grace: Time, lag: Time)
    requires IsTrace(t, steps, grace) && IsReactive(t, lag) && 0 <= lag
    ensures var s, began := End(t), t.states[0].now;
            var waited := (if s.select.Selecting? then s.now else s.select.at) - began;
            && 0 <= waited
            && (0 < grace ==> waited <= grace + lag)
            && (grace <= 0 ==> waited <= lag)
            && (s.exits == [] || s.exits == [1])
            && (s.select.Returned? && s.exits == [1] && s.select.err.Some? ==>
                  s.select.err == Some(ErrTimeout) && grace <= waited)
  {
    TraceIsInTime(t, steps, grace, lag, |t.states| - 1);
    TraceKeepsInv(t, steps, grace, |t.states| - 1);
    DeadlineIs(t, steps, grace);
  }

  /**
   Without a lag it returns at the first instant at which the report, a repeated signal or the end of
   the grace period is there, and one that is strictly first decides how.
   */
  lemma TheFirstReadyDecides(t: Trace, steps: nat, grace: Time)
    requires IsTrace(t, steps, grace) && IsReactive(t, 0) && End(t).select.Returned?
    ensures var s := End(t);
            var at, end := s.select.at, t.states[0].now + (if grace > 0 then grace else 0);
            && (s.doneAt == Some(at) || s.secondAt == Some(at) || at == end)
            && at <= end && (s.doneAt.Some? ==> at <= s.doneAt.value) && (s.secondAt.Some? ==> at <= s.secondAt.value)
            && (s.doneAt == Some(at) && s.secondAt != Some(at) && at < end ==> Completed(s) || StepFailed(s))
            && (s.secondAt == Some(at) && s.doneAt != Some(at) && at < end ==> SignalledAgain(s))
            && (at == end && s.doneAt != Some(at) && s.secondAt != Some(at) ==> OutOfTime(s))
  {
    TraceIsInTime(t, steps, grace, 0, |t.states| - 1);
    DeadlineIs(t, steps, grace);
  }

  /** The event gives the channel of the branch something to receive. */
  predicate Feeds(e: Event, take: Event) {
    match take
    case TakeDone => e.Report? || (e.FinishStep? && e.err.Some?)
    case TakeSecond => e.Signal?
    case _ => false
  }

  /** The channel was first fed at this instant. */
  ghost predicate FirstFed(t: Trace, k: nat, take: Event, at: Time)
    requires k < |t.states| && k <= |t.events|
  {
    exists j :: && 0 <= j < k && t.states[j].now == at && Feeds(t.events[j], take)
                && forall i | 0 <= i < j :: !Feeds(t.events[i], take)
  }

  ghost predicate NeverFed(t: Trace, k: nat, take: Event)
    requires k <= |t.events|
  {
    forall j | 0 <= j < k :: !Feeds(t.events[j], take)
  }

  /** The channel was first fed at the recorded instant, or never. */
  ghost predicate FedAt(t: Trace, k: nat, take: Event, at: Option<Time>)
    requires k < |t.states| && k <= |t.events|
  {
    if at.Some? then FirstFed(t, k, take, at.value) else NeverFed(t, k, take)
  }

  lemma OneMoreFeed(t: Trace, k: nat, take: Event, was: Option<Time>, now: Option<Time>)
    requires k + 1 < |t.states| && k < |t.events| && FedAt(t, k, take, was)
    requires now == if was.None? && Feeds(t.events[k], take) then Some(t.states[k].now) else was
    ensures FedAt(t, k + 1, take, now)
  {}

  /** The recorded instants are those of the goroutine's report and of the first repeated signal. */
  lemma {:induction false} InstantsAreOfEvents(t: Trace, steps: nat, grace: Time, k: nat)
    requires IsTrace(t, steps, grace) && k < |t.states|
    ensures FedAt(t, k, TakeDone, t.states[k].doneAt) && FedAt(t, k, TakeSecond, t.states[k].secondAt)
    decreases k
  {
    if k > 0 {
      InstantsAreOfEvents(t, steps, grace, k - 1);
      TraceKeepsInv(t, steps, grace, k - 1);
      TimesOfTrace(t, steps, grace, k - 1);
      assert Stepped(t, k - 1);
      OneMoreFeed(t, k - 1, TakeDone, t.states[k - 1].doneAt, t.states[k].doneAt);
      OneMoreFeed(t, k - 1, TakeSecond, t.states[k - 1].secondAt, t.states[k].secondAt);
    }
  }

  lemma {:induction false} TimesOfTrace(t: Trace, steps: nat, grace: Time, k: nat)
    requires IsTrace(t, steps, grace) && k < |t.states|
    ensures TimesInv(t.states[k])
    decreases k
  {
    if k > 0 {
      TimesOfTrace(t, steps, grace, k - 1);
      TraceKeepsInv(t, steps, grace, k - 1);
      assert Stepped(t, k - 1);
      TimesKept(t.states[k - 1], t.events[k - 1]);
    }
  }

  /**
   No step can hold it up: wherever a trace waits, the clock and a branch of the select alone make it
   return, at once if a channel is ready and at the deadline otherwise.
   */
  lemma NoStepHoldsItUp(t: Trace, steps: nat, grace: Time, lag: Time) returns (u: Trace)
    requires IsTrace(t, steps, grace) && IsReactive(t, lag) && 0 <= lag && End(t).select.Selecting?
    ensures IsTrace(u, steps, grace) && IsReactive(u, lag)
    ensures t.states <= u.states && t.events <= u.events
    ensures forall k | |t.events| <= k < |u.events| :: u.events[k].Tick? || IsTake(u.events[k])
    ensures End(u).select.Returned?
    ensures var s, end := End(t), t.states[0].now + (if grace > 0 then grace else 0);
            End(u).select.at == if s.done.Some? || s.second || end <= s.now then s.now else end
  {
    var s := End(t);
    DeadlineIs(t, steps, grace);
    TraceIsInTime(t, steps, grace, lag, |t.states| - 1);
    u := t;
    if !s.done.Some? && !s.second && s.now < Deadline(s) {
      u := WaitForTheDeadline(t, steps, grace, lag);
    }
    var take := if s.done.Some? then TakeDone else if s.second then TakeSecond else TakeDeadline;
    u := OneMoreEvent(u, steps, grace, take);
  }

  /** While nothing else is ready the clock may move to the deadline. */
  lemma WaitForTheDeadline(t: Trace, steps: nat, grace: Time, lag: Time) returns (u: Trace)
    requires IsTrace(t, steps, grace) && IsReactive(t, lag) && 0 <= lag
    requires !End(t).done.Some? && !End(t).second && End(t).now < Deadline(End(t))
    ensures IsTrace(u, steps, grace) && IsReactive(u, lag)
    ensures u.states == t.states + [End(u)] && u.events == t.events + [Tick(Deadline(End(t)))]
    ensures End(u) == End(t).(now := Deadline(End(t)))
  {
    u := OneMoreEvent(t, steps, grace, Tick(Deadline(End(t))));
  }

  /** What is left to do, not counting the clock and the signals. */
  function Work(s: Shutdown): int {
    (match s.runner case Between(k) => 2 * (s.steps - k) + 1 case Within(k) => 2 * (s.steps - k) case Gone => 0)
    + (if s.select.Selecting? then 1 else 0)
  }

  function Moves(events: seq<Event>): nat {
    if events == [] then 0
    else Moves(events[..|events| - 1]) + (if events[|events| - 1].Tick? || events[|events| - 1].Signal? then 0 else 1)
  }

  lemma {:induction false} WorkRunsOut(t: Trace, steps: nat, grace: Time, k: nat)
    requires IsTrace(t, steps, grace) && k <= |t.events|
    ensures Moves(t.events[..k]) + Work(t.states[k]) <= 2 * steps + 2 && 0 <= Work(t.states[k])
    decreases k
  {
    TraceKeepsInv(t, steps, grace, k);
    if k > 0 {
      WorkRunsOut(t, steps, grace, k - 1);
      TraceKeepsInv(t, steps, grace, k - 1);
      assert Stepped(t, k - 1);
      assert t.events[..k][..k - 1] == t.events[..k - 1];
    }
  }

  /** No run can go on for ever: two moves a step, one report and one return. */
  lemma ShutdownIsFinite(t: Trace, steps: nat, grace: Time)
    requires IsTrace(t, steps, grace)
    ensures Moves(t.events) <= 2 * steps + 2
  {
    WorkRunsOut(t, steps, grace, |t.events|);
    assert t.events[..|t.events|] == t.events;
  }
}

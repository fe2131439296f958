# Readiness, shutdown and startup of the PulseFlow services

A Dafny 4.11 model of the parts of `pulseflow-api` (and of the worker, which is wired the same way)
that decide whether a process is ready, how it stops, and what it refuses to start with, together
with proofs about every run of it. `dafny verify dfyconfig.toml` checks the whole project.

## What is modelled

**Readiness** (`internal/health/aggregate.go`). `Readiness` is a state machine in which any number
of concurrent `Evaluate` calls interleave with the clock, the shutdown flag, the flight they share
and the goroutines of a probe round. Its actions are the points between which other goroutines can
run: each gate read, each cache read, joining or leading the flight, the re-check inside it, the
start of a round, the start and the end of every check, collecting the slots, every metrics record,
publishing to the cache, landing, and leaving with the shared value. `ReadinessCore`,
`ReadinessLinks` and `ReadinessHistory` prove what every action keeps. `ReadinessTheorems`,
`ReadinessGate`, `ReadinessMetrics`, `ReadinessTiming` and `ReadinessUrgent` state what follows for
whole runs, `ReadinessProgress` that every call can finish, `ReadinessMoves` that every call does,
`ReadinessAnswers` what the answers say field by field, and `ReadinessScenarios` puts runs together that attain the bounds.
`Aggregate.Aggregator` is the same code as an object, section by section, proved against the functions
the state machine uses. Two modules connect it with the machine: `ReadinessReplay` (every run leaves the
cache, the metrics and the count of rounds that the object's rounds leave when they run one after
another) and `ReadinessAlone` (every call of any run that meets no other does what the object's
`Evaluate` does).

**Shutdown** (`internal/lifecycle/shutdown.go`) is the goroutine of steps raced in a `select` against
a second signal and the grace deadline. **Process** (`cmd/api/main.go`) composes it with the readiness
machine, the HTTP server and the lazily built clients (`Clients`), and proves that the composition
refines both; `ProcessProgress` shows that a clean end can be reached from wherever it serves.
**Guarantees** combines accepted configurations with histories of the process.

**Smaller parts**: error classification (`Checker`), metrics (`DepMetrics`), credential redaction
(`Sanitize`), trace identifiers and `traceparent` (`TraceIds`), the status recorder (`Recorder`), and
configuration loading (`Config`). `Text` holds the parts of Go's `strings` package they need.

Durations and times are unbounded integers of nanoseconds.

## Assumptions

- The clock never goes backwards: `Tick` only moves it forward. `EvaluatedAt` is stamped with `.UTC()`,
  which drops the monotonic reading, so the TTL test compares wall time, and a clock that is set back
  is outside the model.
- Singleflight runs at most one function at a time and its waiters get the leader's value.
- `http.Server.Shutdown` returns nil only when no handler is active, and none starts afterwards.
- Calling `BeginShutdown` is one atomic store; the first shutdown step takes effect when it finishes.
- Where a statement counts time (`IsTimelyRun`), time passes only inside checks, and every check
  returns by its deadline. Statements about all runs do not assume this.
- For recovery: every check *called* from time T on succeeds. This says both that the dependency is
  healthy and that the leader's request context, which the round uses, is not cancelled.
- `net/http` sends the first final status (200 to 999, and 101), ignores later ones, does not count
  informational ones, panics on an invalid one, and sends 200 for a handler that sends nothing.
- The metrics recorder is present, as `main.go` always wires it.

## Where the code does not do all that is claimed for it

- *Recovery within Timeout + CacheTTL* does not hold of every run: a flight that has found a failing
  result in the cache can be descheduled before it lands, and hands that result to a caller that joins
  it later. `ReadinessScenarios.RecoveryDelayIsExact` says for every aggregator with a checker for which
  delays recovery holds when no flight falls behind by more than a given lag: exactly from Timeout + CacheTTL + 2 lag - 2 on (in
  nanoseconds, with a positive TTL; Timeout + lag - 1 without one). The same holds with lag zero of the
  runs that count time only in checks, so there the claim is true. No delay is enough
  for every lag (`ReadinessScenarios.NoDelayCoversEveryLag`).
- *Not ready "immediately" once shutdown begins* holds exactly of the calls that read the gate after the
  flag is set (`ReadinessGate.ShutdownIsSeenByLaterReads`). A call that read the gate before and then hits
  the outer cache does not read it again; of the calls still open when the flag is set these, and no
  others, do not report the shutdown (`ReadinessGate.OnlyOuterHitsMissTheShutdown`).
  `ReadinessScenarios.CacheHitMissesTheShutdown` is a run in which one answers ready.
- *The recorded status is the one the client sees* fails exactly for handlers whose first operation is
  a `WriteHeader` with a status that is not final (`Recorder.RecordedIsReceived` is an equivalence).
- *A malformed traceparent is replaced*: the parser is more lenient than section 3.2.2 of W3C Trace
  Context Level 1. It adopts upper-case digits, any two-byte version, and any text after the trace-id
  that has a dash in it. `TraceIds.AdoptedExactlyWhenCarried` is the exact condition on the text,
  `TraceIds.AdoptedThoughMalformed` says of every adopted header when it is malformed, and
  `TraceIds.OddVersionsAreAdopted`, `TraceIds.UpperCaseIsAdopted`, `TraceIds.CutHeadersAreAdopted`,
  `TraceIds.PaddedHeadersAreAdopted` and, for version 00, `TraceIds.SuffixedVersion00IsAdopted` make one of
  every valid header.

## Model

| member | source | states |
|---|---|---|
| ReadinessTheorems.GateIsLinearizable | internal/health/aggregate.go:88-120 | every call has a moment inside it at which the shutdown flag equals the `ShuttingDown` it returns, and a shutdown answer is not ready |
| ReadinessTheorems.FlagIsOneWay | internal/health/aggregate.go:75-79 | once set, the flag stays set in every later state of the run |
| ReadinessTheorems.LateCallsReportShutdown | internal/health/aggregate.go:88-91 | a call that begins after `BeginShutdown` reports the shutdown and is not ready |
| ReadinessTheorems.ShutdownReportsAreSticky | internal/health/aggregate.go:88-120 | after one call has reported the shutdown, every call that begins later does |
| ReadinessTheorems.SharedCallsSeeLateShutdown | internal/health/aggregate.go:115-119 | a call whose flight was still in progress when the flag was set reports the shutdown, whatever the round found |
| ReadinessGate.ShutdownIsSeenByLaterReads | internal/health/aggregate.go:88-120 | a call reports the shutdown exactly when one of its gate reads comes after the action that sets the flag |
| ReadinessGate.OnlyOuterHitsMissTheShutdown | internal/health/aggregate.go:89-95 | of the calls open when the flag is set, exactly those that are answered by an outer cache hit do not report it, and each of these had read the gate before |
| ReadinessGate.GateAtIsTheLastRead | internal/health/aggregate.go:89-115 | what a call records as its latest gate read is the last gate read among the actions of the run |
| ReadinessScenarios.CacheHitMissesTheShutdown | internal/health/aggregate.go:89-95 | with a positive TTL there is a run in which a call open when the flag is set still answers ready |
| ReadinessTheorems.CacheHoldsTheNewestRound | internal/health/aggregate.go:103-107 | in every reachable state the cache is empty exactly when no round has been published, else it holds the newest published round's result, never a shutdown |
| ReadinessTheorems.RoundsAfterShutdownAreBounded | internal/health/aggregate.go:88-108 | rounds started after the flag is set number at most the calls that had passed the first gate read and reached no flight, and the leader of a flight that had not come to its round |
| ReadinessScenarios.RoundsAfterShutdownAttained | internal/health/aggregate.go:88-108 | for any number of such calls there is a run in which every one of them starts a round |
| ReadinessTheorems.LateLeadersWereAdmitted | internal/health/aggregate.go:88-108 | each such round is led by one of those calls, and no other call starts one |
| ReadinessTheorems.OneLeaderPerRound | internal/health/aggregate.go:97-108 | no two rounds have the same leading call |
| ReadinessTheorems.RoundsNeverOverlap | internal/health/aggregate.go:97-108 | when a round starts, every earlier one has collected all its checks, has reached the cache, and the newest has expired there |
| ReadinessTheorems.RoundsAreSpaced | internal/health/aggregate.go:123-134 | round q starts at least (q - p) TTLs after round p was evaluated |
| ReadinessTheorems.ProbeLoadIsBounded | internal/health/aggregate.go:46-49 | with a positive TTL a window of width W holds at most W / TTL + 1 round starts |
| ReadinessTheorems.AnswersAreWitnessed | internal/health/aggregate.go:93-110 | an answer without shutdown is exactly a completed round's result, unexpired in the cache at a moment inside the call, or made by, or unexpired during, a flight in progress at a moment inside the call |
| ReadinessTheorems.FlightsAreWitnessed | internal/health/aggregate.go:97-108 | what a flight hands out is the result of its own round, or was unexpired in the cache while the flight was in progress |
| ReadinessTheorems.FanOutIsSequential | internal/health/aggregate.go:143-161 | however the goroutines interleave, a round's statuses are the sequential map of `run` over the checkers, and its result is the one made from them |
| ReadinessTheorems.AnswersListEveryDependency | internal/health/aggregate.go:155-206 | every answer, fresh, cached or shutdown, lists all checkers in order; without shutdown it is ready exactly when all are healthy, and gives a vocabulary reason exactly for the unhealthy |
| ReadinessAnswers.OpenAnswersReportTheirRound | internal/health/aggregate.go:155-180 | an answer without shutdown names the service and its version, carries the time its round was collected, and reports for each checker in order its name, how long its check took, when it ended, its error, and the one reason the error gives evidence for; it is ready exactly when all checks succeeded |
| ReadinessAnswers.ShutdownAnswersRepeatTheCache | internal/health/aggregate.go:184-206 | a shutdown answer is not ready, names the service and its version, carries the time of the answer, and repeats the statuses then in the cache, or every checker's name, unhealthy, without reason, error or duration, if the cache is empty |
| ReadinessAnswers.CacheReportsTheNewestRound | internal/health/aggregate.go:103-106 | the cache reports, in the same words, the checks of the newest published round |
| ReadinessTheorems.OneFlightPerCall | internal/health/aggregate.go:97 | a call joins or leads at most one flight in its whole life |
| ReadinessCore.CoreKept | internal/health/aggregate.go:140-181 | every action keeps: rounds counted and well formed, the cache equal to the newest published round, the fold's partial verdict equal to that of the statuses folded so far |
| ReadinessLinks.LinksKept | internal/health/aggregate.go:88-120 | every action keeps: at most the newest flight is in progress and its leader waits in it, every answer is what its cache hit or flight held |
| ReadinessLinks.StepExtends | internal/health/aggregate.go:60-65 | no action moves the clock or the flag back or revises a completed round, a landed flight or an answered call |
| ReadinessHistory.SpacingKept | internal/health/aggregate.go:123-134 | every action keeps the times of rounds and checks ordered and consecutive rounds a TTL apart |
| ReadinessHistory.RunIsSound | internal/health/aggregate.go:88-181 | all of these hold in every state of every run |
| ReadinessHistory.RunRemembers | internal/health/aggregate.go:88-134 | what calls, flights and rounds record about gate reads, joins, cache hits and starts is what the earlier states of the run were |
| ReadinessReplay.RoundsReplaySequentially | internal/health/aggregate.go:97-108 | whatever the interleaving, when no round is in progress the cache, all metrics and the count of rounds are what the rounds leave when `evaluateNow` runs once for each, one after another; the names need not be distinct |
| ReadinessReplay.ReplayKept | internal/health/aggregate.go:163-178 | every action keeps the metrics equal to those of the published rounds in order and the folded part of the newest |
| ReadinessReplay.ProbeAndPublish | internal/health/aggregate.go:103-107 | on the aggregator object, one more round and its publication leave what the sequential replay of one more probe does |
| ReadinessMetrics.MetricsKept | internal/health/aggregate.go:163-166 | with distinct names, every action keeps each label's observations and gauge equal to the reported rounds |
| ReadinessMetrics.MetricsMatchTheCache | internal/health/aggregate.go:141-166 | with distinct names and no round in progress: calls of `Check`, observations and rounds of each dependency are equal in number, each observation is the duration its round measured, and the gauge is the health in the cache |
| ReadinessTiming.RecoveryIsBounded | internal/health/aggregate.go:88-134 | in every run a call that begins more than the recovery delay for its lag after checks stop failing reports ready (or shutdown) |
| ReadinessTiming.LateFlightsServeLateRounds | internal/health/aggregate.go:97-108 | a flight that lands that late hands out a round that started after the recovery |
| ReadinessScenarios.RecoveryDelayIsExact | internal/health/aggregate.go:97-134 | for every aggregator with a checker, and every lag, a delay is enough for recovery in all runs exactly when it is at least the recovery delay |
| ReadinessScenarios.TimelyRecoveryDelayIsExact | internal/health/aggregate.go:97-134 | the same of the runs that count time only in checks, with lag zero |
| ReadinessScenarios.LatestFailure | internal/health/aggregate.go:97-110 | for each of them a run that keeps the lag and in which a call that begins at the last instant of the recovery delay is handed the failure |
| ReadinessScenarios.NoDelayCoversEveryLag | internal/health/aggregate.go:97-110 | without a bound on the lag no delay is enough |
| ReadinessUrgent.PromptKept | internal/health/checker.go:62-68 | counting time only in checks, every action keeps each round, flight and call inside its one Timeout |
| ReadinessUrgent.CallsReturnWithinOneTimeout | internal/health/aggregate.go:88-120 | counting time only in checks, a call that has returned did so within one Timeout of its start |
| ReadinessUrgent.OpenCallsAreInTime | internal/health/aggregate.go:88-120 | and a call that has not has been open for no longer than one Timeout |
| ReadinessProgress.EveryCallCanReturn | internal/health/aggregate.go:88-120 | wherever a run is, every open call can be brought to its answer at the present instant, by its own steps and those of its flight, whatever the checks still to answer do |
| ReadinessProgress.CallsCanReturn | internal/health/aggregate.go:88-120 | and so can any set of calls, one after another |
| ReadinessProgress.FlightLands | internal/health/aggregate.go:97-108 | from every point of its function the flight in progress can land at once |
| ReadinessMoves.MovesAreFinite | internal/health/aggregate.go:88-181 | from any state no more moves (actions other than the clock, a new call and the flag) can follow than the steps left to its calls, its flight and the flights these may yet lead |
| ReadinessMoves.MovesAnswerEveryCall | internal/health/aggregate.go:88-120 | so in whatever order they are taken they come to an end, and where none is possible every call has been answered, at the instant they began, and no flight is in progress |
| ReadinessUrgent.RoundsTakeTheirLongestCheck | internal/health/aggregate.go:136-153 | a round lasts exactly as long as its longest check, and at most one Timeout |
| ReadinessUrgent.TimelyRunsHaveNoLag | internal/health/aggregate.go:97-108 | counting time only in checks the lag is zero |
| ReadinessUrgent.RecoveryTakesUnderTwoTimeouts | internal/config/validate.go:50-58 | counting time only in checks, recovery takes the recovery delay without a lag, which is under two Timeouts when TTL is below Timeout |
| Guarantees.AcceptedConfigurationsRecover | internal/config/validate.go:50-58 | for every environment `Load` accepts, in every history of the process built from it that counts time only in checks, a call that begins two Timeouts after its dependencies recover is ready (or reports shutdown) |
| Guarantees.OptionsAreAsConfigured | cmd/api/main.go:95-103 | the aggregator has the three checkers in their order, the configured timeout and TTL, and the service's name and version |
| Guarantees.AcceptedConfigurationsBoundLoad | internal/config/validate.go:50-58 | in every such history no call, answered or not, has been open for longer than the timeout, itself at most 30 seconds, and with a positive TTL probe load is bounded as above |
| Guarantees.ProcessMetricsMatchTheCache | cmd/api/main.go:84-104 | the metrics conservation law holds in every state of the wired process |
| Aggregate.Aggregator.constructor | internal/health/aggregate.go:68-73 | nothing cached, not shutting down, no rounds |
| Aggregate.Aggregator.BeginShutdown | internal/health/aggregate.go:79 | sets the flag and changes nothing else |
| Aggregate.Aggregator.Fresh | internal/health/aggregate.go:123-134 | finds the cached result exactly when there is one strictly younger than the TTL |
| Aggregate.Aggregator.FanOut | internal/health/aggregate.go:143-153 | for every order of completion the slots hold the sequential map of `run` |
| Aggregate.Aggregator.Fold | internal/health/aggregate.go:155-178 | the result is ready exactly when all statuses are healthy, and every status has reached the metrics in order |
| Aggregate.Aggregator.EvaluateNow | internal/health/aggregate.go:140-181 | one round: its result, one more round counted, every dependency recorded |
| Aggregate.Aggregator.BuildShutdownResult | internal/health/aggregate.go:184-207 | not ready, shutting down, the cached dependencies or else every checker's name unprobed |
| Aggregate.Aggregator.Evaluate | internal/health/aggregate.go:88-120 | for a caller that meets no other: what it returns, caches, counts and records in each of the gate, outer hit, inner hit and round cases, with the flag set at any point between |
| ReadinessAlone.AloneIsSequential | internal/health/aggregate.go:88-120 | in any run, a call during which every other is over leaves and returns what the sequential `Evaluate` does with the clock at its own cache read, at its flight's cache read and at its end, the checks and the time of its flight's round, and the flag set where it was set among its reads |
| ReadinessAlone.LoneFlightsRunRounds | internal/health/aggregate.go:98-102 | such a call never finds the cache fresh at the re-check: only what another call published meanwhile can be |
| ReadinessAlone.RunKeepsHits | internal/health/aggregate.go:98-103 | in every reachable state a flight that found the cache fresh has run no round |
| Checker.StatusOf | internal/health/checker.go:62-81 | healthy exactly without an error, exactly then without a reason, else a reason of the vocabulary; the duration is rounded down to milliseconds |
| Checker.StatusByEvidence | internal/health/checker.go:62-81 | the status of a check has the checker's name, the end of the check, its error and its duration in whole milliseconds, is healthy exactly without an error, and otherwise has a reason exactly when the error gives evidence for it and none for a stronger one |
| Checker.ClassifyByEvidence | internal/health/checker.go:84-114 | each reason is given exactly when its evidence is on the flattened error chain and no stronger evidence is |
| Checker.IsSearchesTheChain | internal/health/checker.go:89-97 | a sentinel test succeeds exactly when some error of the flattened tree answers to it |
| Checker.NetworkIsFirstOnTheChain | internal/health/checker.go:92-95 | the timeout asked for is that of the first network error of the flattened tree |
| Checker.OpSearchesTheChain | internal/health/checker.go:107-110 | the operation error test succeeds exactly when the flattened tree holds one |
| Checker.ChainIsClosed | internal/health/checker.go:89-110 | the flattened tree holds everything an error on it unwraps to, each of several causes, and nothing else |
| Checker.ChainIsDepthFirst | internal/health/checker.go:92-95 | an error comes before its causes, and the first cause with all of its tree before the second |
| Checker.AuthByMarkers | internal/health/checker.go:119-138 | a text looks like a credential rejection exactly when it spells one of the eight markers, in letters of either case |
| Checker.PrefixesAreClean | internal/health/checker.go:119-128 | no authentication marker can begin in a checker's own prefix, whatever text follows |
| Checker.AuthVerdictIgnoresPrefix | internal/health/checker.go:130-138 | a checker's prefix neither hides nor fakes a credential rejection, for any text |
| Checker.ClassifySeesThroughWrapping | internal/health/checker.go:84-114 | any stack of the checkers' prefixes leaves the classification of every error unchanged |
| DepMetrics.DependencyMetrics.RecordDependencyCheck | internal/observability/depmetrics.go:40-47 | sets the label's gauge to 1 or 0 by health, appends one observation of the duration to the label's, leaves every other label alone |
| Clients.LazyChecker.Check | internal/health/kafka.go:34-46 | the first check builds the client, and leaves it open or keeps the error; no other does; a check succeeds exactly when built and answered, and its error is the driver's behind the checker's prefix and classifies as that does |
| Clients.LazyChecker.Close | internal/health/kafka.go:49-54 | closes the client if there is one and never builds one |
| Clients.BuildsOnce | internal/health/clickhouse.go:47-53 | no later attempt, before or after `Close`, builds again |
| Clients.FirstBuildDecides | internal/health/kafka.go:35-40 | the first build gives an open client, or the error and none |
| Clients.ReleaseCloses | internal/health/kafka.go:49-54 | closing closes a client that is there, and changes nothing else |
| Lifecycle.RunSteps | internal/lifecycle/shutdown.go:102-110 | reports the first failing step's error, nothing after it started; or nil after all succeeded |
| Lifecycle.InvKept | internal/lifecycle/shutdown.go:102-137 | every event keeps steps in order, the report equal to the first failure, and the return one of four outcomes |
| Lifecycle.ExactlyOneOutcome | internal/lifecycle/shutdown.go:112-137 | every return is exactly one of: all succeeded and nil, first failure, second signal with exit, deadline with `ErrTimeout` and exit; nil without exit means every step succeeded |
| Lifecycle.StepsStartInOrderOnce | internal/lifecycle/shutdown.go:102-110 | however many signals arrive, the steps started are a prefix of the list, in order, each once, each after the one before succeeded |
| Lifecycle.ReturnsWithinGrace | internal/lifecycle/shutdown.go:91-137 | if the select reacts within a lag to a ready branch, it returns no later than the lag after the first instant at which one of the three channels was ready, so within the grace period and the lag, and by a branch that was ready |
| Lifecycle.GraceIsKept | internal/lifecycle/shutdown.go:91-137 | counted from its beginning, Shutdown waits no longer than the grace period and the reaction lag, no longer than the lag for a grace period that is not positive, and does not give up with `ErrTimeout` before the grace period is over; the only exit code is 1, and it is used once |
| Lifecycle.TheFirstReadyDecides | internal/lifecycle/shutdown.go:112-137 | without a lag it returns at exactly the earliest of report, second signal and beginning plus grace period, and one that is strictly first decides the outcome |
| Lifecycle.InstantsAreOfEvents | internal/lifecycle/shutdown.go:102-120 | the instants compared are those of the goroutine's report and of the first repeated signal |
| Lifecycle.NoStepHoldsItUp | internal/lifecycle/shutdown.go:112-137 | wherever it waits, the clock and one branch of the select alone make it return: at once if a channel is ready, else at beginning plus grace period, though no step ever finishes |
| Lifecycle.ShutdownIsFinite | internal/lifecycle/shutdown.go:102-137 | no run has more than two moves a step, one report and one return |
| Process.ReadinessRuns | cmd/api/main.go:95-104 | the readiness half of every history of the process is a run of the readiness machine, and counts time only in checks if the history does |
| Process.ShutdownRuns | cmd/api/main.go:133-152 | the shutdown half, from the first signal on, is a trace of `lifecycle.Shutdown` over three steps, on the same clock |
| Process.StopsWithinGrace | cmd/api/main.go:125-152 | in the whole process, counted from the first signal and with its grace period, shutdown has returned within the grace period and the reaction lag of its select, whatever handlers, drain and closes do, and has not given up before the grace period is over |
| Process.HistoryKeepsOrder | cmd/api/main.go:131-152 | every event of the process keeps gate before drain before close, and the clients' states matching them |
| Process.GateThenDrainThenClose | cmd/api/main.go:131-152 | the gate is closed before the server stops accepting, and closing starts only after the gate and drain steps returned nil, with no handler active and no check running |
| Process.TheProcessEndsOneWay | cmd/api/main.go:133-152 | shutdown ends in one of four ways; a clean end has closed every client with no handler left, a failing step is never the gate, and a failed drain has closed no client |
| Process.NoCheckTouchesAClosedClient | cmd/api/main.go:140-151 | once the first close has begun, no check runs or starts and no client is built, ever |
| Process.RunningChecksHaveOpenClients | internal/health/kafka.go:34-54 | while a check runs its client has been initialised and not closed, and no close has begun |
| Process.RunningChecksUseTheirClient | internal/health/kafka.go:34-46 | and that client is open, or building it gave an error |
| Process.ClientsAreAsFirstBuilt | internal/health/kafka.go:35-54 | a client is what its checker's first check made of it, open or never there, until it is closed |
| Process.AbortedStartupLeavesNothing | cmd/api/main.go:109-114 | a process stopped before it listens has served no call, run no round and built no client |
| Process.CleanExitReleasesEverything | cmd/api/main.go:133-152 | when shutdown completes without a forced exit every handler is done, every client that the first check of its checker could build is closed, and no other was ever there |
| ProcessProgress.CleanStopIsPossible | cmd/api/main.go:125-152 | from every state in which the process serves, with whatever calls and rounds are under way, a signal can bring it to a completed shutdown, without waiting |
| ProcessProgress.HandlersFinish | cmd/api/main.go:144 | in every state of a live process all active handlers can finish, so the drain can succeed |
| ProcessProgress.ProcessesEndCleanly | cmd/api/main.go:106-152 | every process has a history that listens, is signalled, and completes its shutdown |
| Sanitize.MatcherIsExact | internal/logging/sanitize.go:20 | the matcher finds every substring the pattern describes, and at most one begins at each place |
| Sanitize.MatcherIsSound | internal/logging/sanitize.go:20 | what the matcher finds is a substring the pattern describes |
| Sanitize.FoundIsLeftmost | internal/logging/sanitize.go:26-31 | nothing before the match found begins a match |
| Sanitize.NothingToRedact | internal/logging/sanitize.go:26-31 | a text in which no substring is as the pattern describes is left alone |
| Sanitize.FirstMatchIsRedacted | internal/logging/sanitize.go:26-36 | of any other the secret of the first such substring becomes `[redacted]`, and the text after it is rewritten in the same way |
| Sanitize.RedactionIsAFixedPoint | internal/logging/sanitize.go:26-36 | a second pass changes nothing, every match of the output has the marker as its secret, all text outside secrets is kept in order |
| Sanitize.TextIsWoven | internal/logging/sanitize.go:26-36 | every text is its outside with its secrets between the stretches |
| Sanitize.OutputIsWovenWithMarkers | internal/logging/sanitize.go:26-36 | the output is the same outside with one marker for each secret |
| TraceIds.DecodeUndoesEncode | internal/logging/context.go:31 | hex decoding undoes encoding for all byte strings |
| TraceIds.PrintedDigits | internal/logging/context.go:30-31 | every byte is printed as two digits of 0123456789abcdef, the higher first |
| TraceIds.EncodeUndoesDecode | internal/logging/context.go:53 | encoding what was decoded gives the lower case of the digits |
| TraceIds.ParseUndoesPrint | internal/logging/context.go:48-60 | parsing a printed identifier returns it, unless it is all zero |
| TraceIds.PrintUndoesParse | internal/logging/context.go:48-60 | parsing accepts exactly 32 hex digits that are not all zeros, and printing gives back their lower case |
| TraceIds.FromTraceparent | internal/logging/context.go:89-99 | the all-zero identifier is never adopted |
| TraceIds.AdoptedExactlyWhenCarried | internal/logging/context.go:89-99 | an identifier is adopted exactly when the trimmed header is two bytes, 32 hex digits that it prints as in lower case and that are not all zeros, and a rest with a dash, separated by dashes |
| TraceIds.RequestsAdoptOrDraw | internal/logging/context.go:103-108 | a request is traced by the identifier its header carries, and by the drawn one exactly when it carries none |
| TraceIds.AdoptedThoughMalformed | internal/logging/context.go:89-99 | every adopted header is, trimmed, a version, the text of the identifier and a rest, and it is well formed exactly when it has no white space around it and these three are as section 3.2.2 wants of that version |
| TraceIds.PaddedHeadersAreAdopted | internal/logging/context.go:90 | every valid header is malformed and still adopted with white space around it |
| TraceIds.OddVersionsAreAdopted | internal/logging/context.go:94-97 | every valid header is malformed and still adopted once its version is "ff" or no lower-case hex |
| TraceIds.UpperCaseIsAdopted | internal/logging/context.go:48-60 | so it is with upper-case digits in its trace-id |
| TraceIds.CutHeadersAreAdopted | internal/logging/context.go:90-93 | so it is with anything that has a dash in it after the trace-id and is not what its version may have there |
| TraceIds.SuffixedVersion00IsAdopted | internal/logging/context.go:94-98 | so it is with anything after the flags of version 00, which section 3.2.2 does not allow |
| TraceIds.ValidHeadersAreAdopted | internal/logging/context.go:89-108 | every header valid under section 3.2.2 of W3C Trace Context Level 1 is adopted with its trace-id, whatever suffix its version may have |
| TraceIds.FieldsAreAdopted | internal/logging/context.go:89-108 | and so is every header of valid fields whatever dash-separated suffix follows, valid or not |
| Recorder.Response.WriteHeader | internal/httpserver/middleware.go:31 | the response underneath: first final status wins, invalid ones panic |
| Recorder.StatusRecorder.WriteHeader | internal/httpserver/middleware.go:26-32 | keeps the first status, passes every one on |
| Recorder.StatusRecorder.Write | internal/httpserver/middleware.go:34-40 | counts as a 200 when nothing was written before |
| Recorder.Observe | internal/httpserver/middleware.go:63-91 | exactly one observation a request, with or without a panic, of the recorder's code |
| Recorder.RecordedIsReceived | internal/httpserver/middleware.go:26-40 | the code recorded is the one the client receives exactly when the handler does not begin with a status that is not final |
| Recorder.WhatIsReceivedAndRecorded | internal/httpserver/middleware.go:20-40 | for every handler: the client receives the first status that is not sent ahead, 200 from a body or a rejected status, 200 or 500 from silence; the first status is recorded |
| Recorder.FinalStatusesAgree | internal/httpserver/middleware.go:63-90 | with statuses 200 to 999 they always agree; both are the first one, 200 for a silent handler, 500 for one that panics silently |
| Config.Collector.IntVal | internal/config/parse.go:51-62 | the parsed value, or the default with the failure appended |
| Config.Collector.Duration | internal/config/parse.go:64-75 | the parsed value, or the default with the failure appended |
| Config.Collector.List | internal/config/parse.go:77-94 | the trimmed non-empty segments in order, or the default with the failure appended when there are none |
| Config.Collector.RequireBrokers | internal/config/validate.go:37-42 | appends one complaint for an empty list, or one for each broker that is not a host with a port from 1 to 65535, in their order |
| Config.Collector.RequireHostPort | internal/config/validate.go:96-110 | appends a complaint exactly when the value is not a host with a numeric port in range |
| Config.Collector.RequireDurationRange | internal/config/validate.go:85-93 | appends a complaint exactly when the duration is out of range |
| Config.Collector.Validate | internal/config/validate.go:27-59 | appends exactly the violated rules' complaints, in order, whatever was collected before |
| Config.Load | internal/config/config.go:62-95 | what is accepted has been read field by field, each from its own variable if that is set and not empty and from its own default otherwise, parses and is usable; everything such is accepted; a rejection gives exactly the complaints there are, each with its variable, value and what is wanted, those of parsing first, all in the order of the fields and rules |
| Config.AcceptsExactlyTheUsable | internal/config/config.go:62-95 | there are no problems exactly when every set variable parses and the configuration, field by field, is usable |
| Config.ParsedReadsItsFields | internal/config/config.go:65-87 | every field of the configuration is its own variable's value or its own literal default |
| Config.ProblemsAreExact | internal/config/validate.go:27-59 | a problem is reported exactly when it is a parse failure or the complaint of a rule the defaulted configuration violates |
| Config.ProblemsAreReported | internal/config/validate.go:27-59 | a problem is reported exactly when it is one of the complaints listed for the field values, one by one |
| Config.ProblemsComeInOrder | internal/config/validate.go:27-59 | parse failures come first, in the order of the fields, then the complaints in the order of the rules |
| Config.ListSurvivesPrinting | internal/config/mask.go:41 | for every raw value that parses, printing the list with commas and parsing it again gives the same list |
| Config.ListsConcatenate | internal/config/parse.go:82-88 | values joined by a comma parse to the lists one after the other |
| Config.EntriesAreRead | internal/config/parse.go:82-88 | an entry without a comma is read trimmed of the white space around it |
| Config.PaddingIsIgnored | internal/config/parse.go:82-88 | white space around any of the segments of any value never changes the list |
| Config.BlankSegmentsAreIgnored | internal/config/parse.go:82-88 | a blank segment, first, last or in between, never changes the list |
| Text.SplitUndoesJoin | internal/config/parse.go:82 | splitting undoes joining for parts without the separator |
| Text.WhiteSpaceIs | internal/config/parse.go:85 | white space is the 25 characters Go trims |
| Text.WidthIs | internal/logging/context.go:50 | lengths count bytes of UTF-8 |
| Text.TrimSpaceTakesOffPadding | internal/config/parse.go:85 | trimming takes off white space at both ends and leaves none there |
| Text.JoinUndoesSplit | internal/config/parse.go:82 | joining undoes splitting for every text |

## Left out

- Readiness, Lifecycle and Process are state machines over values, not objects: what matters in them is the interleaving. The code between two interleaving points is in the classes `Aggregator`, `DependencyMetrics` and `LazyChecker`. They and the machines meet in the functions both use (`IsFresh`, `StatusOf`, `RoundResult`, `ShutdownResult`, `RecordedStatus`, `Built`, `Released`) and in `ReadinessReplay` and `ReadinessAlone`.
- Redact: covers the first credential pattern (DSN userinfo) only. The key=value pattern, which is not idempotent when text directly follows a quoted value, and the loop over both are not modelled.
- Aggregate.Aggregator.Evaluate: speaks of a caller that meets no other caller (`ReadinessAlone`); concurrent calls are the subject of the other `Readiness` modules.
- Checker.LowerChar: distinguishes only characters whose lower case is an ASCII letter, which is all the markers can see.
- ReadinessTiming.RecoveryIsBounded: a cancelled leader context counts as a failing check, so runs with one are outside its hypothesis.
- Lifecycle.ReturnsWithinGrace: how soon a goroutine that waits in a `select` runs once a branch is ready is the scheduler's, and a parameter.
- A check that panics, which would end the process, and the panic re-raised by singleflight.
- `Signals`: that the second channel carries nothing earlier than the second signal; the model lets a signal arrive at any time.
- A nil metrics recorder; the histogram's buckets and the conversion of durations to floating point seconds.
- `ReadinessHandler`, JSON field names, HTTP headers, log records and route labels: formatting.
- The liveness handler and the masking of passwords in `Config`: constant or single-branch.
- The names of environment variables and the wording of problems: a problem names its setting and what was wanted as data. `strconv.Atoi`, `time.ParseDuration`, `net.SplitHostPort` and the printing of numbers are parameters, so their own syntax is not modelled.
- The drivers, `net/http`, Prometheus and `errors.Join`: their calls are outcomes the environment chooses under the assumptions above. Errors that define their own `Is` or `As` methods are described by the sentinels and types they answer to.
- Texts that are not valid UTF-8, in headers, errors and variables.
- The randomness of fresh trace identifiers: `ForRequest` takes the drawn identifier as a parameter.
- `SelfCheck`, build information, the Makefile, Docker files and scripts: plumbing.

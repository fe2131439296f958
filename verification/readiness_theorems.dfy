/** What the readiness protocol guarantees in every run, whatever the interleaving and the clock. */
module ReadinessTheorems {
  import opened Prelude
  import opened Checker
  import opened Aggregate
  import opened Readiness
  import opened ReadinessCore
  import opened ReadinessLinks
  import opened ReadinessHistory

  function Last(r: Run): State
    requires |r.states| > 0
  {
    r.states[|r.states| - 1]
  }

  /** A run can take any action that is enabled where it ends. */
  lemma Extended(o: Options, r: Run, a: Action) returns (q: Run)
    requires IsRun(o, r) && Enabled(o, Last(r), a)
    ensures IsRun(o, q) && Last(q) == Next(o, Last(r), a)
    ensures q.states == r.states + [Last(q)] && q.actions == r.actions + [a]
  {
    q := Run(r.states + [Next(o, Last(r), a)], r.actions + [a]);
    assert q.states[0] == r.states[0];
    forall k | 0 <= k < |q.actions| ensures Took(o, q, k) {
      if k < |r.actions| { assert Took(o, r, k); }
    }
  }

  ghost predicate AnsweredIn(o: Options, r: Run, c: nat) {
    IsRun(o, r) && c in Last(r).calls && Last(r).calls[c].pc.Answered?
  }

  function AnswerOf(r: Run, c: nat): Result
    requires |r.states| > 0 && c in Last(r).calls && Last(r).calls[c].pc.Answered?
  {
    Last(r).calls[c].pc.result
  }

  /** The state with index m is one the call saw: it had begun and was not yet answered. */
  ghost predicate Inside(r: Run, c: nat, m: nat)
    requires |r.states| > 0 && c in Last(r).calls && Last(r).calls[c].pc.Answered?
  {
    var call := Last(r).calls[c];
    call.begun < m <= call.pc.answered < |r.states|
  }

  lemma Recall(o: Options, r: Run, c: nat)
    requires AnsweredIn(o, r, c)
    ensures CallMemory(o, r.states, |r.states| - 1, c, Last(r).calls[c])
    ensures CallOk(o, Last(r), Last(r).calls[c])
    ensures Sound(o, Last(r))
    ensures AnswerOf(r, c).shuttingDown <==> Last(r).calls[c].pc.via.Gate?
  {
    RunRemembers(o, r, |r.states| - 1);
    RunIsSound(o, r, |r.states| - 1);
    SharedAnswersAreOpen(o, Last(r), c);
  }

  lemma SharedAnswersAreOpen(o: Options, s: State, c: nat)
    requires Links(o, s) && c in s.calls && s.calls[c].pc.Answered?
    ensures s.calls[c].pc.result.shuttingDown <==> s.calls[c].pc.via.Gate?
  {
    var call := s.calls[c];
    assert CallOk(o, s, call);
    if HasLanded(s, call) {
      assert FlightOk(o, s, call.joined.value);
    }
  }

  // ---- the shutdown gate ----

  /** The flag has, at a moment inside the call, the value the call reports. */
  lemma GateIsLinearizable(o: Options, r: Run, c: nat) returns (m: nat)
    requires AnsweredIn(o, r, c)
    ensures Inside(r, c, m) && r.states[m].shuttingDown == AnswerOf(r, c).shuttingDown
    ensures AnswerOf(r, c).shuttingDown ==> AnswerOf(r, c).status == NotReady
  {
    Recall(o, r, c);
    m := Last(r).calls[c].gateAt;
  }

  lemma FlagIsOneWay(o: Options, r: Run, i: nat, k: nat)
    requires IsRun(o, r) && i <= k < |r.states| && r.states[i].shuttingDown
    ensures r.states[k].shuttingDown
  {
    RunExtends(o, r, i, k);
  }

  /** A call that begins once shutdown has begun reports it. */
  lemma LateCallsReportShutdown(o: Options, r: Run, c: nat, b: nat)
    requires AnsweredIn(o, r, c) && b <= Last(r).calls[c].begun
    requires b < |r.states| && r.states[b].shuttingDown
    ensures AnswerOf(r, c).shuttingDown && AnswerOf(r, c).status == NotReady
  {
    var m := GateIsLinearizable(o, r, c);
    FlagIsOneWay(o, r, b, m);
  }

  /** Once a call has reported the shutdown, so does every call that begins later. */
  lemma ShutdownReportsAreSticky(o: Options, r: Run, c: nat, d: nat)
    requires AnsweredIn(o, r, c) && AnsweredIn(o, r, d)
    requires AnswerOf(r, c).shuttingDown && Last(r).calls[c].pc.answered <= Last(r).calls[d].begun
    ensures AnswerOf(r, d).shuttingDown && AnswerOf(r, d).status == NotReady
  {
    var m := GateIsLinearizable(o, r, c);
    LateCallsReportShutdown(o, r, d, m);
  }

  /** A call whose flight was still in progress when the flag was set reports the shutdown: the gate is read again. */
  lemma SharedCallsSeeLateShutdown(o: Options, r: Run, c: nat, b: nat)
    requires AnsweredIn(o, r, c) && Last(r).calls[c].joined.Some?
    requires b < |r.states| && r.states[b].shuttingDown
    requires InProgress(r, Last(r).calls[c].joined.value, b)
    ensures AnswerOf(r, c).shuttingDown && AnswerOf(r, c).status == NotReady
  {
    Recall(o, r, c);
    var call := Last(r).calls[c];
    if call.gateAt <= b {
      RunExtends(o, r, call.gateAt, b);
    }
    FlagIsOneWay(o, r, b, call.gateAt);
  }

  /** The cache only ever holds what the newest published round reported, never a shutdown. */
  lemma CacheHoldsTheNewestRound(o: Options, r: Run, k: nat)
    requires IsRun(o, r) && k < |r.states|
    ensures var s := r.states[k];
            if s.cached.None? then Published(s) == 0
            else && !s.cached.value.result.shuttingDown
                 && s.cached.value.round == Published(s) - 1
                 && IsRoundEntry(o, s.rounds, s.cached.value)
  {
    RunIsSound(o, r, k);
  }

  // ---- rounds after shutdown ----

  /** The flight in progress has not got as far as its round. */
  predicate BeforeItsRound(s: State) {
    Flying(s) && (Current(s).phase.Rechecking? || Current(s).phase.Missed?)
  }

  /** The calls that have passed the first gate read and reached no flight, and the leader of one before its round. */
  function MayStart(s: State): set<nat> {
    set c | c in s.calls &&
            (s.calls[c].pc.PastGate? || s.calls[c].pc.AtFlight?
             || (s.calls[c].pc.InFlight? && BeforeItsRound(s) && Current(s).leader == c))
  }

  /** The leaders of the flights of the rounds from lo to hi, one a round. */
  function Leaders(s: State, lo: nat, hi: nat): seq<int>
    requires lo <= hi <= |s.rounds|
    requires forall q | 0 <= q < |s.rounds| :: s.rounds[q].flight < |s.flights|
  {
    seq(hi - lo, i requires 0 <= i < hi - lo => s.flights[s.rounds[lo + i].flight].leader)
  }

  function Elements(xs: seq<int>): set<int> {
    set x | x in xs
  }

  lemma {:induction false} DistinctElements(xs: seq<int>)
    requires forall i, j | 0 <= i < j < |xs| :: xs[i] != xs[j]
    ensures |Elements(xs)| == |xs|
  {
    if xs != [] {
      var n := |xs| - 1;
      DistinctElements(xs[..n]);
      assert Elements(xs) == Elements(xs[..n]) + {xs[n]};
    }
  }

  lemma FlightsOfRoundsDiffer(o: Options, s: State, p: nat, q: nat)
    requires Sound(o, s) && p < q < |s.rounds|
    ensures s.rounds[p].flight < s.rounds[q].flight
  {
    assert FollowsLast(o, s.rounds, q);
    if p < q - 1 {
      FlightsOfRoundsDiffer(o, s, p, q - 1);
    }
  }

  /** The leader of a round's flight leads no earlier round's. */
  lemma LeadersDiffer(o: Options, s: State, p: nat, q: nat)
    requires Sound(o, s) && p < q < |s.rounds|
    ensures s.flights[s.rounds[p].flight].leader != s.flights[s.rounds[q].flight].leader
  {
    FlightsOfRoundsDiffer(o, s, p, q);
    assert RoundTimed(s, s.rounds[p]) && RoundTimed(s, s.rounds[q]);
    assert FlightOk(o, s, s.rounds[p].flight) && FlightOk(o, s, s.rounds[q].flight);
  }

  lemma OneLeaderPerRound(o: Options, s: State, lo: nat, hi: nat)
    requires Sound(o, s) && lo <= hi <= |s.rounds|
    ensures |Elements(Leaders(s, lo, hi))| == hi - lo
  {
    var leaders := Leaders(s, lo, hi);
    forall i, j | 0 <= i < j < |leaders| ensures leaders[i] != leaders[j] {
      LeadersDiffer(o, s, lo + i, lo + j);
    }
    DistinctElements(leaders);
  }

  lemma LateRoundsBeginLate(o: Options, r: Run, b: nat, q: nat)
    requires IsRun(o, r) && b < |r.states| && |r.states[b].rounds| <= q < |Last(r).rounds|
    ensures b <= Last(r).rounds[q].begun
    ensures RoundMemory(r.states, |r.states| - 1, q, Last(r).rounds[q])
  {
    RunRemembers(o, r, |r.states| - 1);
    var round := Last(r).rounds[q];
    assert RoundMemory(r.states, |r.states| - 1, q, round);
    if round.begun < b {
      RunExtends(o, r, round.begun + 1, b);
    }
  }

  /** The leader of a flight had passed the gate by b, if the flag was set at b. */
  lemma LeadersPassedTheGate(o: Options, r: Run, b: nat, f: nat)
    requires IsRun(o, r) && b < |r.states| && r.states[b].shuttingDown && f < |Last(r).flights|
    ensures var c := Last(r).flights[f].leader;
            && c in r.states[b].calls && !r.states[b].calls[c].pc.Entered?
            && c in Last(r).calls && Last(r).calls[c].joined == Some(f)
  {
    RunIsSound(o, r, |r.states| - 1);
    assert FlightOk(o, Last(r), f);
    var c := Last(r).flights[f].leader;
    JoinersPassedTheGate(o, r, c);
    var admitted := Last(r).calls[c].admitted;
    if b <= admitted {
      FlagIsOneWay(o, r, b, admitted);
    }
    RunExtends(o, r, admitted + 1, b);
  }

  /** A call that joined a flight had read the flag unset before. */
  lemma JoinersPassedTheGate(o: Options, r: Run, c: nat)
    requires IsRun(o, r) && c in Last(r).calls && Last(r).calls[c].joined.Some?
    ensures var m := Last(r).calls[c].admitted;
            && m + 1 < |r.states| && !r.states[m].shuttingDown
            && c in r.states[m + 1].calls && !r.states[m + 1].calls[c].pc.Entered?
  {
    var n := |r.states| - 1;
    var call := Last(r).calls[c];
    RunIsSound(o, r, n);
    RunRemembers(o, r, n);
    assert CallOk(o, Last(r), call);
    assert CallMemory(o, r.states, n, c, call);
    assert JoinSeen(r.states, n, call);
    assert OpenSeen(r.states, n, c, call);
  }

  /** The function of the flight has gone on to its round, or needs none. */
  ghost predicate IsPastStart(s: State, f: nat) {
    f < |s.flights| && !s.flights[f].phase.Rechecking? && !s.flights[f].phase.Missed?
  }

  lemma {:induction false} PastStartStays(o: Options, r: Run, f: nat, i: nat, k: nat)
    requires IsRun(o, r) && i <= k < |r.states| && IsPastStart(r.states[i], f)
    ensures IsPastStart(r.states[k], f)
    decreases k
  {
    if i < k {
      PastStartStays(o, r, f, i, k - 1);
      assert Took(o, r, k - 1);
    }
  }

  /** When a round begins its flight is the newest, and has found the cache stale or empty. */
  lemma RoundsBeginMissed(o: Options, r: Run, q: nat)
    requires IsRun(o, r) && q < |Last(r).rounds|
    ensures var round := Last(r).rounds[q];
            && round.begun < |r.states| && round.flight < |r.states[round.begun].flights|
            && r.states[round.begun].flights[round.flight].phase.Missed?
  {
    var n := |r.states| - 1;
    RunRemembers(o, r, n);
    var round := Last(r).rounds[q];
    assert RoundMemory(r.states, n, q, round);
    assert Took(o, r, round.begun);
    RunExtends(o, r, round.begun + 1, n);
  }

  /** A call that leads a flight whose round begins at b or later, and has left Entered by b, may start one at b. */
  lemma LeaderMayStart(o: Options, r: Run, b: nat, begun: nat, c: nat, f: nat)
    requires IsRun(o, r) && b <= begun < |r.states|
    requires c in r.states[b].calls && !r.states[b].calls[c].pc.Entered?
    requires c in Last(r).calls && Last(r).calls[c].joined == Some(f)
    requires f < |Last(r).flights| && Last(r).flights[f].leader == c
    requires f < |r.states[begun].flights| && r.states[begun].flights[f].phase.Missed?
    ensures c in MayStart(r.states[b])
  {
    RunIsSound(o, r, b);
    assert CallOk(o, r.states[b], r.states[b].calls[c]);
    RunExtends(o, r, b, |r.states| - 1);
    if f < |r.states[b].flights| {
      assert FlightOk(o, r.states[b], f);
      if IsPastStart(r.states[b], f) {
        PastStartStays(o, r, f, b, begun);
      }
    }
  }

  /** A round that began after the flag was seen set is led by a call that might then still start one. */
  lemma LateLeadersWereAdmitted(o: Options, r: Run, b: nat, q: nat)
    requires IsRun(o, r) && b < |r.states| && r.states[b].shuttingDown
    requires |r.states[b].rounds| <= q < |Last(r).rounds|
    ensures Last(r).rounds[q].flight < |Last(r).flights|
    ensures Last(r).flights[Last(r).rounds[q].flight].leader in MayStart(r.states[b])
  {
    LateRoundsBeginLate(o, r, b, q);
    RoundsBeginMissed(o, r, q);
    var round := Last(r).rounds[q];
    RunExtends(o, r, round.begun, |r.states| - 1);
    LeadersPassedTheGate(o, r, b, round.flight);
    LeaderMayStart(o, r, b, round.begun, Last(r).flights[round.flight].leader, round.flight);
  }

  /** Rounds begun once the flag is set number at most the calls that might then still start one; no other call does. */
  lemma RoundsAfterShutdownAreBounded(o: Options, r: Run, b: nat)
    requires IsRun(o, r) && b < |r.states| && r.states[b].shuttingDown
    ensures Last(r).checkRounds - r.states[b].checkRounds <= |MayStart(r.states[b])|
  {
    RoundsAreCounted(o, r, b);
    RoundsAreCounted(o, r, |r.states| - 1);
    var starters := LateLeaders(o, r, b);
    SubsetIsSmaller(starters, MayStart(r.states[b]));
  }

  lemma RoundsAreCounted(o: Options, r: Run, k: nat)
    requires IsRun(o, r) && k < |r.states|
    ensures r.states[k].checkRounds == |r.states[k].rounds|
  {
    RunIsSound(o, r, k);
  }

  /** The leaders of the rounds that began since b. */
  lemma LateLeaders(o: Options, r: Run, b: nat) returns (starters: set<int>)
    requires IsRun(o, r) && b < |r.states| && r.states[b].shuttingDown
    ensures |starters| == |Last(r).rounds| - |r.states[b].rounds| && starters <= MayStart(r.states[b])
  {
    var s, t := r.states[b], Last(r);
    RunIsSound(o, r, |r.states| - 1);
    RunExtends(o, r, b, |r.states| - 1);
    OneLeaderPerRound(o, t, |s.rounds|, |t.rounds|);
    var leaders := Leaders(t, |s.rounds|, |t.rounds|);
    forall i | 0 <= i < |leaders| ensures leaders[i] in MayStart(s) {
      LateLeadersWereAdmitted(o, r, b, |s.rounds| + i);
    }
    starters := Elements(leaders);
  }

  lemma {:induction false} SubsetIsSmaller<T>(a: set<T>, b: set<T>)
    requires a <= b
    ensures |a| <= |b|
  {
    if a != {} {
      var x :| x in a;
      SubsetIsSmaller(a - {x}, b - {x});
    }
  }

  // ---- one round at a time, and not before the cache expires ----

  /** When a round begins, every earlier one has been evaluated, has reached the cache, and has expired there. */
  lemma RoundsNeverOverlap(o: Options, r: Run, k: nat)
    requires IsRun(o, r) && k < |r.actions| && r.actions[k] == StartRound
    ensures var s := r.states[k];
            && Published(s) == |s.rounds|
            && (forall q | 0 <= q < |s.rounds| :: s.rounds[q].evaluatedAt.Some? && AllReturned(s.rounds[q].checks))
            && (|s.rounds| > 0 ==> s.cached.Some? && s.cached.value.round == |s.rounds| - 1 && !CacheHit(o, s))
  {
    RunIsSound(o, r, k);
    assert Took(o, r, k);
  }

  lemma {:induction false} RoundsAreSpaced(o: Options, s: State, p: nat, q: nat)
    requires Sound(o, s) && 0 <= o.ttl && p < q < |s.rounds|
    ensures s.rounds[p].evaluatedAt.Some?
    ensures s.rounds[p].evaluatedAt.value + (q - p) * o.ttl <= s.rounds[q].startedAt
    decreases q
  {
    assert FollowsLast(o, s.rounds, q);
    if p < q - 1 {
      RoundsAreSpaced(o, s, p, q - 1);
      assert RoundTimed(s, s.rounds[q - 1]);
      assert (q - p) * o.ttl == (q - 1 - p) * o.ttl + o.ttl;
    }
  }

  /** The rounds that start inside a window of the given width. */
  function StartsIn(s: State, from: Time, width: Time): set<nat> {
    set q: nat | q < |s.rounds| && from <= s.rounds[q].startedAt <= from + width
  }

  lemma IntervalSize(a: set<nat>, lo: nat, hi: nat)
    requires forall q | q in a :: lo <= q < hi
    ensures |a| <= if lo <= hi then hi - lo else 0
    decreases hi
  {
    if lo < hi {
      IntervalSize(a - {hi - 1}, lo, hi - 1);
    } else {
      assert a == {};
    }
  }

  lemma {:induction false} Least(a: set<nat>) returns (m: nat)
    requires a != {}
    ensures m in a && forall q | q in a :: m <= q
  {
    var x :| x in a;
    m := x;
    if a != {x} {
      var rest := Least(a - {x});
      m := if rest < x then rest else x;
      assert forall q | q in a :: q == x || q in a - {x};
    }
  }

  lemma {:induction false} Greatest(a: set<nat>) returns (m: nat)
    requires a != {}
    ensures m in a && forall q | q in a :: q <= m
  {
    var x :| x in a;
    m := x;
    if a != {x} {
      var rest := Greatest(a - {x});
      m := if x < rest then rest else x;
      assert forall q | q in a :: q == x || q in a - {x};
    }
  }

  lemma StartsApart(o: Options, s: State, p: nat, q: nat)
    requires Sound(o, s) && 0 <= o.ttl && p <= q < |s.rounds|
    ensures (q - p) * o.ttl <= s.rounds[q].startedAt - s.rounds[p].startedAt
  {
    if p < q {
      RoundsAreSpaced(o, s, p, q);
      assert RoundTimed(s, s.rounds[p]);
    }
  }

  /** With a positive TTL, any window of width W holds at most W / TTL + 1 round starts. */
  lemma ProbeLoadIsBounded(o: Options, r: Run, from: Time, width: Time)
    requires IsRun(o, r) && o.ttl > 0 && width >= 0
    ensures |StartsIn(Last(r), from, width)| <= width / o.ttl + 1
  {
    var s := Last(r);
    RunIsSound(o, r, |r.states| - 1);
    var starts := StartsIn(s, from, width);
    if starts != {} {
      var lo := Least(starts);
      var hi := Greatest(starts);
      StartsApart(o, s, lo, hi);
      Quotient(hi - lo, o.ttl, width);
      IntervalSize(starts, lo, hi + 1);
    }
  }

  lemma Scaled(a: int, b: int, d: int)
    requires d > 0 && a <= b
    ensures a * d <= b * d
  {}

  lemma Quotient(k: int, d: int, w: int)
    requires d > 0 && k * d <= w
    ensures k <= w / d
  {
    var q := w / d;
    assert w < q * d + d == (q + 1) * d;
    if q < k {
      Scaled(q + 1, k, d);
    }
  }

  // ---- where an answer comes from ----

  /** The flight was in progress in the state with index m. */
  ghost predicate InProgress(r: Run, f: nat, m: nat) {
    m < |r.states| && f < |r.states[m].flights| && !r.states[m].flights[f].phase.Landed?
  }

  /** In the state with index m, fresh() would return exactly this result of this round. */
  ghost predicate FreshAt(o: Options, r: Run, e: Entry, m: nat) {
    m < |r.states| && r.states[m].cached == Some(e) && CacheHit(o, r.states[m])
  }

  /**
   An answer that does not report a shutdown is exactly a completed round's result, and either the
   cache held it unexpired at a moment inside the call, or a flight in progress at a moment inside
   the call produced it or found it unexpired in the cache while in progress.
   */
  ghost predicate Witnessed(o: Options, r: Run, c: nat, q: nat)
    requires AnsweredIn(o, r, c)
  {
    var call := Last(r).calls[c];
    var e := Entry(call.pc.result, q);
    && IsRoundEntry(o, Last(r).rounds, e)
    && ( || (exists m :: Inside(r, c, m) && FreshAt(o, r, e, m))
         || (&& call.joined.Some?
             && (exists m :: Inside(r, c, m) && InProgress(r, call.joined.value, m))
             && ( || Last(r).rounds[q].flight == call.joined.value
                  || (exists m :: InProgress(r, call.joined.value, m) && FreshAt(o, r, e, m)))))
  }

  lemma AnswersAreWitnessed(o: Options, r: Run, c: nat) returns (q: nat)
    requires AnsweredIn(o, r, c) && !AnswerOf(r, c).shuttingDown
    ensures Witnessed(o, r, c, q)
  {
    Recall(o, r, c);
    var call := Last(r).calls[c];
    q := call.pc.via.round;
    if call.pc.via.OuterCache? {
      assert Inside(r, c, call.pc.answered) && FreshAt(o, r, Entry(call.pc.result, q), call.pc.answered);
    } else {
      assert JoinSeen(r.states, |r.states| - 1, call);
      assert Inside(r, c, call.joinedAt + 1) && InProgress(r, call.joined.value, call.joinedAt + 1);
      FlightsAreWitnessed(o, r, call.joined.value);
    }
  }

  /** What a flight hands its callers it produced, or found unexpired in the cache. */
  lemma FlightsAreWitnessed(o: Options, r: Run, f: nat)
    requires IsRun(o, r) && f < |Last(r).flights| && Last(r).flights[f].phase.Landed?
    ensures var e := Last(r).flights[f].phase.entry;
            && IsRoundEntry(o, Last(r).rounds, e)
            && (Last(r).rounds[e.round].flight == f || exists m :: InProgress(r, f, m) && FreshAt(o, r, e, m))
  {
    var n := |r.states| - 1;
    RunIsSound(o, r, n);
    RunRemembers(o, r, n);
    assert FlightOk(o, Last(r), f);
    assert FlightMemory(o, r.states, n, f, Last(r).flights[f]);
    match Last(r).flights[f].phase.source
    case FromRound =>
    case FromCache(h) => assert InProgress(r, f, h) && FreshAt(o, r, Last(r).flights[f].phase.entry, h);
  }

  // ---- what an answer says ----

  /** The round as run would have produced it checker by checker, one after another. */
  function Seen(checks: seq<Check>): seq<Observation>
    requires AllReturned(checks)
  {
    seq(|checks|, i requires 0 <= i < |checks| => Observation(checks[i].since, checks[i].until, checks[i].outcome))
  }

  lemma SlotsAreSequential(o: Options, round: Round)
    requires RoundOk(o, round) && round.evaluatedAt.Some?
    ensures StatusesIn(round.checks) == StatusesOf(o.names, Seen(round.checks))
  {
    forall i | 0 <= i < |round.checks|
      ensures StatusesIn(round.checks)[i] == StatusesOf(o.names, Seen(round.checks))[i]
    {
      assert SlotOk(o, round.checks[i], i);
    }
  }

  /** However its goroutines interleaved, a round collected the sequential map of run over the checkers. */
  lemma FanOutIsSequential(o: Options, r: Run, q: nat)
    requires IsRun(o, r) && q < |Last(r).rounds| && Last(r).rounds[q].evaluatedAt.Some?
    ensures var round := Last(r).rounds[q];
            && AllReturned(round.checks) && |round.checks| == |o.names|
            && StatusesIn(round.checks) == StatusesOf(o.names, Seen(round.checks))
            && ResultOf(o, round) == RoundResult(o, StatusesOf(o.names, Seen(round.checks)), round.evaluatedAt.value)
  {
    RunIsSound(o, r, |r.states| - 1);
    var round := Last(r).rounds[q];
    assert RoundOk(o, round);
    SlotsAreSequential(o, round);
  }

  lemma RoundResultLists(o: Options, round: Round)
    requires RoundOk(o, round) && round.evaluatedAt.Some?
    ensures Lists(ResultOf(o, round).dependencies, o.names)
    ensures forall d | d in ResultOf(o, round).dependencies :: !d.healthy <==> d.reason in VOCABULARY
  {
    forall i | 0 <= i < |o.names| ensures SlotOk(o, round.checks[i], i) {}
  }

  /**
   Every answer, fresh, cached or shutdown, lists every checker in order; one that does not report
   a shutdown is ready exactly when all are healthy, and gives a reason exactly for those that are not.
   */
  lemma AnswersListEveryDependency(o: Options, r: Run, c: nat)
    requires AnsweredIn(o, r, c)
    ensures var a := AnswerOf(r, c);
            && Lists(a.dependencies, o.names)
            && (a.shuttingDown ==> a.status == NotReady)
            && (!a.shuttingDown ==> (a.status == Ready <==> AllHealthy(a.dependencies)))
            && (!a.shuttingDown ==> forall d | d in a.dependencies :: !d.healthy <==> d.reason in VOCABULARY)
  {
    var m := GateIsLinearizable(o, r, c);
    Recall(o, r, c);
    if AnswerOf(r, c).shuttingDown {
      ShutdownAnswerLists(o, r, c);
    } else {
      var q := AnswersAreWitnessed(o, r, c);
      RoundResultLists(o, Last(r).rounds[q]);
    }
  }

  lemma ShutdownAnswerLists(o: Options, r: Run, c: nat)
    requires AnsweredIn(o, r, c) && AnswerOf(r, c).shuttingDown
    ensures Lists(AnswerOf(r, c).dependencies, o.names)
  {
    Recall(o, r, c);
    var call := Last(r).calls[c];
    var s := r.states[call.pc.answered];
    RunIsSound(o, r, call.pc.answered);
    if s.cached.Some? {
      RoundResultLists(o, s.rounds[s.cached.value.round]);
    }
  }

  // ---- one flight per call ----

  /** A call joins or leads at most one flight, ever. */
  lemma OneFlightPerCall(o: Options, r: Run, c: nat, i: nat, k: nat, f: nat, g: nat)
    requires IsRun(o, r) && i <= k < |r.states|
    requires c in r.states[i].calls && c in r.states[k].calls
    requires r.states[i].calls[c].joined == Some(f) || (f < |r.states[i].flights| && r.states[i].flights[f].leader == c)
    requires r.states[k].calls[c].joined == Some(g) || (g < |r.states[k].flights| && r.states[k].flights[g].leader == c)
    ensures f == g
  {
    RunIsSound(o, r, i);
    RunIsSound(o, r, k);
    if f < |r.states[i].flights| { assert FlightOk(o, r.states[i], f); }
    if g < |r.states[k].flights| { assert FlightOk(o, r.states[k], g); }
    RunExtends(o, r, i, k);
  }
}

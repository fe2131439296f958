/** internal/health/checker.go: one check's outcome, and the bounded vocabulary it is reported in. */
module Checker {
  import opened Prelude

  datatype Sentinel = ContextDeadlineExceeded | OsDeadlineExceeded | ConnRefused

  /**
   A Go error value as errors.Is and errors.As see it: the text of Error(), the sentinels this
   very value answers to, its Timeout() when it is a net.Error, whether it is a *net.OpError,
   and the errors it unwraps to.
   */
  datatype Err = Err(
    text: string,
    sentinels: set<Sentinel>,
    network: Option<bool>,
    opError: bool,
    causes: seq<Err>)

  /** errors.Is: some error of the tree answers to the sentinel. */
  predicate Is(e: Err, target: Sentinel) {
    target in e.sentinels || exists c | c in e.causes :: Is(c, target)
  }

  /** errors.As to net.Error: Timeout() of the first net.Error in depth-first order. */
  function AsNetwork(e: Err): Option<bool>
    decreases e, 1
  {
    if e.network.Some? then e.network else FirstNetwork(e.causes)
  }

  function FirstNetwork(causes: seq<Err>): Option<bool>
    decreases causes, 0
  {
    if causes == [] then None
    else
      var first := AsNetwork(causes[0]);
      if first.Some? then first else FirstNetwork(causes[1..])
  }

  /** errors.As to *net.OpError succeeds. */
  predicate HasOpError(e: Err) {
    e.opError || exists c | c in e.causes :: HasOpError(c)
  }

  /** fmt.Errorf("<prefix>%w", cause): new text, one cause, no identity of its own. */
  function Wrap(prefix: string, cause: Err): Err {
    Err(prefix + cause.text, {}, None, false, [cause])
  }

  datatype Reason = NoReason | Timeout | ConnectionRefused | AuthFailed | ProtocolError | Unknown

  const VOCABULARY: set<Reason> := {Timeout, ConnectionRefused, AuthFailed, ProtocolError, Unknown}

  function Classify(err: Option<Err>): Reason {
    match err
    case None => NoReason
    case Some(e) =>
      if Is(e, ContextDeadlineExceeded) || Is(e, OsDeadlineExceeded) then Timeout
      else if AsNetwork(e) == Some(true) then Timeout
      else if Is(e, ConnRefused) then ConnectionRefused
      else if LooksLikeAuthFailure(e.text) then AuthFailed
      else if HasOpError(e) then Unknown
      else ProtocolError
  }

  const AUTH_MARKERS: seq<string> := [
    "authentication",
    "authentication failed",
    "access denied",
    "password",
    "unauthorized",
    "noauth",
    "wrongpass",
    "sasl"]

  predicate LooksLikeAuthFailure(msg: string) {
    exists marker | marker in AUTH_MARKERS :: Contains(ToLower(msg), marker)
  }

  /** strings.Contains */
  predicate Contains(s: string, sub: string) {
    exists i | 0 <= i <= |s| - |sub| :: OccursAt(s, sub, i)
  }

  predicate OccursAt(s: string, sub: string, i: nat)
    requires i + |sub| <= |s|
  {
    s[i..i + |sub|] == sub
  }

  /**
   unicode.ToLower as far as it can reach an ASCII letter: A to Z, and the two other characters
   whose lower case is one (capital I with dot above and the Kelvin sign). Every other character
   maps to a non-ASCII one or to itself, which no marker can tell apart.
   */
  function LowerChar(c: char): char {
    if 'A' <= c <= 'Z' then c - 'A' + 'a'
    else if c == '\U{130}' then 'i'
    else if c == '\U{212A}' then 'k'
    else c
  }

  function ToLower(s: string): string {
    seq(|s|, i requires 0 <= i < |s| => LowerChar(s[i]))
  }

  /** The prefixes the three checkers wrap their driver's errors in. */
  const CHECK_PREFIXES: seq<string> := [
    "building kafka client: ",
    "kafka metadata request: ",
    "building clickhouse client: ",
    "clickhouse ping: ",
    "redis ping: "]

  datatype Status = Status(
    name: string,
    healthy: bool,
    durationMs: int,
    reason: Reason,
    checkedAt: Time,
    err: Option<Err>)

  /** time.Duration.Milliseconds: integer division truncated toward zero. */
  function Milliseconds(d: Time): int {
    if d >= 0 then d / 1_000_000 else -(-d / 1_000_000)
  }

  /** run: the status of one check that was called at `started` and returned `outcome` at `ended`. */
  function StatusOf(name: string, started: Time, ended: Time, outcome: Option<Err>): (st: Status)
    ensures st.healthy <==> outcome.None?
    ensures st.healthy <==> st.reason == NoReason
    ensures !st.healthy <==> st.reason in VOCABULARY
    ensures st.err == outcome
    ensures started <= ended ==> 0 <= st.durationMs * 1_000_000 <= ended - started < (st.durationMs + 1) * 1_000_000
  {
    var st := Status(name, outcome.None?, Milliseconds(ended - started), NoReason, ended, None);
    if outcome.Some? then st.(reason := Classify(outcome), err := outcome) else st
  }

  // ---- the decision, read off the flattened chain ----

  /** Every error of the tree, depth first, the error itself first. */
  function Chain(e: Err): (chain: seq<Err>)
    ensures |chain| > 0 && chain[0] == e
    decreases e, 1
  {
    [e] + Chains(e.causes)
  }

  function Chains(causes: seq<Err>): seq<Err>
    decreases causes, 0
  {
    if causes == [] then [] else Chain(causes[0]) + Chains(causes[1..])
  }

  ghost predicate Answers(chain: seq<Err>, target: Sentinel) {
    exists n :: n in chain && target in n.sentinels
  }

  ghost predicate HasOp(chain: seq<Err>) {
    exists n: Err :: n in chain && n.opError
  }

  /** Timeout() of the first net.Error of the chain. */
  function FirstTimeout(chain: seq<Err>): Option<bool> {
    if chain == [] then None
    else if chain[0].network.Some? then chain[0].network
    else FirstTimeout(chain[1..])
  }

  lemma {:induction false} IsSearchesTheChain(e: Err, target: Sentinel)
    ensures Is(e, target) <==> Answers(Chain(e), target)
    decreases e, 1
  {
    IsSearchesTheChains(e.causes, target);
    assert Chain(e) == [e] + Chains(e.causes);
    assert forall n :: n in Chain(e) <==> n == e || n in Chains(e.causes);
  }

  lemma {:induction false} IsSearchesTheChains(causes: seq<Err>, target: Sentinel)
    ensures (exists c | c in causes :: Is(c, target)) <==> Answers(Chains(causes), target)
    decreases causes, 0
  {
    if causes != [] {
      IsSearchesTheChain(causes[0], target);
      IsSearchesTheChains(causes[1..], target);
      assert causes == [causes[0]] + causes[1..];
      assert forall n :: n in Chains(causes) <==> n in Chain(causes[0]) || n in Chains(causes[1..]);
    }
  }

  lemma {:induction false} OpSearchesTheChain(e: Err)
    ensures HasOpError(e) <==> HasOp(Chain(e))
    decreases e, 1
  {
    OpSearchesTheChains(e.causes);
    assert Chain(e) == [e] + Chains(e.causes);
    assert forall n :: n in Chain(e) <==> n == e || n in Chains(e.causes);
  }

  lemma {:induction false} OpSearchesTheChains(causes: seq<Err>)
    ensures (exists c | c in causes :: HasOpError(c)) <==> HasOp(Chains(causes))
    decreases causes, 0
  {
    if causes != [] {
      OpSearchesTheChain(causes[0]);
      OpSearchesTheChains(causes[1..]);
      assert causes == [causes[0]] + causes[1..];
      assert forall n :: n in Chains(causes) <==> n in Chain(causes[0]) || n in Chains(causes[1..]);
    }
  }

  lemma {:induction false} FirstOfTwo(a: seq<Err>, b: seq<Err>)
    ensures FirstTimeout(a + b) == if FirstTimeout(a).Some? then FirstTimeout(a) else FirstTimeout(b)
  {
    if a == [] {
      assert a + b == b;
    } else {
      assert (a + b)[1..] == a[1..] + b;
      FirstOfTwo(a[1..], b);
    }
  }

  lemma {:induction false} NetworkIsFirstOnTheChain(e: Err)
    ensures AsNetwork(e) == FirstTimeout(Chain(e))
    decreases e, 1
  {
    NetworkIsFirstOnTheChains(e.causes);
    FirstOfTwo([e], Chains(e.causes));
  }

  lemma {:induction false} NetworkIsFirstOnTheChains(causes: seq<Err>)
    ensures FirstNetwork(causes) == FirstTimeout(Chains(causes))
    decreases causes, 0
  {
    if causes != [] {
      NetworkIsFirstOnTheChain(causes[0]);
      NetworkIsFirstOnTheChains(causes[1..]);
      FirstOfTwo(Chain(causes[0]), Chains(causes[1..]));
    }
  }

  /** A deadline anywhere on the chain, or a first net.Error that timed out. */
  ghost predicate TimedOut(e: Err) {
    || Answers(Chain(e), ContextDeadlineExceeded) || Answers(Chain(e), OsDeadlineExceeded)
    || FirstTimeout(Chain(e)) == Some(true)
  }

  /** Each reason is given exactly when its own evidence is there and no stronger one is. */
  lemma ClassifyByEvidence(e: Err)
    ensures var r := Classify(Some(e));
            var refused := Answers(Chain(e), ConnRefused);
            var auth := LooksLikeAuthFailure(e.text);
            && (r == Timeout <==> TimedOut(e))
            && (r == ConnectionRefused <==> refused && !TimedOut(e))
            && (r == AuthFailed <==> auth && !refused && !TimedOut(e))
            && (r == Unknown <==> HasOp(Chain(e)) && !auth && !refused && !TimedOut(e))
            && (r == ProtocolError <==> !HasOp(Chain(e)) && !auth && !refused && !TimedOut(e))
  {
    IsSearchesTheChain(e, ContextDeadlineExceeded);
    IsSearchesTheChain(e, OsDeadlineExceeded);
    IsSearchesTheChain(e, ConnRefused);
    NetworkIsFirstOnTheChain(e);
    OpSearchesTheChain(e);
  }

  /** The evidence for a reason in a failure, and that there is none for a stronger one. */
  ghost predicate HasEvidence(e: Err, reason: Reason) {
    var refused := Answers(Chain(e), ConnRefused);
    var auth := LooksLikeAuthFailure(e.text);
    match reason
    case NoReason => false
    case Timeout => TimedOut(e)
    case ConnectionRefused => refused && !TimedOut(e)
    case AuthFailed => auth && !refused && !TimedOut(e)
    case Unknown => HasOp(Chain(e)) && !auth && !refused && !TimedOut(e)
    case ProtocolError => !HasOp(Chain(e)) && !auth && !refused && !TimedOut(e)
  }

  /** What run reports of a check: whose it is, when it ended, how long it took, and how it went. */
  ghost predicate ReportsOutcome(st: Status, name: string, started: Time, ended: Time, outcome: Option<Err>) {
    && st.name == name && st.checkedAt == ended
    && (st.healthy <==> outcome.None?) && st.err == outcome
    && (outcome.None? ==> st.reason == NoReason)
    && (outcome.Some? ==> forall reason :: st.reason == reason <==> HasEvidence(outcome.value, reason))
    && (started <= ended ==> st.durationMs == (ended - started) / 1_000_000)
  }

  lemma StatusByEvidence(name: string, started: Time, ended: Time, outcome: Option<Err>)
    ensures ReportsOutcome(StatusOf(name, started, ended, outcome), name, started, ended, outcome)
  {
    if outcome.Some? {
      ClassifyByEvidence(outcome.value);
    }
  }

  // ---- what the chain and the markers are ----

  /** The chain holds the error and whatever an error on it unwraps to, each of several, and nothing else. */
  lemma {:induction false} ChainIsClosed(e: Err, n: Err)
    requires n in Chain(e)
    ensures forall c | c in n.causes :: c in Chain(e)
    ensures n == e || exists m :: m in Chain(e) && n in m.causes
    decreases e, 1
  {
    assert Chain(e) == [e] + Chains(e.causes);
    CausesAreOnChains(e.causes);
    if n != e {
      ChainsAreClosed(e.causes, n);
      assert e in Chain(e);
      if !(n in e.causes) {
        var m :| m in Chains(e.causes) && n in m.causes;
        assert m in Chain(e);
      }
    }
  }

  lemma {:induction false} CausesAreOnChains(causes: seq<Err>)
    ensures forall c | c in causes :: c in Chains(causes)
  {
    if causes != [] {
      CausesAreOnChains(causes[1..]);
      assert causes[0] in Chain(causes[0]);
      assert causes == [causes[0]] + causes[1..];
    }
  }

  lemma {:induction false} ChainsAreClosed(causes: seq<Err>, n: Err)
    requires n in Chains(causes)
    ensures forall c | c in n.causes :: c in Chains(causes)
    ensures n in causes || exists m :: m in Chains(causes) && n in m.causes
    decreases causes, 0
  {
    assert causes == [causes[0]] + causes[1..];
    if n in Chain(causes[0]) {
      ChainIsClosed(causes[0], n);
      if n != causes[0] {
        var m :| m in Chain(causes[0]) && n in m.causes;
        assert m in Chains(causes);
      }
    } else {
      ChainsAreClosed(causes[1..], n);
      if n !in causes[1..] {
        var m :| m in Chains(causes[1..]) && n in m.causes;
        assert m in Chains(causes);
      }
    }
  }

  /** An error comes before what it unwraps to, and the first of two causes with all of its chain before the second. */
  lemma ChainIsDepthFirst(e: Err, a: Err, b: Err)
    requires e.causes == [a, b]
    ensures Chain(e) == [e] + Chain(a) + Chain(b)
  {
    assert e.causes[1..] == [b] && [b][1..] == [];
    assert Chains([b]) == Chain(b) + [];
  }

  /** The character is the small letter, its capital, or one of the two others Go lowers to it. */
  predicate IsLetterOf(c: char, small: char) {
    || c == small
    || ('a' <= small <= 'z' && c == small - 'a' + 'A')
    || (c == '\U{130}' && small == 'i')
    || (c == '\U{212A}' && small == 'k')
  }

  /** From i on the text spells the marker, in letters of any case. */
  predicate Spells(msg: string, i: nat, marker: string) {
    i + |marker| <= |msg| && forall k | 0 <= k < |marker| :: IsLetterOf(msg[i + k], marker[k])
  }

  predicate IsMarker(marker: string) {
    || marker == "authentication" || marker == "authentication failed" || marker == "access denied"
    || marker == "password" || marker == "unauthorized" || marker == "noauth" || marker == "wrongpass"
    || marker == "sasl"
  }

  predicate IsSmall(c: char) {
    'a' <= c <= 'z' || c == ' '
  }

  lemma MarkersHaveNoCapital(marker: string)
    requires IsMarker(marker)
    ensures forall k | 0 <= k < |marker| :: IsSmall(marker[k])
  {}

  lemma LoweredIsLetter(c: char, small: char)
    requires IsSmall(small)
    ensures LowerChar(c) == small <==> IsLetterOf(c, small)
  {}

  lemma SpelledWhereLowered(msg: string, i: nat, marker: string)
    requires i + |marker| <= |msg| && forall k | 0 <= k < |marker| :: IsSmall(marker[k])
    ensures OccursAt(ToLower(msg), marker, i) <==> Spells(msg, i, marker)
  {
    var found := ToLower(msg)[i..i + |marker|];
    forall k | 0 <= k < |marker| ensures found[k] == marker[k] <==> IsLetterOf(msg[i + k], marker[k]) {
      LoweredIsLetter(msg[i + k], marker[k]);
    }
  }

  /** A text looks like a credential rejection exactly when it spells one of the eight markers, in any case. */
  lemma AuthByMarkers(msg: string)
    ensures LooksLikeAuthFailure(msg) <==> exists marker, i: nat :: IsMarker(marker) && Spells(msg, i, marker)
  {
    MarkersAreTheEight();
    if LooksLikeAuthFailure(msg) {
      var marker :| marker in AUTH_MARKERS && Contains(ToLower(msg), marker);
      var i :| 0 <= i <= |ToLower(msg)| - |marker| && OccursAt(ToLower(msg), marker, i);
      MarkersHaveNoCapital(marker);
      SpelledWhereLowered(msg, i, marker);
    }
    if exists marker, i: nat :: IsMarker(marker) && Spells(msg, i, marker) {
      var marker, i: nat :| IsMarker(marker) && Spells(msg, i, marker);
      MarkersHaveNoCapital(marker);
      SpelledWhereLowered(msg, i, marker);
      assert Contains(ToLower(msg), marker);
    }
  }

  lemma MarkersAreTheEight()
    ensures forall marker :: marker in AUTH_MARKERS <==> IsMarker(marker)
  {}

  // ---- wrapping does not change a classification ----

  lemma WrapKeepsIdentity(prefix: string, e: Err)
    ensures forall t :: Is(Wrap(prefix, e), t) == Is(e, t)
    ensures AsNetwork(Wrap(prefix, e)) == AsNetwork(e)
    ensures HasOpError(Wrap(prefix, e)) == HasOpError(e)
  {
    var w := Wrap(prefix, e);
    assert e in w.causes;
    assert w.causes[1..] == [];
    assert AsNetwork(w) == FirstNetwork([e]);
    assert FirstNetwork([e]) == if AsNetwork(e).Some? then AsNetwork(e) else FirstNetwork([]);
  }

  /** What makes a marker unable to begin anywhere inside a prefix, whatever text follows it. */
  ghost predicate NeverBeginsIn(marker: string, prefix: string) {
    && |marker| > 0 && marker[0] != ' ' && ':' !in marker
    && |prefix| >= 2 && prefix[|prefix| - 2] == ':' && prefix[|prefix| - 1] == ' '
    && exists c :: c in marker && c !in prefix
  }

  lemma NoOccurrenceInside(prefix: string, msg: string, marker: string, i: nat)
    requires NeverBeginsIn(marker, prefix)
    requires i < |prefix| && i + |marker| <= |prefix + msg|
    ensures !OccursAt(prefix + msg, marker, i)
  {
    var p, m := |prefix|, |marker|;
    var whole := prefix + msg;
    var found := whole[i..i + m];
    if i + m <= p {
      assert found == prefix[i..i + m];
      var c :| c in marker && c !in prefix;
      assert c !in found;
    } else if i == p - 1 {
      assert found[0] == ' ';
    } else {
      assert found[p - 2 - i] == ':';
    }
  }

  lemma PrefixIsTransparent(prefix: string, msg: string, marker: string)
    requires NeverBeginsIn(marker, prefix)
    ensures Contains(prefix + msg, marker) == Contains(msg, marker)
  {
    var p, m := |prefix|, |marker|;
    var whole := prefix + msg;
    forall i: nat | p <= i <= |whole| - m
      ensures OccursAt(whole, marker, i) == OccursAt(msg, marker, i - p)
    {
      assert whole[i..i + m] == msg[i - p..i - p + m];
    }
    if Contains(msg, marker) {
      var i :| 0 <= i <= |msg| - m && OccursAt(msg, marker, i);
      assert OccursAt(whole, marker, p + i);
    }
    if Contains(whole, marker) {
      var i :| 0 <= i <= |whole| - m && OccursAt(whole, marker, i);
      if i < p {
        NoOccurrenceInside(prefix, msg, marker, i);
      }
      assert OccursAt(msg, marker, i - p);
    }
  }

  lemma PrefixHasNoCapital(i: nat, k: nat)
    requires i < |CHECK_PREFIXES| && k < |CHECK_PREFIXES[i]|
    ensures LowerChar(CHECK_PREFIXES[i][k]) == CHECK_PREFIXES[i][k]
  {}

  lemma PrefixIsLower(prefix: string)
    requires prefix in CHECK_PREFIXES
    ensures ToLower(prefix) == prefix
  {
    var i :| 0 <= i < |CHECK_PREFIXES| && prefix == CHECK_PREFIXES[i];
    forall k | 0 <= k < |prefix| ensures LowerChar(prefix[k]) == prefix[k] {
      PrefixHasNoCapital(i, k);
    }
  }

  lemma KafkaBuildForeign(marker: string)
    requires marker in AUTH_MARKERS
    ensures exists c :: c in marker && c !in CHECK_PREFIXES[0]
  {
    var c := if 's' in marker then 's' else if 'o' in marker then 'o' else 'h';
    assert c in marker;
  }

  lemma KafkaMetadataForeign(marker: string)
    requires marker in AUTH_MARKERS
    ensures exists c :: c in marker && c !in CHECK_PREFIXES[1]
  {
    var c := if 'n' in marker then 'n' else if 'w' in marker then 'w' else 'l';
    assert c in marker;
  }

  lemma OtherPrefixesHaveNoA(i: nat)
    requires 2 <= i < 5
    ensures 'a' !in CHECK_PREFIXES[i]
  {}

  /** No marker can begin in any of the checkers' own prefixes. */
  lemma PrefixesAreClean(prefix: string, marker: string)
    requires prefix in CHECK_PREFIXES && marker in AUTH_MARKERS
    ensures NeverBeginsIn(marker, prefix)
  {
    var i :| 0 <= i < 5 && prefix == CHECK_PREFIXES[i];
    if i == 0 {
      KafkaBuildForeign(marker);
    } else if i == 1 {
      KafkaMetadataForeign(marker);
    } else {
      OtherPrefixesHaveNoA(i);
    }
  }

  lemma LowerOfConcat(a: string, b: string)
    ensures ToLower(a + b) == ToLower(a) + ToLower(b)
  {}

  /** Adding a checker's own prefix to any text neither hides nor fakes a credential rejection. */
  lemma AuthVerdictIgnoresPrefix(prefix: string, msg: string)
    requires prefix in CHECK_PREFIXES
    ensures LooksLikeAuthFailure(prefix + msg) == LooksLikeAuthFailure(msg)
  {
    LowerOfConcat(prefix, msg);
    PrefixIsLower(prefix);
    forall marker | marker in AUTH_MARKERS
      ensures Contains(ToLower(prefix + msg), marker) == Contains(ToLower(msg), marker)
    {
      PrefixesAreClean(prefix, marker);
      PrefixIsTransparent(prefix, ToLower(msg), marker);
    }
  }

  function WrapAll(prefixes: seq<string>, e: Err): Err {
    if prefixes == [] then e else Wrap(prefixes[0], WrapAll(prefixes[1..], e))
  }

  /** Any stack of the checkers' prefixes leaves the reason of every error unchanged. */
  lemma {:induction false} ClassifySeesThroughWrapping(prefixes: seq<string>, e: Err)
    requires forall p | p in prefixes :: p in CHECK_PREFIXES
    ensures Classify(Some(WrapAll(prefixes, e))) == Classify(Some(e))
  {
    if prefixes != [] {
      var inner := WrapAll(prefixes[1..], e);
      ClassifySeesThroughWrapping(prefixes[1..], e);
      assert prefixes[0] in prefixes;
      WrapKeepsIdentity(prefixes[0], inner);
      AuthVerdictIgnoresPrefix(prefixes[0], inner.text);
    }
  }
}

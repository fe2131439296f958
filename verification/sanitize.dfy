/**
 internal/logging/sanitize.go: what ReplaceAllString does with the first credential pattern,
 (?i)([a-z][a-z0-9+.-]*://[^:/@\s]+):([^@\s]+)@, and its replacement.
 */
module Sanitize {
  import opened Prelude

  const REDACTED := "[redacted]"

  // ---- the pattern ----

  /** (?i)[a-z]: case folding also admits the long s and the Kelvin sign. */
  predicate IsLetter(c: char) {
    'a' <= c <= 'z' || 'A' <= c <= 'Z' || c == '\U{17F}' || c == '\U{212A}'
  }

  /** The class \s. */
  predicate IsPerlSpace(c: char) {
    c == ' ' || c == '\t' || c == '\n' || c == '\r' || c == '\U{C}'
  }

  predicate IsSchemeChar(c: char) {
    IsLetter(c) || '0' <= c <= '9' || c == '+' || c == '.' || c == '-'
  }

  predicate IsUserChar(c: char) {
    c != ':' && c != '/' && c != '@' && !IsPerlSpace(c)
  }

  predicate IsSecretChar(c: char) {
    c != '@' && !IsPerlSpace(c)
  }

  /**
   s[start..end] is scheme://user:secret@ with the colon before the secret at `colon` and the one
   after the scheme at `sep`: the pattern as a statement about the text, not as a search.
   */
  ghost predicate IsMatch(s: string, start: nat, sep: nat, colon: nat, end: nat) {
    && start < sep && sep + 3 < colon && colon + 2 < end <= |s|
    && IsFolded(s[start]) && (forall i | start <= i < sep :: IsFolded(s[i]) || s[i] in SCHEME_MARKS)
    && s[sep] == ':' && s[sep + 1] == '/' && s[sep + 2] == '/'
    && (forall i | sep + 3 <= i < colon :: s[i] !in NOT_IN_USER)
    && s[colon] == ':'
    && (forall i | colon < i < end - 1 :: s[i] !in NOT_IN_SECRET)
    && s[end - 1] == '@'
  }

  const SCHEME_MARKS: set<char> := {'0', '1', '2', '3', '4', '5', '6', '7', '8', '9', '+', '.', '-'}
  const NOT_IN_USER: set<char> := {':', '/', '@', ' ', '\t', '\n', '\r', '\U{C}'}
  const NOT_IN_SECRET: set<char> := {'@', ' ', '\t', '\n', '\r', '\U{C}'}

  /** A letter from a to z, or a character that one of them folds to. */
  predicate IsFolded(c: char) {
    'a' <= c <= 'z' || 'A' <= c <= 'Z' || c == '\U{17F}' || c == '\U{212A}'
  }

  lemma ClassesAre(c: char)
    ensures IsLetter(c) <==> IsFolded(c)
    ensures IsSchemeChar(c) <==> IsFolded(c) || c in SCHEME_MARKS
    ensures IsUserChar(c) <==> c !in NOT_IN_USER
    ensures IsSecretChar(c) <==> c !in NOT_IN_SECRET
  {}

  lemma ClassesOf(s: string)
    ensures forall i | 0 <= i < |s| ::
              && (IsLetter(s[i]) <==> IsFolded(s[i]))
              && (IsSchemeChar(s[i]) <==> IsFolded(s[i]) || s[i] in SCHEME_MARKS)
              && (IsUserChar(s[i]) <==> s[i] !in NOT_IN_USER)
              && (IsSecretChar(s[i]) <==> s[i] !in NOT_IN_SECRET)
  {
    forall i | 0 <= i < |s|
      ensures IsLetter(s[i]) <==> IsFolded(s[i])
      ensures IsSchemeChar(s[i]) <==> IsFolded(s[i]) || s[i] in SCHEME_MARKS
      ensures IsUserChar(s[i]) <==> s[i] !in NOT_IN_USER
      ensures IsSecretChar(s[i]) <==> s[i] !in NOT_IN_SECRET
    {
      ClassesAre(s[i]);
    }
  }

  datatype Class = Scheme | User | Secret

  predicate In(c: char, k: Class) {
    match k
    case Scheme => IsSchemeChar(c)
    case User => IsUserChar(c)
    case Secret => IsSecretChar(c)
  }

  /** The end of the longest run of the class from p on. */
  function Span(s: string, p: nat, k: Class): (q: nat)
    requires p <= |s|
    ensures p <= q <= |s| && (forall i | p <= i < q :: In(s[i], k)) && (q < |s| ==> !In(s[q], k))
    decreases |s| - p
  {
    if p < |s| && In(s[p], k) then Span(s, p + 1, k) else p
  }

  datatype Match = Match(colon: nat, end: nat)

  /** What the matcher finds at p. */
  function MatchAt(s: string, p: nat): Option<Match>
    requires p <= |s|
  {
    if p == |s| || !IsLetter(s[p]) then None
    else
      var sep := Span(s, p, Scheme);
      if |s| < sep + 3 || s[sep] != ':' || s[sep + 1] != '/' || s[sep + 2] != '/' then None
      else
        var colon := Span(s, sep + 3, User);
        if colon == sep + 3 || colon == |s| || s[colon] != ':' then None
        else
          var at := Span(s, colon + 1, Secret);
          if at == colon + 1 || at == |s| || s[at] != '@' then None
          else Some(Match(colon, at + 1))
  }

  lemma SpanIs(s: string, p: nat, k: Class, q: nat)
    requires p <= q < |s| && (forall i | p <= i < q :: In(s[i], k)) && !In(s[q], k)
    ensures Span(s, p, k) == q
  {}

  /** The matcher finds a match exactly when there is one, and there is at most one at each place. */
  lemma MatcherIsExact(s: string, start: nat, sep: nat, colon: nat, end: nat)
    requires IsMatch(s, start, sep, colon, end)
    ensures MatchAt(s, start) == Some(Match(colon, end))
  {
    ClassesOf(s);
    SpanIs(s, start, Scheme, sep);
    SpanIs(s, sep + 3, User, colon);
    SpanIs(s, colon + 1, Secret, end - 1);
  }

  lemma MatcherIsSound(s: string, start: nat) returns (sep: nat)
    requires start <= |s| && MatchAt(s, start).Some?
    ensures IsMatch(s, start, sep, MatchAt(s, start).value.colon, MatchAt(s, start).value.end)
  {
    ClassesOf(s);
    sep := Span(s, start, Scheme);
    assert In(s[start], Scheme);
    assert forall i | start <= i < sep :: In(s[i], Scheme);
    var colon := MatchAt(s, start).value.colon;
    assert forall i | sep + 3 <= i < colon :: In(s[i], User);
    assert forall i | colon + 1 <= i < MatchAt(s, start).value.end - 1 :: In(s[i], Secret);
  }

  // ---- the leftmost match ----

  /** The least number from p to n with the property. */
  function LeastFrom(has: nat -> bool, p: nat, n: nat): (r: Option<nat>)
    ensures r.Some? ==> p <= r.value <= n && has(r.value)
    decreases n - p
  {
    if n < p then None else if has(p) then Some(p) else LeastFrom(has, p + 1, n)
  }

  lemma {:induction false} LeastIs(has: nat -> bool, p: nat, n: nat, r: Option<nat>)
    requires if r.Some? then p <= r.value <= n && has(r.value) && forall i: nat | p <= i < r.value :: !has(i)
             else forall i: nat | p <= i <= n :: !has(i)
    ensures LeastFrom(has, p, n) == r
    decreases n - p
  {
    if p <= n && !has(p) {
      LeastIs(has, p + 1, n, r);
    }
  }

  lemma {:induction false} NothingBefore(has: nat -> bool, p: nat, n: nat, i: nat)
    requires p <= i <= n && (LeastFrom(has, p, n).Some? ==> i < LeastFrom(has, p, n).value)
    ensures !has(i)
    decreases n - p
  {
    if p < i {
      NothingBefore(has, p + 1, n, i);
    }
  }

  predicate MatchesAt(s: string, i: nat) {
    i <= |s| && MatchAt(s, i).Some?
  }

  /** Where the leftmost match begins. */
  function Find(s: string): (r: Option<nat>)
    ensures r.Some? ==> MatchesAt(s, r.value)
  {
    LeastFrom((i: nat) => MatchesAt(s, i), 0, |s|)
  }

  /** What leftmost means: a match, and none that begins before it. */
  lemma FoundIsLeftmost(s: string, i: nat)
    requires Find(s).None? || i < Find(s).value
    ensures !MatchesAt(s, i)
  {
    if i <= |s| {
      NothingBefore((j: nat) => MatchesAt(s, j), 0, |s|, i);
    }
  }

  lemma FindsTheLeftmost(s: string, p: nat)
    requires MatchesAt(s, p) && forall i: nat | i < p :: !MatchesAt(s, i)
    ensures Find(s) == Some(p)
  {
    LeastIs((j: nat) => MatchesAt(s, j), 0, |s|, Some(p));
  }

  lemma EndIsInside(s: string, p: nat)
    requires MatchesAt(s, p)
    ensures p < MatchAt(s, p).value.colon && MatchAt(s, p).value.colon + 2 < MatchAt(s, p).value.end <= |s|
  {}

  // ---- rewriting, for any way to find secrets ----

  /** A text without a secret, or its first secret with what comes before it and after the at sign behind it. */
  datatype Found = Nothing | AtSecret(before: string, secret: string, rest: string)

  type Finder = string -> Found

  function Around(before: string, secret: string, rest: string): string {
    before + secret + "@" + rest
  }

  /** What is found is there. */
  ghost predicate Finds(find: Finder) {
    forall s :: find(s).AtSecret? ==> s == Around(find(s).before, find(s).secret, find(s).rest)
  }

  /** A first secret that is replaced by the marker is still the first, whatever follows. */
  ghost predicate Stays(find: Finder) {
    forall s, rest :: find(s).AtSecret? ==>
      find(Around(find(s).before, REDACTED, rest)) == AtSecret(find(s).before, REDACTED, rest)
  }

  lemma RestIsShorter(find: Finder, s: string)
    requires Finds(find) && find(s).AtSecret?
    ensures |find(s).rest| < |s|
  {}

  /** ReplaceAllString: secret after secret, from left to right. */
  function Rewritten(find: Finder, s: string): string
    requires Finds(find)
    decreases |s|
  {
    match find(s)
    case Nothing => s
    case AtSecret(before, _, rest) =>
      RestIsShorter(find, s);
      Around(before, REDACTED, Rewritten(find, rest))
  }

  function SecretsIn(find: Finder, s: string): seq<string>
    requires Finds(find)
    decreases |s|
  {
    match find(s)
    case Nothing => []
    case AtSecret(_, secret, rest) =>
      RestIsShorter(find, s);
      [secret] + SecretsIn(find, rest)
  }

  function OutsideOf(find: Finder, s: string): seq<string>
    requires Finds(find)
    decreases |s|
  {
    match find(s)
    case Nothing => [s]
    case AtSecret(before, _, rest) =>
      RestIsShorter(find, s);
      [before] + OutsideOf(find, rest)
  }

  /** A string with n markers. */
  function Markers(n: nat): seq<string> {
    seq(n, _ => REDACTED)
  }

  /** Text rebuilt from its stretches and one secret between each two. */
  function Woven(outside: seq<string>, secrets: seq<string>): string
    requires |outside| == |secrets| + 1
  {
    if secrets == [] then outside[0] else Around(outside[0], secrets[0], Woven(outside[1..], secrets[1..]))
  }

  lemma {:induction false} RewritingReachesAFixedPoint(find: Finder, s: string)
    requires Finds(find) && Stays(find)
    ensures Rewritten(find, Rewritten(find, s)) == Rewritten(find, s)
    ensures SecretsIn(find, Rewritten(find, s)) == Markers(|SecretsIn(find, s)|)
    ensures OutsideOf(find, Rewritten(find, s)) == OutsideOf(find, s)
    decreases |s|
  {
    if find(s).AtSecret? {
      var rest := find(s).rest;
      RestIsShorter(find, s);
      RewritingReachesAFixedPoint(find, rest);
      assert Rewritten(find, s) == Around(find(s).before, REDACTED, Rewritten(find, rest));
      assert Markers(|SecretsIn(find, rest)| + 1) == [REDACTED] + Markers(|SecretsIn(find, rest)|);
    } else {
      assert Markers(0) == [];
    }
  }

  lemma {:induction false} RewritingWeaves(find: Finder, s: string)
    requires Finds(find)
    ensures |OutsideOf(find, s)| == |SecretsIn(find, s)| + 1
    ensures s == Woven(OutsideOf(find, s), SecretsIn(find, s))
    decreases |s|
  {
    if find(s).AtSecret? {
      var AtSecret(before, secret, rest) := find(s);
      RestIsShorter(find, s);
      RewritingWeaves(find, rest);
      assert ([before] + OutsideOf(find, rest))[1..] == OutsideOf(find, rest);
      assert ([secret] + SecretsIn(find, rest))[1..] == SecretsIn(find, rest);
    }
  }

  // ---- the credentials ----

  /** The first secret of the pattern: what the leftmost match has between its last colon and its at sign. */
  function FirstSecret(s: string): Found {
    match Find(s)
    case None => Nothing
    case Some(p) =>
      EndIsInside(s, p);
      var Match(colon, end) := MatchAt(s, p).value;
      AtSecret(s[..colon + 1], s[colon + 1..end - 1], s[end..])
  }

  lemma FirstSecretIsThere(s: string)
    requires FirstSecret(s).AtSecret?
    ensures s == Around(FirstSecret(s).before, FirstSecret(s).secret, FirstSecret(s).rest)
  {
    var p := Find(s).value;
    var sep := MatcherIsSound(s, p);
    var Match(colon, end) := MatchAt(s, p).value;
    FirstSecretIs(s, p, colon, end);
    SplitAround(s, colon + 1, end - 1);
  }

  /** A text is what comes before a secret, the secret, the sign after it, and the rest. */
  lemma SplitAround(s: string, from: nat, to: nat)
    requires from <= to < |s| && s[to] == '@'
    ensures s == Around(s[..from], s[from..to], s[to + 1..])
  {
    assert s[to..to + 1] == "@";
  }

  lemma CredentialsAreFound()
    ensures Finds(FirstSecret)
  {
    forall s | FirstSecret(s).AtSecret?
      ensures s == Around(FirstSecret(s).before, FirstSecret(s).secret, FirstSecret(s).rest)
    {
      FirstSecretIsThere(s);
    }
  }

  /** ReplaceAllString(s, "$1:[redacted]@"): leftmost, non-overlapping matches, from left to right. */
  function Redact(s: string): string {
    CredentialsAreFound();
    Rewritten(FirstSecret, s)
  }

  /** The secrets of the successive matches. */
  function Secrets(s: string): seq<string> {
    CredentialsAreFound();
    SecretsIn(FirstSecret, s)
  }

  /** Everything but the secrets, in order: the stretches of text between one secret and the next. */
  function Outside(s: string): seq<string> {
    CredentialsAreFound();
    OutsideOf(FirstSecret, s)
  }

  // ---- a match whose secret has been replaced ----

  /** Two texts that agree up to a colon, which is where a match in s has its last. */
  ghost predicate AgreeUpTo(s: string, t: string, colon: nat) {
    colon < |s| && colon < |t| && forall i | 0 <= i <= colon :: t[i] == s[i]
  }

  /** A match of t that begins before one of s would have been one of s. */
  lemma EarlierMatchWasThere(
      s: string, t: string, p: nat, sep: nat, colon: nat, end: nat, q: nat, sep': nat, colon': nat, end': nat)
    requires IsMatch(s, p, sep, colon, end) && IsMatch(t, q, sep', colon', end') && q < p
    requires AgreeUpTo(s, t, colon) && colon + 1 < |t| && t[colon + 1] == '['
    ensures MatchesAt(s, q)
  {
    assert colon' <= colon;
    if colon' < colon && end' - 1 <= colon {
      assert IsMatch(s, q, sep', colon', end');
      MatcherIsExact(s, q, sep', colon', end');
    } else {
      forall i | colon' < i < end - 1 ensures IsSecretChar(s[i]) {
        if i <= colon { assert t[i] == s[i]; }
      }
      assert IsMatch(s, q, sep', colon', end);
      MatcherIsExact(s, q, sep', colon', end);
    }
  }

  /** A bracketed text in the place of a secret. */
  ghost predicate IsMarker(marker: string) {
    marker != "" && marker[0] == '[' && forall i | 0 <= i < |marker| :: IsSecretChar(marker[i])
  }

  lemma RedactedIsAMarker()
    ensures IsMarker(REDACTED)
  {}

  /** The text with a marker after a colon, character by character. */
  lemma MaskedChars(s: string, colon: nat, marker: string, rest: string, t: string)
    requires colon < |s| && IsMarker(marker) && t == Around(s[..colon + 1], marker, rest)
    ensures var end := colon + |marker| + 2;
            && AgreeUpTo(s, t, colon) && end <= |t| && t[end - 1] == '@' && t[colon + 1] == '['
            && (forall i | colon < i < end - 1 :: IsSecretChar(t[i]))
  {
    forall i | colon < i < colon + 1 + |marker| ensures IsSecretChar(t[i]) {
      assert t[i] == marker[i - colon - 1];
    }
  }

  lemma MaskedSlices(before: string, marker: string, rest: string, t: string)
    requires t == Around(before, marker, rest)
    ensures var end := |before| + |marker| + 1;
            end <= |t| && t[..|before|] == before && t[|before|..end - 1] == marker && t[end..] == rest
  {}

  /** The first match of the text with its secret replaced is where it was, with the marker as its secret. */
  lemma FirstMatchStays(s: string, p: nat, sep: nat, colon: nat, end: nat, t: string, end': nat)
    requires Find(s) == Some(p) && IsMatch(s, p, sep, colon, end)
    requires AgreeUpTo(s, t, colon) && colon + 2 < end' <= |t| && t[colon + 1] == '[' && t[end' - 1] == '@'
    requires forall i | colon < i < end' - 1 :: IsSecretChar(t[i])
    ensures Find(t) == Some(p) && MatchAt(t, p) == Some(Match(colon, end'))
  {
    assert IsMatch(t, p, sep, colon, end');
    MatcherIsExact(t, p, sep, colon, end');
    forall q: nat | q < p ensures !MatchesAt(t, q) {
      if MatchesAt(t, q) {
        var sep' := MatcherIsSound(t, q);
        EarlierMatchWasThere(s, t, p, sep, colon, end, q, sep', MatchAt(t, q).value.colon, MatchAt(t, q).value.end);
        FoundIsLeftmost(s, q);
      }
    }
    FindsTheLeftmost(t, p);
  }

  lemma FirstSecretIs(s: string, p: nat, colon: nat, end: nat)
    requires Find(s) == Some(p) && MatchAt(s, p) == Some(Match(colon, end))
    ensures colon + 2 < end <= |s| && FirstSecret(s) == AtSecret(s[..colon + 1], s[colon + 1..end - 1], s[end..])
  {
    EndIsInside(s, p);
  }

  lemma FirstMatchOf(s: string) returns (p: nat, sep: nat, colon: nat, end: nat)
    requires FirstSecret(s).AtSecret?
    ensures Find(s) == Some(p) && IsMatch(s, p, sep, colon, end)
    ensures FirstSecret(s).before == s[..colon + 1]
  {
    p := Find(s).value;
    sep := MatcherIsSound(s, p);
    colon, end := MatchAt(s, p).value.colon, MatchAt(s, p).value.end;
    FirstSecretIs(s, p, colon, end);
  }

  lemma MaskedSecretStays(s: string, rest: string)
    requires FirstSecret(s).AtSecret?
    ensures FirstSecret(Around(FirstSecret(s).before, REDACTED, rest)) ==
            AtSecret(FirstSecret(s).before, REDACTED, rest)
  {
    var p, sep, colon, end := FirstMatchOf(s);
    RedactedIsAMarker();
    MaskedFirst(s, p, sep, colon, end, REDACTED, rest, Around(s[..colon + 1], REDACTED, rest));
  }

  lemma MaskedFirst(s: string, p: nat, sep: nat, colon: nat, end: nat, marker: string, rest: string, t: string)
    requires Find(s) == Some(p) && IsMatch(s, p, sep, colon, end)
    requires IsMarker(marker) && t == Around(s[..colon + 1], marker, rest)
    ensures FirstSecret(t) == AtSecret(s[..colon + 1], marker, rest)
  {
    var end' := colon + |marker| + 2;
    MaskedChars(s, colon, marker, rest, t);
    FirstMatchStays(s, p, sep, colon, end, t, end');
    MaskedSlices(s[..colon + 1], marker, rest, t);
    FirstSecretIs(t, p, colon, end');
  }

  lemma CredentialsStay()
    ensures Stays(FirstSecret)
  {
    forall s, rest | FirstSecret(s).AtSecret?
      ensures FirstSecret(Around(FirstSecret(s).before, REDACTED, rest)) ==
              AtSecret(FirstSecret(s).before, REDACTED, rest)
    {
      MaskedSecretStays(s, rest);
    }
  }

  // ---- what redaction guarantees ----

  /**
   One pass reaches a fixed point: a second changes nothing, every match of the output has the
   marker as its secret, and all text outside the secrets is kept in order.
   */
  lemma RedactionIsAFixedPoint(s: string)
    ensures Redact(Redact(s)) == Redact(s)
    ensures Secrets(Redact(s)) == Markers(|Secrets(s)|)
    ensures Outside(Redact(s)) == Outside(s)
  {
    CredentialsAreFound();
    CredentialsStay();
    RewritingReachesAFixedPoint(FirstSecret, s);
  }

  /** The text is its outside woven with its secrets. */
  lemma TextIsWoven(s: string)
    ensures |Outside(s)| == |Secrets(s)| + 1
    ensures s == Woven(Outside(s), Secrets(s))
  {
    CredentialsAreFound();
    RewritingWeaves(FirstSecret, s);
  }

  /** The output is the same outside woven with markers. */
  lemma OutputIsWovenWithMarkers(s: string)
    ensures |Outside(s)| == |Secrets(s)| + 1
    ensures Redact(s) == Woven(Outside(s), Markers(|Secrets(s)|))
  {
    TextIsWoven(s);
    TextIsWoven(Redact(s));
    RedactionIsAFixedPoint(s);
  }

  /** Some match of the text begins at p. */
  ghost predicate BeginsMatch(s: string, p: nat) {
    exists sep, colon, end :: IsMatch(s, p, sep, colon, end)
  }

  lemma MatchesBegin(s: string, p: nat)
    ensures MatchesAt(s, p) <==> BeginsMatch(s, p)
  {
    if MatchesAt(s, p) {
      var sep := MatcherIsSound(s, p);
    }
    if BeginsMatch(s, p) {
      var sep, colon, end :| IsMatch(s, p, sep, colon, end);
      MatcherIsExact(s, p, sep, colon, end);
    }
  }

  /** A text without a match is left alone. */
  lemma NothingToRedact(s: string)
    requires forall p: nat :: !BeginsMatch(s, p)
    ensures Redact(s) == s && Secrets(s) == [] && Outside(s) == [s]
  {
    if Find(s).Some? {
      MatchesBegin(s, Find(s).value);
    }
  }

  /** Of any other the secret of its first match becomes the marker, and what follows is rewritten in the same way. */
  lemma FirstMatchIsRedacted(s: string, p: nat, sep: nat, colon: nat, end: nat)
    requires IsMatch(s, p, sep, colon, end) && forall q: nat | q < p :: !BeginsMatch(s, q)
    ensures Redact(s) == s[..colon + 1] + "[redacted]" + "@" + Redact(s[end..])
    ensures Secrets(s) == [s[colon + 1..end - 1]] + Secrets(s[end..])
    ensures Outside(s) == [s[..colon + 1]] + Outside(s[end..])
  {
    MatcherIsExact(s, p, sep, colon, end);
    forall q: nat | q < p ensures !MatchesAt(s, q) {
      MatchesBegin(s, q);
    }
    FindsTheLeftmost(s, p);
    FirstSecretIs(s, p, colon, end);
    CredentialsAreFound();
  }
}

/** internal/logging/context.go: trace identifiers and the traceparent header that carries them. */
module TraceIds {
  import opened Prelude
  import opened Text

  type Byte = b: int | 0 <= b < 256

  const TRACE_ID_LEN := 16

  type TraceId = id: seq<Byte> | |id| == 16 witness [0, 0, 0, 0, 0, 0, 0, 0, 0, 0, 0, 0, 0, 0, 0, 0]

  const ZERO: TraceId := [0, 0, 0, 0, 0, 0, 0, 0, 0, 0, 0, 0, 0, 0, 0, 0]

  // ---- encoding/hex ----

  function HexDigit(n: int): char
    requires 0 <= n < 16
  {
    if n < 10 then '0' + n as char else 'a' + (n - 10) as char
  }

  predicate IsHexDigit(c: char) {
    '0' <= c <= '9' || 'a' <= c <= 'f' || 'A' <= c <= 'F'
  }

  function HexValue(c: char): (v: Option<int>)
    ensures v.Some? <==> IsHexDigit(c)
    ensures v.Some? ==> 0 <= v.value < 16
  {
    if '0' <= c <= '9' then Some(c as int - '0' as int)
    else if 'a' <= c <= 'f' then Some(c as int - 'a' as int + 10)
    else if 'A' <= c <= 'F' then Some(c as int - 'A' as int + 10)
    else None
  }

  function Encode(bytes: seq<Byte>): string {
    if bytes == [] then [] else [HexDigit(bytes[0] / 16), HexDigit(bytes[0] % 16)] + Encode(bytes[1..])
  }

  function Decode(s: string): Option<seq<Byte>> {
    if s == [] then Some([])
    else if |s| == 1 then None
    else
      var rest := Decode(s[2..]);
      if HexValue(s[0]).None? || HexValue(s[1]).None? || rest.None? then None
      else Some([HexValue(s[0]).value * 16 + HexValue(s[1]).value] + rest.value)
  }

  // ---- the package's own functions ----

  function ToString(id: TraceId): string {
    Encode(id)
  }

  predicate IsZero(id: TraceId) {
    id == ZERO
  }

  function ParseTraceId(s: string): (r: Option<TraceId>)
    ensures r.Some? ==> !IsZero(r.value)
  {
    if ByteLen(s) != TRACE_ID_LEN * 2 then None
    else
      var id := Decode(s);
      if id.None? || |id.value| != TRACE_ID_LEN || id.value == ZERO then None else Some(id.value)
  }

  function FromTraceparent(header: string): (r: Option<TraceId>)
    ensures r.Some? ==> !IsZero(r.value)
  {
    var parts := Split(TrimSpace(header), '-');
    if |parts| < 4 then None
    else if ByteLen(parts[0]) != 2 then None
    else ParseTraceId(parts[1])
  }

  /** `drawn` is what NewTraceID returns. */
  function ForRequest(header: string, drawn: TraceId): TraceId {
    var adopted := FromTraceparent(header);
    if adopted.Some? then adopted.value else drawn
  }

  // ---- the codec ----

  predicate IsHex(s: string) {
    forall i | 0 <= i < |s| :: IsHexDigit(s[i])
  }

  function Lower(s: string): string {
    seq(|s|, i requires 0 <= i < |s| => if 'A' <= s[i] <= 'F' then s[i] - 'A' + 'a' else s[i])
  }

  lemma {:induction false} DecodeUndoesEncode(bytes: seq<Byte>)
    ensures |Encode(bytes)| == 2 * |bytes|
    ensures Decode(Encode(bytes)) == Some(bytes)
  {
    if bytes != [] {
      DecodeUndoesEncode(bytes[1..]);
      assert Encode(bytes)[2..] == Encode(bytes[1..]);
      assert [bytes[0]] + bytes[1..] == bytes;
    }
  }

  const DIGITS := "0123456789abcdef"

  lemma DigitsAre(n: int)
    requires 0 <= n < 16
    ensures HexDigit(n) == DIGITS[n]
  {}

  /** Two digits a byte, the higher first. */
  lemma {:induction false} PrintedDigits(bytes: seq<Byte>, i: nat)
    requires i < |bytes|
    ensures |Encode(bytes)| == 2 * |bytes|
    ensures Encode(bytes)[2 * i] == DIGITS[bytes[i] / 16] && Encode(bytes)[2 * i + 1] == DIGITS[bytes[i] % 16]
  {
    DecodeUndoesEncode(bytes);
    if i == 0 {
      DigitsAre(bytes[0] / 16);
      DigitsAre(bytes[0] % 16);
    } else {
      PrintedDigits(bytes[1..], i - 1);
      assert Encode(bytes)[2..] == Encode(bytes[1..]);
    }
  }

  lemma LowerIsCanonical(c: char)
    requires HexValue(c).Some?
    ensures HexDigit(HexValue(c).value) == if 'A' <= c <= 'F' then c - 'A' + 'a' else c
  {}

  lemma {:induction false} EncodeUndoesDecode(s: string)
    requires IsHex(s) && |s| % 2 == 0
    ensures Decode(s).Some? && 2 * |Decode(s).value| == |s|
    ensures Encode(Decode(s).value) == Lower(s)
  {
    if s != [] {
      EncodeUndoesDecode(s[2..]);
      var bytes := Decode(s).value;
      assert bytes[1..] == Decode(s[2..]).value;
      LowerIsCanonical(s[0]);
      LowerIsCanonical(s[1]);
      assert bytes[0] / 16 == HexValue(s[0]).value && bytes[0] % 16 == HexValue(s[1]).value;
      assert Lower(s) == [Lower(s)[0], Lower(s)[1]] + Lower(s[2..]);
    }
  }

  lemma {:induction false} OnlyHexDecodes(s: string)
    requires Decode(s).Some?
    ensures IsHex(s) && |s| % 2 == 0
  {
    if s != [] {
      PairsDecode(s);
      OnlyHexDecodes(s[2..]);
      HexByPairs(s);
    }
  }

  lemma PairsDecode(s: string)
    requires s != []
    ensures Decode(s).Some? <==>
            |s| >= 2 && HexValue(s[0]).Some? && HexValue(s[1]).Some? && Decode(s[2..]).Some?
  {}

  lemma HexByPairs(s: string)
    requires |s| >= 2
    ensures IsHex(s) <==> HexValue(s[0]).Some? && HexValue(s[1]).Some? && IsHex(s[2..])
  {
    assert forall i | 2 <= i < |s| :: s[i] == s[2..][i - 2];
    assert forall i | 0 <= i < |s| - 2 :: s[2..][i] == s[i + 2];
  }

  // ---- parsing and printing ----

  /** Every identifier but the all-zero one survives being printed and parsed. */
  lemma ParseUndoesPrint(id: TraceId)
    ensures ParseTraceId(ToString(id)) == if IsZero(id) then None else Some(id)
  {
    DecodeUndoesEncode(id);
    OnlyHexDecodes(ToString(id));
    AsciiLen(ToString(id));
  }

  /** Parsing accepts exactly 32 hex digits that are not all zero, and prints back their lower case. */
  lemma PrintUndoesParse(s: string)
    ensures ParseTraceId(s).Some? <==> |s| == 32 && IsHex(s) && !ZeroDigits(s)
    ensures ParseTraceId(s).Some? ==> ToString(ParseTraceId(s).value) == Lower(s)
  {
    if Decode(s).Some? {
      OnlyHexDecodes(s);
      AsciiLen(s);
    }
    if |s| == 32 && IsHex(s) {
      AsciiLen(s);
      EncodeUndoesDecode(s);
      ZeroIsAllZeros(s);
    }
  }

  predicate ZeroBytes(bytes: seq<Byte>) {
    forall i | 0 <= i < |bytes| :: bytes[i] == 0
  }

  predicate ZeroDigits(s: string) {
    forall i | 0 <= i < |s| :: s[i] == '0'
  }

  lemma {:induction false} ZeroBytesAreZeroDigits(s: string)
    requires IsHex(s) && |s| % 2 == 0 && Decode(s).Some?
    ensures ZeroBytes(Decode(s).value) <==> ZeroDigits(s)
  {
    if s != [] {
      ZeroBytesAreZeroDigits(s[2..]);
      var bytes, rest := Decode(s).value, Decode(s[2..]).value;
      assert bytes[0] == 0 <==> s[0] == '0' && s[1] == '0';
      assert ZeroBytes(bytes) <==> bytes[0] == 0 && ZeroBytes(rest) by {
        assert bytes == [bytes[0]] + rest;
        assert forall i | 0 <= i < |rest| :: bytes[i + 1] == rest[i];
      }
      assert ZeroDigits(s) <==> s[0] == '0' && s[1] == '0' && ZeroDigits(s[2..]) by {
        assert forall i | 0 <= i < |s[2..]| :: s[i + 2] == s[2..][i];
      }
    }
  }

  lemma ZeroIsAllZeros(s: string)
    requires |s| == 32 && IsHex(s) && Decode(s).Some? && |Decode(s).value| == TRACE_ID_LEN
    ensures Decode(s).value == ZERO <==> ZeroDigits(s)
  {
    ZeroBytesAreZeroDigits(s);
    assert forall i | 0 <= i < |ZERO| :: ZERO[i] == 0;
  }

  // ---- the header ----

  /** The trimmed header is two bytes, a dash, the identifier's text, a dash, and at least one dash more. */
  ghost predicate Carries(header: string, tid: string) {
    exists version, rest ::
      && TrimSpace(header) == version + "-" + tid + "-" + rest
      && ByteLen(version) == 2 && '-' !in version && '-' !in tid && '-' in rest
  }

  /** The text of an identifier: 32 hex digits of either case, not all of them zero. */
  predicate IsIdText(tid: string) {
    |tid| == 32 && IsHex(tid) && !ZeroDigits(tid)
  }

  lemma DashesMakeParts(s: string)
    ensures '-' in s <==> |Split(s, '-')| > 1
  {
    if '-' !in s {
      SplitWithout(s, '-');
    } else {
      PartsHaveNoSeparator(s, '-');
      JoinUndoesSplit(s, '-');
    }
  }

  lemma CarriedIsParsed(header: string, version: string, tid: string, rest: string)
    requires TrimSpace(header) == version + "-" + tid + "-" + rest
    requires ByteLen(version) == 2 && '-' !in version && '-' !in tid && '-' in rest
    ensures FromTraceparent(header) == ParseTraceId(tid)
  {
    SplitAtFirst(tid, rest, '-');
    SplitAtFirst(version, tid + "-" + rest, '-');
    assert version + "-" + tid + "-" + rest == version + "-" + (tid + "-" + rest);
    DashesMakeParts(rest);
  }

  /** Parsing gives an identifier exactly when the text is one whose lower case it prints. */
  lemma ParsesExactlyItsText(tid: string, id: TraceId)
    ensures ParseTraceId(tid) == Some(id) <==> IsIdText(tid) && ToString(id) == Lower(tid)
  {
    PrintUndoesParse(tid);
    if IsIdText(tid) && ToString(id) == Lower(tid) {
      DecodeUndoesEncode(id);
      DecodeUndoesEncode(ParseTraceId(tid).value);
    }
  }

  /** An identifier is adopted exactly when the header carries a text of it; the all-zero one never is. */
  lemma AdoptedExactlyWhenCarried(header: string, id: TraceId)
    ensures FromTraceparent(header) == Some(id) <==>
            exists tid :: Carries(header, tid) && IsIdText(tid) && ToString(id) == Lower(tid)
    ensures FromTraceparent(header) == Some(id) ==> !IsZero(id)
  {
    if FromTraceparent(header) == Some(id) {
      var version, tid, rest := CarriedText(header);
      ParsesExactlyItsText(tid, id);
    }
    if exists tid :: Carries(header, tid) && IsIdText(tid) && ToString(id) == Lower(tid) {
      var tid :| Carries(header, tid) && IsIdText(tid) && ToString(id) == Lower(tid);
      var version, rest :| TrimSpace(header) == version + "-" + tid + "-" + rest
                           && ByteLen(version) == 2 && '-' !in version && '-' !in tid && '-' in rest;
      CarriedIsParsed(header, version, tid, rest);
      ParsesExactlyItsText(tid, id);
    }
  }

  /** The text an adopted identifier was parsed from. */
  lemma CarriedText(header: string) returns (version: string, tid: string, rest: string)
    requires FromTraceparent(header).Some?
    ensures TrimSpace(header) == version + "-" + tid + "-" + rest
    ensures ByteLen(version) == 2 && '-' !in version && '-' !in tid && '-' in rest
    ensures Carries(header, tid) && FromTraceparent(header) == ParseTraceId(tid)
  {
    var trimmed := TrimSpace(header);
    var parts := Split(trimmed, '-');
    PartsHaveNoSeparator(trimmed, '-');
    JoinUndoesSplit(trimmed, '-');
    assert parts[0] in parts && parts[1] in parts;
    version, tid, rest := parts[0], parts[1], Join(parts[2..], '-');
    assert parts[1..][1..] == parts[2..];
    JoinHasSeparator(parts[2..], '-');
  }

  /** A request is traced by the identifier its header carries, and by a drawn one only if it carries none. */
  lemma RequestsAdoptOrDraw(header: string, drawn: TraceId)
    ensures forall tid :: Carries(header, tid) && IsIdText(tid) ==> ToString(ForRequest(header, drawn)) == Lower(tid)
    ensures (forall tid :: !(Carries(header, tid) && IsIdText(tid))) ==> ForRequest(header, drawn) == drawn
  {
    forall tid | Carries(header, tid) && IsIdText(tid)
      ensures ToString(ForRequest(header, drawn)) == Lower(tid)
    {
      var version, rest :| TrimSpace(header) == version + "-" + tid + "-" + rest
                           && ByteLen(version) == 2 && '-' !in version && '-' !in tid && '-' in rest;
      CarriedIsParsed(header, version, tid, rest);
      PrintUndoesParse(tid);
    }
    if FromTraceparent(header).Some? {
      var version, tid, rest := CarriedText(header);
      PrintUndoesParse(tid);
    }
  }

  lemma JoinHasSeparator(parts: seq<string>, sep: char)
    requires |parts| >= 2
    ensures sep in Join(parts, sep)
  {
    assert Join(parts, sep)[|parts[0]|] == sep;
  }

  predicate IsLowerHex(s: string) {
    forall i | 0 <= i < |s| :: '0' <= s[i] <= '9' || 'a' <= s[i] <= 'f'
  }

  // ---- headers of section 3.2.2 of W3C Trace Context Level 1 ----

  predicate IsVersion(version: string) {
    |version| == 2 && IsLowerHex(version) && version != "ff"
  }

  predicate IsTraceIdField(tid: string) {
    |tid| == 32 && IsLowerHex(tid) && !ZeroDigits(tid)
  }

  predicate IsParentAndFlags(parent: string, flags: string) {
    |parent| == 16 && IsLowerHex(parent) && !ZeroDigits(parent) && |flags| == 2 && IsLowerHex(flags)
  }

  predicate IsTraceparent(version: string, tid: string, parent: string, flags: string) {
    IsVersion(version) && IsTraceIdField(tid) && IsParentAndFlags(parent, flags)
  }

  /** Nothing follows the flags in version 00; in a later one something may, after a dash, and ends visibly. */
  predicate MayFollow(version: string, suffix: string) {
    suffix == "" || (version != "00" && suffix[0] == '-' && !IsSpace(suffix[|suffix| - 1]))
  }

  /** What may come after the trace-id. */
  ghost predicate IsTail(version: string, rest: string) {
    exists parent, flags, suffix ::
      rest == parent + "-" + flags + suffix && IsParentAndFlags(parent, flags) && MayFollow(version, suffix)
  }

  function HeaderOf(version: string, tid: string, rest: string): string {
    version + "-" + tid + "-" + rest
  }

  ghost predicate IsWellFormed(header: string) {
    exists version, tid, rest ::
      header == HeaderOf(version, tid, rest) && IsVersion(version) && IsTraceIdField(tid) && IsTail(version, rest)
  }

  lemma LowerHexHasNoDash(s: string)
    requires IsLowerHex(s)
    ensures '-' !in s && IsHex(s) && Lower(s) == s
    ensures s != [] ==> !IsSpace(s[0]) && !IsSpace(s[|s| - 1])
  {}

  /** Every header of valid fields is adopted with its trace-id, whatever dash-separated suffix comes after them. */
  lemma FieldsAreAdopted(version: string, tid: string, parent: string, flags: string, suffix: string)
    requires IsTraceparent(version, tid, parent, flags)
    requires suffix == "" || suffix[0] == '-'
    ensures var r := FromTraceparent(HeaderOf(version, tid, parent + "-" + flags + suffix));
            r.Some? && ToString(r.value) == tid
  {
    LowerHexHasNoDash(version);
    LowerHexHasNoDash(tid);
    AsciiLen(version);
    var rest := parent + "-" + flags + TrimRight(suffix);
    assert rest[16] == '-';
    HeaderIsTrimmed(version, tid, parent, flags, suffix);
    CarriedIsParsed(HeaderOf(version, tid, parent + "-" + flags + suffix), version, tid, rest);
    PrintUndoesParse(tid);
  }

  lemma HeaderIsTrimmed(version: string, tid: string, parent: string, flags: string, suffix: string)
    requires IsTraceparent(version, tid, parent, flags)
    ensures TrimSpace(HeaderOf(version, tid, parent + "-" + flags + suffix)) ==
            HeaderOf(version, tid, parent + "-" + flags + TrimRight(suffix))
  {
    var base := HeaderOf(version, tid, parent + "-" + flags);
    var header := HeaderOf(version, tid, parent + "-" + flags + suffix);
    LowerHexHasNoDash(version);
    LowerHexHasNoDash(flags);
    assert header == base + suffix;
    assert base[0] == version[0] && base[|base| - 1] == flags[1];
    assert TrimLeft(header) == header;
    TrimRightKeeps(base, suffix);
  }

  /** So every valid header is, of any version, with whatever suffix that version may have. */
  lemma ValidHeadersAreAdopted(version: string, tid: string, parent: string, flags: string, suffix: string)
    requires IsTraceparent(version, tid, parent, flags) && MayFollow(version, suffix)
    ensures var header := HeaderOf(version, tid, parent + "-" + flags + suffix);
            && IsWellFormed(header)
            && FromTraceparent(header).Some? && ToString(FromTraceparent(header).value) == tid
  {
    FieldsAreAdopted(version, tid, parent, flags, suffix);
    var rest := parent + "-" + flags + suffix;
    assert IsTail(version, rest);
  }

  // ---- malformed headers ----

  /** Texts without a dash before the first two dashes are determined by the whole. */
  lemma FieldsAreUnique(a: string, b: string, rest: string, a': string, b': string, rest': string)
    requires HeaderOf(a, b, rest) == HeaderOf(a', b', rest')
    requires '-' !in a && '-' !in b && '-' !in a' && '-' !in b'
    ensures a == a' && b == b' && rest == rest'
  {
    FieldsOf(a, b, rest);
    FieldsOf(a', b', rest');
    assert rest == HeaderOf(a, b, rest)[|a| + |b| + 2..];
    assert rest' == HeaderOf(a', b', rest')[|a'| + |b'| + 2..];
  }

  lemma FieldsOf(a: string, b: string, rest: string)
    requires '-' !in a && '-' !in b
    ensures var parts := Split(HeaderOf(a, b, rest), '-'); |parts| > 1 && parts[0] == a && parts[1] == b
  {
    SplitAtFirst(b, rest, '-');
    SplitAtFirst(a, b + "-" + rest, '-');
    assert a + "-" + b + "-" + rest == a + "-" + (b + "-" + rest);
  }

  /** What the parser asks of a header's fields. */
  predicate IsLenient(version: string, tid: string, rest: string) {
    && ByteLen(version) == 2 && '-' !in version && IsIdText(tid) && '-' in rest
    && !IsSpace(version[0]) && !IsSpace(rest[|rest| - 1])
  }

  lemma WellFormedIsTrimmed(header: string)
    requires IsWellFormed(header)
    ensures TrimSpace(header) == header
  {
    var version, tid, rest :| header == HeaderOf(version, tid, rest) && IsVersion(version)
                              && IsTraceIdField(tid) && IsTail(version, rest);
    var parent, flags, suffix :| rest == parent + "-" + flags + suffix
                                 && IsParentAndFlags(parent, flags) && MayFollow(version, suffix);
    LowerHexHasNoDash(version);
    TailIsVisible(parent, flags, suffix);
    assert header[0] == version[0] && header[|header| - 1] == rest[|rest| - 1];
    TrimmedStays(header);
  }

  /**
   Every header that is adopted carries a version, a trace-id that is adopted in lower case, and a rest;
   and it is well formed exactly when there is no white space around it and these three are as section
   3.2.2 wants them.
   */
  lemma AdoptedThoughMalformed(header: string) returns (version: string, tid: string, rest: string)
    requires FromTraceparent(header).Some?
    ensures TrimSpace(header) == HeaderOf(version, tid, rest)
    ensures ByteLen(version) == 2 && '-' !in version && '-' in rest
    ensures IsIdText(tid) && ToString(FromTraceparent(header).value) == Lower(tid)
    ensures IsWellFormed(header) <==>
            header == TrimSpace(header) && IsVersion(version) && IsLowerHex(tid) && IsTail(version, rest)
  {
    version, tid, rest := CarriedText(header);
    PrintUndoesParse(tid);
    if IsWellFormed(header) {
      WellFormedIsTrimmed(header);
      var version', tid', rest' :| header == HeaderOf(version', tid', rest') && IsVersion(version')
                                   && IsTraceIdField(tid') && IsTail(version', rest');
      LowerHexHasNoDash(version');
      LowerHexHasNoDash(tid');
      FieldsAreUnique(version, tid, rest, version', tid', rest');
    }
  }

  /** A header of such fields is adopted, and malformed exactly when one of them is. */
  lemma FieldsThoughMalformed(version: string, tid: string, rest: string)
    requires IsLenient(version, tid, rest)
    ensures var header := HeaderOf(version, tid, rest);
            && FromTraceparent(header).Some? && ToString(FromTraceparent(header).value) == Lower(tid)
            && (!IsWellFormed(header) <==> !IsVersion(version) || !IsLowerHex(tid) || !IsTail(version, rest))
  {
    var header := HeaderOf(version, tid, rest);
    HexHasNoDash(tid);
    assert header[0] == version[0] && header[|header| - 1] == rest[|rest| - 1];
    TrimmedStays(header);
    CarriedIsParsed(header, version, tid, rest);
    PrintUndoesParse(tid);
    if IsWellFormed(header) {
      var version', tid', rest' :| header == HeaderOf(version', tid', rest') && IsVersion(version')
                                   && IsTraceIdField(tid') && IsTail(version', rest');
      LowerHexHasNoDash(version');
      LowerHexHasNoDash(tid');
      FieldsAreUnique(version, tid, rest, version', tid', rest');
    }
  }

  lemma HexHasNoDash(s: string)
    requires IsHex(s)
    ensures '-' !in s
  {}

  lemma TrimmedStays(s: string)
    requires s != [] && !IsSpace(s[0]) && !IsSpace(s[|s| - 1])
    ensures TrimSpace(s) == s
  {}

  /** The header is malformed, and its trace-id is adopted nevertheless. */
  ghost predicate AdoptedAsIs(header: string, tid: string) {
    !IsWellFormed(header) && FromTraceparent(header).Some? && ToString(FromTraceparent(header).value) == tid
  }

  /** A valid header with white space around it is malformed, and adopted. */
  lemma PaddedHeadersAreAdopted(before: string, header: string, after: string)
    requires IsWellFormed(header) && Blank(before) && Blank(after) && before + after != ""
    ensures !IsWellFormed(before + header + after)
    ensures FromTraceparent(header).Some? && FromTraceparent(before + header + after) == FromTraceparent(header)
  {
    WellFormedIsAdopted(header);
    WellFormedIsTrimmed(header);
    PaddingIsTrimmed(before, header, after);
    if IsWellFormed(before + header + after) {
      WellFormedIsTrimmed(before + header + after);
    }
  }

  lemma WellFormedIsAdopted(header: string)
    requires IsWellFormed(header)
    ensures FromTraceparent(header).Some?
  {
    var version, tid, rest :| header == HeaderOf(version, tid, rest) && IsVersion(version)
                              && IsTraceIdField(tid) && IsTail(version, rest);
    var parent, flags, suffix :| rest == parent + "-" + flags + suffix
                                 && IsParentAndFlags(parent, flags) && MayFollow(version, suffix);
    FieldsAreAdopted(version, tid, parent, flags, suffix);
  }

  /** A valid header but for a version that is "ff" or no lower-case hex is adopted. */
  lemma OddVersionsAreAdopted(version: string, tid: string, parent: string, flags: string, odd: string)
    requires IsTraceparent(version, tid, parent, flags)
    requires |odd| == 2 && ByteLen(odd) == 2 && '-' !in odd && !IsSpace(odd[0]) && !IsVersion(odd)
    ensures AdoptedAsIs(HeaderOf(odd, tid, parent + "-" + flags), tid)
  {
    LowerHexHasNoDash(tid);
    TailIsVisible(parent, flags, "");
    FieldsThoughMalformed(odd, tid, parent + "-" + flags);
  }

  /** So is one whose trace-id has upper-case digits, under the lower case of them. */
  lemma UpperCaseIsAdopted(version: string, tid: string, parent: string, flags: string, upper: string)
    requires IsTraceparent(version, tid, parent, flags)
    requires IsIdText(upper) && Lower(upper) == tid && upper != tid
    ensures AdoptedAsIs(HeaderOf(version, upper, parent + "-" + flags), tid)
  {
    LowerHexHasNoDash(version);
    AsciiLen(version);
    TailIsVisible(parent, flags, "");
    if IsLowerHex(upper) { LowerHexHasNoDash(upper); }
    FieldsThoughMalformed(version, upper, parent + "-" + flags);
  }

  /** So is one with anything else after the trace-id that has a dash in it. */
  lemma CutHeadersAreAdopted(version: string, tid: string, parent: string, flags: string, cut: string)
    requires IsTraceparent(version, tid, parent, flags)
    requires '-' in cut && !IsSpace(cut[|cut| - 1]) && !IsTail(version, cut)
    ensures AdoptedAsIs(HeaderOf(version, tid, cut), tid)
  {
    LowerHexHasNoDash(version);
    LowerHexHasNoDash(tid);
    AsciiLen(version);
    FieldsThoughMalformed(version, tid, cut);
  }

  /** So is one of version 00 that goes on after its flags, which that version does not allow. */
  lemma SuffixedVersion00IsAdopted(tid: string, parent: string, flags: string, suffix: string)
    requires IsTraceparent("00", tid, parent, flags)
    requires suffix != "" && suffix[0] == '-' && !IsSpace(suffix[|suffix| - 1])
    ensures AdoptedAsIs(HeaderOf("00", tid, parent + "-" + flags + suffix), tid)
  {
    TailIsVisible(parent, flags, suffix);
    CutHeadersAreAdopted("00", tid, parent, flags, parent + "-" + flags + suffix);
  }

  lemma TailIsVisible(parent: string, flags: string, suffix: string)
    requires |parent| == 16 && |flags| == 2 && IsLowerHex(flags)
    requires suffix != "" ==> !IsSpace(suffix[|suffix| - 1])
    ensures var rest := parent + "-" + flags + suffix; '-' in rest && !IsSpace(rest[|rest| - 1])
  {
    LowerHexHasNoDash(flags);
    var rest := parent + "-" + flags + suffix;
    assert rest[16] == '-';
    assert suffix == "" ==> rest == parent + "-" + flags;
  }
}

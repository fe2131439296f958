/**
 internal/httpserver/middleware.go: the status recorder and the middleware around every handler.
 The response underneath is net/http's: the first final status wins, informational ones do not
 count, an invalid one panics, and a handler that sends nothing sends 200.
 */
module Recorder {
  import opened Prelude

  /** A status WriteHeader sends as the response's own: 200 to 999, or 101. */
  predicate IsFinal(code: int) {
    200 <= code <= 999 || code == 101
  }

  predicate IsValid(code: int) {
    100 <= code <= 999
  }

  /** What a handler does to its response. */
  datatype Op = Header(code: int) | Body

  /** The recorder and the response under it. */
  datatype View = View(code: int, written: bool, sent: Option<int>)

  const FRESH := View(200, false, None)

  /** The response under the recorder after a WriteHeader. */
  function Sent(sent: Option<int>, code: int): Option<int> {
    if sent.Some? || !IsFinal(code) then sent else Some(code)
  }

  /** A WriteHeader that reaches net/http with no status sent and an invalid one panics. */
  predicate Rejects(v: View, op: Op) {
    op.Header? && v.sent.None? && !IsValid(op.code)
  }

  function AfterOp(v: View, op: Op): View {
    var code := if op.Header? then op.code else 200;
    View(if v.written then v.code else code, true, Sent(v.sent, code))
  }

  /** The operations a handler gets through before it panics, if it does. */
  function Outcome(v: View, ops: seq<Op>, panics: bool): (View, bool)
    decreases |ops|
  {
    if ops == [] then (v, panics)
    else if Rejects(v, ops[0]) then (AfterOp(v, ops[0]), true)
    else Outcome(AfterOp(v, ops[0]), ops[1..], panics)
  }

  /** net/http's response. */
  class Response {
    var sent: Option<int>

    constructor ()
      ensures sent == None
    {
      sent := None;
    }

    method WriteHeader(code: int) returns (panicked: bool)
      modifies this
      ensures sent == Sent(old(sent), code)
      ensures panicked <==> old(sent).None? && !IsValid(code)
    {
      if sent.Some? {
        return false;
      }
      if !IsValid(code) {
        return true;
      }
      if IsFinal(code) {
        sent := Some(code);
      }
      return false;
    }

    method Write()
      modifies this
      ensures sent == Sent(old(sent), 200)
    {
      if sent.None? {
        sent := Some(200);
      }
    }

    /** The handler has returned. */
    method Finish() returns (status: int)
      modifies this
      ensures sent == Some(status) && sent == Sent(old(sent), 200)
    {
      if sent.None? {
        sent := Some(200);
      }
      return sent.value;
    }
  }

  class StatusRecorder {
    const response: Response
    var code: int
    var written: bool

    function Seen(): View
      reads this, response
    {
      View(code, written, response.sent)
    }

    constructor (response: Response)
      ensures this.response == response && code == 200 && !written
    {
      this.response := response;
      code, written := 200, false;
    }

    method WriteHeader(status: int) returns (panicked: bool)
      modifies this, response
      ensures Seen() == AfterOp(old(Seen()), Header(status))
      ensures written && code == if old(written) then old(code) else status
      ensures panicked <==> Rejects(old(Seen()), Header(status))
    {
      if !written {
        code := status;
        written := true;
      }
      panicked := response.WriteHeader(status);
    }

    method Write()
      modifies this, response
      ensures Seen() == AfterOp(old(Seen()), Body)
      ensures written && code == if old(written) then old(code) else 200
    {
      if !written {
        code := 200;
        written := true;
      }
      response.Write();
    }
  }

  class HTTPMetrics {
    var observed: seq<int>

    method Observe(code: int)
      modifies this
      ensures observed == old(observed) + [code]
    {
      observed := observed + [code];
    }
  }

  /** mux.ServeHTTP: the handler's operations, up to the first one that panics. */
  method Serve(rec: StatusRecorder, ops: seq<Op>, panics: bool) returns (panicked: bool)
    requires rec as object != rec.response
    modifies rec, rec.response
    ensures (rec.Seen(), panicked) == Outcome(old(rec.Seen()), ops, panics)
  {
    for k := 0 to |ops|
      invariant Outcome(rec.Seen(), ops[k..], panics) == Outcome(old(rec.Seen()), ops, panics)
    {
      assert ops[k..][0] == ops[k] && ops[k..][1..] == ops[k + 1..];
      if ops[k].Header? {
        panicked := rec.WriteHeader(ops[k].code);
        if panicked {
          return;
        }
      } else {
        rec.Write();
      }
    }
    return panics;
  }

  /** The code handed to the metrics. */
  function Recorded(ops: seq<Op>, panics: bool): int {
    var (v, panicked) := Outcome(FRESH, ops, panics);
    if panicked && !v.written then 500 else v.code
  }

  /** The status the client receives. */
  function Received(ops: seq<Op>, panics: bool): int {
    var (v, panicked) := Outcome(FRESH, ops, panics);
    var sent := if panicked && !v.written then Sent(v.sent, 500) else v.sent;
    if sent.Some? then sent.value else 200
  }

  /** The middleware: whatever the handler does, one observation, with the recorder's code. */
  method Observe(metrics: HTTPMetrics, ops: seq<Op>, panics: bool) returns (received: int)
    modifies metrics
    ensures metrics.observed == old(metrics.observed) + [Recorded(ops, panics)]
    ensures received == Received(ops, panics)
  {
    var w := new Response();
    var rec := new StatusRecorder(w);
    var recovered := Serve(rec, ops, panics);
    if recovered {
      if !rec.written {
        var again := rec.WriteHeader(500);
      }
    }
    metrics.Observe(rec.code);
    received := w.Finish();
  }

  /** The recorder has written, and what was sent, if anything, is what it wrote. */
  lemma {:induction false} FirstStatusWins(v: View, ops: seq<Op>, panics: bool)
    requires v.written && v.sent == (if IsFinal(v.code) then Some(v.code) else None)
    ensures var (w, _) := Outcome(v, ops, panics);
            w.written && w.code == v.code && (IsFinal(v.code) ==> w.sent == Some(v.code))
    decreases |ops|
  {
    if ops != [] && !Rejects(v, ops[0]) {
      var next := AfterOp(v, ops[0]);
      if IsFinal(v.code) {
        FirstStatusWins(next, ops[1..], panics);
      } else {
        CodeIsKept(next, ops[1..], panics);
      }
    }
  }

  lemma {:induction false} CodeIsKept(v: View, ops: seq<Op>, panics: bool)
    requires v.written
    ensures var (w, _) := Outcome(v, ops, panics); w.written && w.code == v.code
    decreases |ops|
  {
    if ops != [] && !Rejects(v, ops[0]) {
      CodeIsKept(AfterOp(v, ops[0]), ops[1..], panics);
    }
  }

  lemma {:induction false} OnlyFinalIsSent(v: View, ops: seq<Op>, panics: bool)
    requires v.sent.Some? ==> IsFinal(v.sent.value)
    ensures var (w, _) := Outcome(v, ops, panics); w.sent.Some? ==> IsFinal(w.sent.value)
    decreases |ops|
  {
    if ops != [] && !Rejects(v, ops[0]) {
      OnlyFinalIsSent(AfterOp(v, ops[0]), ops[1..], panics);
    }
  }

  /**
   The metrics record the status the client receives, with or without a panic, exactly when the
   handler does not begin with a WriteHeader whose status is not final.
   */
  lemma RecordedIsReceived(ops: seq<Op>, panics: bool)
    ensures Recorded(ops, panics) == Received(ops, panics) <==>
            ops == [] || ops[0].Body? || 200 <= ops[0].code <= 999 || ops[0].code == 101
  {
    if ops != [] {
      var v := AfterOp(FRESH, ops[0]);
      OnlyFinalIsSent(FRESH, ops, panics);
      if !Rejects(FRESH, ops[0]) {
        FirstStatusWins(v, ops[1..], panics);
      }
    }
  }

  /** A status that is sent ahead of the response's own. */
  predicate IsAhead(op: Op) {
    op.Header? && 100 <= op.code <= 199 && op.code != 101
  }

  lemma {:induction false} AheadSendsNothing(v: View, ops: seq<Op>, k: nat, panics: bool)
    requires k <= |ops| && v.sent.None? && forall i | 0 <= i < k :: IsAhead(ops[i])
    ensures exists w: View :: w.sent.None? && w.written == (v.written || k > 0)
                              && Outcome(v, ops, panics) == Outcome(w, ops[k..], panics)
    decreases k
  {
    if k == 0 {
      assert ops[0..] == ops;
    } else {
      AheadSendsNothing(AfterOp(v, ops[0]), ops[1..], k - 1, panics);
      assert ops[1..][k - 1..] == ops[k..];
    }
  }

  lemma {:induction false} SentIsKept(v: View, ops: seq<Op>, panics: bool)
    requires v.sent.Some? && v.written
    ensures var (w, _) := Outcome(v, ops, panics); w.sent == v.sent && w.written
    decreases |ops|
  {
    if ops != [] {
      SentIsKept(AfterOp(v, ops[0]), ops[1..], panics);
    }
  }

  /**
   The client receives the first status that is final, 200 from a body without one, from a handler that
   sends none, and from one whose status net/http rejects, and 500 from one that panics before it sends
   anything. The metrics record the first status whatever it is.
   */
  lemma WhatIsReceivedAndRecorded(ops: seq<Op>, k: nat, panics: bool)
    requires k <= |ops| && (forall i | 0 <= i < k :: IsAhead(ops[i])) && (k < |ops| ==> !IsAhead(ops[k]))
    ensures k == |ops| ==> Received(ops, panics) == if ops == [] && panics then 500 else 200
    ensures k < |ops| ==>
              Received(ops, panics) ==
              if ops[k].Header? && (200 <= ops[k].code <= 999 || ops[k].code == 101) then ops[k].code else 200
    ensures Recorded(ops, panics) ==
            if ops == [] then (if panics then 500 else 200) else if ops[0].Header? then ops[0].code else 200
  {
    AheadSendsNothing(FRESH, ops, k, panics);
    var w: View :| w.sent.None? && w.written == (k > 0) && Outcome(FRESH, ops, panics) == Outcome(w, ops[k..], panics);
    if k < |ops| {
      assert ops[k..][0] == ops[k];
      if !Rejects(w, ops[k]) {
        SentIsKept(AfterOp(w, ops[k]), ops[k..][1..], panics);
      }
    }
    if ops != [] && !Rejects(FRESH, ops[0]) {
      CodeIsKept(AfterOp(FRESH, ops[0]), ops[1..], panics);
    }
  }

  /** With final statuses only, the two always agree, and a silent panic is a 500 on both sides. */
  lemma FinalStatusesAgree(ops: seq<Op>, panics: bool)
    requires forall op | op in ops :: op.Header? ==> 200 <= op.code <= 999
    ensures Recorded(ops, panics) == Received(ops, panics)
    ensures ops == [] ==> Received(ops, panics) == if panics then 500 else 200
    ensures ops != [] ==> Received(ops, panics) == if ops[0].Header? then ops[0].code else 200
  {
    RecordedIsReceived(ops, panics);
    if ops != [] {
      assert ops[0] in ops;
      FirstStatusWins(AfterOp(FRESH, ops[0]), ops[1..], panics);
    }
  }
}

/** The per-record stage of one form's migration: each source record goes through
    the transformer and, unless it is skipped, is submitted to the destination
    form; how each record's callback ends decides whether the stream goes on.
    Records are processed one after another; the pipeline's concurrency is kept
    only as the bound it is configured with (see Parallelism). */
module Records {
  import opened JsValues

  /** A transformed record, ready for submission (its JSON text). */
  type Payload = string

  /** What `destForm.submit(transformed)` settles with: a response, or a rejection
      whose error may or may not carry a `response` property. */
  datatype SubmitResult =
    | Response(statusCode: int, body: Fault)
    | Rejected(err: Fault, hasResponse: bool)

  /** What happens to one record: the transformer calls back with an error, with a
      falsy result, or with a payload that is then submitted. */
  datatype RecordOutcome =
    | TransformFailed(err: Fault)
    | Skipped
    | Submitted(payload: Payload, result: SubmitResult)

  /** How the record's callback ends: `nextItem()`, `nextItem(err)`, or never
      (the rejection handler throws on `err.response.body` before reaching it). */
  datatype Verdict = Next | Halt(err: Fault) | Hang

  datatype StreamEnd = Finished | Errored(at: nat, err: Fault) | Stalled(at: nat)

  /** observed: records handed to the transformer; submitted: payloads sent, in
      order; nextItemCalls: callbacks made; end: how the stream ends. */
  datatype StreamRun = StreamRun(observed: nat, submitted: seq<Payload>, nextItemCalls: nat, end: StreamEnd)

  /** `parallel: isProject ? 1 : 100`. */
  function Parallelism(isProject: bool): (k: nat)
    ensures k >= 1
    ensures isProject <==> k == 1
    ensures !isProject ==> k == 100
  {
    if isProject then 1 else 100
  }

  /** `parseInt(statusCode / 100, 10)` for an integer status code: the quotient
      truncated toward zero. */
  function StatusClass(statusCode: int): int {
    if statusCode >= 0 then statusCode / 100 else -((-statusCode) / 100)
  }

  /** A response counts as accepted when its status class is 2. */
  function IsAccepted(statusCode: int): (accepted: bool)
    ensures accepted <==> 200 <= statusCode <= 299
  {
    StatusClass(statusCode) == 2
  }

  /** How the transform callback of one record ends: an accepted submission and a
      skipped record go on to the next record, a rejection without a response
      never calls back, and every other outcome stops with its error. */
  function Callback(r: RecordOutcome): (v: Verdict)
    ensures v.Next? <==> r.Skipped? || AcceptedSubmission(r)
    ensures v.Hang? <==> r.Submitted? && r.result.Rejected? && !r.result.hasResponse
    ensures r.TransformFailed? ==> v == Halt(r.err)
    ensures r.Submitted? && r.result.Response? && !IsAccepted(r.result.statusCode) ==> v == Halt(r.result.body)
    ensures r.Submitted? && r.result.Rejected? && r.result.hasResponse ==> v == Halt(r.result.err)
  {
    match r
    case TransformFailed(e) => Halt(e)
    case Skipped => Next
    case Submitted(_, Response(code, body)) => if IsAccepted(code) then Next else Halt(body)
    case Submitted(_, Rejected(e, hasResponse)) => if hasResponse then Halt(e) else Hang
  }

  predicate Continues(r: RecordOutcome) {
    Callback(r).Next?
  }

  /** The index of the first record whose callback does not call `nextItem()`,
      or the number of records when there is none. */
  function FirstHalt(rs: seq<RecordOutcome>): (k: nat)
    ensures k <= |rs|
    ensures forall j :: 0 <= j < k ==> Continues(rs[j])
    ensures k < |rs| ==> !Continues(rs[k])
  {
    if rs == [] then 0
    else if !Continues(rs[0]) then 0
    else 1 + FirstHalt(rs[1..])
  }

  /** The payloads of the submitted records, in record order. */
  function Payloads(rs: seq<RecordOutcome>): (ps: seq<Payload>)
    ensures |ps| <= |rs|
    ensures forall p :: p in ps ==> exists j :: 0 <= j < |rs| && rs[j].Submitted? && rs[j].payload == p
  {
    if rs == [] then []
    else
      var last := rs[|rs| - 1];
      Payloads(rs[..|rs| - 1]) + if last.Submitted? then [last.payload] else []
  }

  /** The stream of one form, run from its first record until the first record
      that does not continue it. */
  function Pipeline(rs: seq<RecordOutcome>): (run: StreamRun)
    ensures run.observed <= |rs|
    ensures run.end.Finished? <==> forall j :: 0 <= j < |rs| ==> Continues(rs[j])
    ensures run.end.Finished? ==> run.observed == |rs|
    ensures run.end.Errored? ==>
      run.end.at < |rs| && run.observed == run.end.at + 1 && Callback(rs[run.end.at]) == Halt(run.end.err)
    ensures run.end.Stalled? ==> run.end.at < |rs| && run.observed == run.end.at + 1 && Callback(rs[run.end.at]).Hang?
    ensures !run.end.Finished? ==> forall j :: 0 <= j < run.observed - 1 ==> Continues(rs[j])
    ensures run.submitted == Payloads(rs[..run.observed])
    ensures run.end.Stalled? ==> run.nextItemCalls + 1 == run.observed
    ensures !run.end.Stalled? ==> run.nextItemCalls == run.observed
  {
    var k := FirstHalt(rs);
    if k == |rs| then assert rs[..k] == rs; StreamRun(|rs|, Payloads(rs), |rs|, Finished)
    else if Callback(rs[k]).Hang? then StreamRun(k + 1, Payloads(rs[..k + 1]), k, Stalled(k))
    else StreamRun(k + 1, Payloads(rs[..k + 1]), k + 1, Errored(k, Callback(rs[k]).err))
  }

  lemma PayloadsSnoc(rs: seq<RecordOutcome>, i: nat)
    requires i < |rs|
    ensures Payloads(rs[..i + 1]) == Payloads(rs[..i]) + if rs[i].Submitted? then [rs[i].payload] else []
  {
    assert rs[..i + 1][..i] == rs[..i];
  }

  /** Payloads distributes over concatenation of record sequences. */
  lemma {:induction false} PayloadsAppend(a: seq<RecordOutcome>, b: seq<RecordOutcome>)
    ensures Payloads(a + b) == Payloads(a) + Payloads(b)
    decreases |b|
  {
    if b == [] {
      assert a + b == a;
    } else {
      var c := b[..|b| - 1];
      assert (a + b)[..|a + b| - 1] == a + c;
      PayloadsAppend(a, c);
    }
  }

  /** The pipeline of records whose first halting record is at position i. */
  lemma PipelineHaltsAt(rs: seq<RecordOutcome>, i: nat)
    requires i < |rs| && !Continues(rs[i])
    requires forall j :: 0 <= j < i ==> Continues(rs[j])
    ensures Pipeline(rs) == if Callback(rs[i]).Hang? then StreamRun(i + 1, Payloads(rs[..i + 1]), i, Stalled(i))
                            else StreamRun(i + 1, Payloads(rs[..i + 1]), i + 1, Errored(i, Callback(rs[i]).err))
  {
  }

  /** Runs the stream record by record, as the transform callback does: every
      record is handed to the transformer, and the loop goes on only while its
      callback calls `nextItem()` without an error. */
  method RunRecords(records: seq<RecordOutcome>) returns (run: StreamRun)
    ensures run == Pipeline(records)
  {
    var sent: seq<Payload> := [];
    var i := 0;
    while i < |records|
      invariant i <= |records|
      invariant forall j :: 0 <= j < i ==> Continues(records[j])
      invariant sent == Payloads(records[..i])
    {
      var r := records[i];
      PayloadsSnoc(records, i);
      if !Continues(r) {
        PipelineHaltsAt(records, i);
      }
      match r {
        case TransformFailed(e) =>
          return StreamRun(i + 1, sent, i + 1, Errored(i, e));
        case Skipped =>
        case Submitted(p, result) =>
          sent := sent + [p];
          match result {
            case Response(code, body) =>
              if !IsAccepted(code) {
                return StreamRun(i + 1, sent, i + 1, Errored(i, body));
              }
            case Rejected(e, hasResponse) =>
              if hasResponse {
                return StreamRun(i + 1, sent, i + 1, Errored(i, e));
              }
              return StreamRun(i + 1, sent, i, Stalled(i));
          }
      }
      i := i + 1;
    }
    assert records[..i] == records;
    run := StreamRun(|records|, sent, |records|, Finished);
  }

  /** A transform error at record i, after records that all continued, ends the
      stream with that error; no later record reaches the transformer. */
  lemma TransformErrorEndsStream(rs: seq<RecordOutcome>, i: nat)
    requires i < |rs| && rs[i].TransformFailed?
    requires forall j :: 0 <= j < i ==> Continues(rs[j])
    ensures Pipeline(rs).end == Errored(i, rs[i].err)
    ensures Pipeline(rs).observed == i + 1
    ensures Pipeline(rs).submitted == Payloads(rs[..i])
  {
    PayloadsSnoc(rs, i);
  }

  /** A non-2xx response ends the stream with the response body as the error:
      the record after it is never transformed or submitted. */
  lemma NonAcceptedResponseEndsStream(rs: seq<RecordOutcome>, i: nat)
    requires i < |rs| && rs[i].Submitted? && rs[i].result.Response? && !IsAccepted(rs[i].result.statusCode)
    requires forall j :: 0 <= j < i ==> Continues(rs[j])
    ensures Pipeline(rs).end == Errored(i, rs[i].result.body)
    ensures Pipeline(rs).observed == i + 1
    ensures Pipeline(rs).submitted == Payloads(rs[..i]) + [rs[i].payload]
  {
    PayloadsSnoc(rs, i);
  }

  /** A rejected submission ends the stream with the rejection when the error
      carries a response, and leaves it waiting forever when it does not. */
  lemma RejectedSubmitEndsStream(rs: seq<RecordOutcome>, i: nat)
    requires i < |rs| && rs[i].Submitted? && rs[i].result.Rejected?
    requires forall j :: 0 <= j < i ==> Continues(rs[j])
    ensures rs[i].result.hasResponse ==> Pipeline(rs).end == Errored(i, rs[i].result.err)
    ensures !rs[i].result.hasResponse ==> Pipeline(rs).end == Stalled(i) && Pipeline(rs).nextItemCalls == i
    ensures Pipeline(rs).submitted == Payloads(rs[..i]) + [rs[i].payload]
  {
    PayloadsSnoc(rs, i);
  }

  /** A skipped record contributes no submission. */
  lemma SkippedNotSubmitted(rs: seq<RecordOutcome>, i: nat)
    requires i < |rs| && rs[i] == Skipped
    ensures Payloads(rs) == Payloads(rs[..i]) + Payloads(rs[i + 1..])
  {
    var before, after := rs[..i + 1], rs[i + 1..];
    assert rs == before + after;
    PayloadsAppend(before, after);
    PayloadsSnoc(rs, i);
  }

  predicate AcceptedSubmission(r: RecordOutcome) {
    r.Submitted? && r.result.Response? && IsAccepted(r.result.statusCode)
  }

  /** N records, all submitted and accepted: N submissions and a finished stream. */
  lemma AllAcceptedSubmitsAll(rs: seq<RecordOutcome>)
    requires forall j :: 0 <= j < |rs| ==> AcceptedSubmission(rs[j])
    ensures Pipeline(rs).end == Finished
    ensures |Pipeline(rs).submitted| == |rs|
    ensures forall j :: 0 <= j < |rs| ==> rs[j].Submitted? && Pipeline(rs).submitted[j] == rs[j].payload
  {
    AllAcceptedPayloads(rs);
  }

  lemma {:induction false} AllAcceptedPayloads(rs: seq<RecordOutcome>)
    requires forall j :: 0 <= j < |rs| ==> rs[j].Submitted?
    ensures |Payloads(rs)| == |rs|
    ensures forall j :: 0 <= j < |rs| ==> Payloads(rs)[j] == rs[j].payload
  {
    if rs != [] {
      var front := rs[..|rs| - 1];
      AllAcceptedPayloads(front);
      assert Payloads(rs) == Payloads(front) + [rs[|rs| - 1].payload];
    }
  }

  /** Records at odd positions skipped, the others accepted: the stream finishes
      after ceil(N/2) submissions. */
  lemma {:induction false} SkipOddSubmitsHalf(rs: seq<RecordOutcome>)
    requires forall j :: 0 <= j < |rs| ==> if j % 2 == 1 then rs[j] == Skipped else AcceptedSubmission(rs[j])
    ensures Pipeline(rs).end == Finished
    ensures |Pipeline(rs).submitted| == (|rs| + 1) / 2
  {
    if rs != [] {
      var front := rs[..|rs| - 1];
      SkipOddSubmitsHalf(front);
    }
  }

  /** Of two records, a rejected one (status 500) followed by an accepted one, only
      the first is submitted: the stream ends with the first response's body. */
  lemma RejectedResponseStopsBeforeNext(p1: Payload, p2: Payload, body1: Fault, body2: Fault)
    ensures Pipeline([Submitted(p1, Response(500, body1)), Submitted(p2, Response(200, body2))])
         == StreamRun(1, [p1], 1, Errored(0, body1))
  {
  }
}

/**
 * The polling loop of main. Each iteration fetches, moves the timestamp to the
 * reply's `current_date`, validates the reply and notifies about the first
 * homework; any exception is reported unless the previous one was of the
 * same class. The loop's whole state is the timestamp and the previous error.
 */
module PollLoop {
  import opened Wrappers
  import opened PyValues
  import opened Homework

  /** What get_api_answer produced in one iteration: the decoded body, or the exception it raised. */
  type FetchOutcome = Result<Json, ErrKind>

  /**
   * A message handed to send_message: a status text, or the failure report
   * LAST_FRONTIER_ERROR_MESSAGE built from an exception, of which only the
   * class is modelled.
   */
  datatype Outgoing = StatusMessage(text: string) | FailureReport(error: ErrKind)

  /** The loop variables `timestamp` and `previous_error`. */
  datatype PollState = PollState(timestamp: Json, previousError: Option<ErrKind>)

  /** The state after one iteration and the message it sent, if any. */
  datatype CycleResult = CycleResult(state: PollState, message: Option<Outgoing>)

  /**
   * The timestamp after the `try` block: `request.get('current_date')` runs
   * right after a successful fetch, before any validation; a fetch that
   * raised, or a body with no `get` (not a dict), leaves it as it was.
   */
  function TimestampAfter(timestamp: Json, outcome: FetchOutcome): (r: Json)
    ensures outcome.Success? && outcome.value.JObject? && "current_date" in outcome.value.fields ==>
              r == outcome.value.fields["current_date"]
    ensures outcome.Success? && outcome.value.JObject? && "current_date" !in outcome.value.fields ==>
              r == JNull
    ensures !(outcome.Success? && outcome.value.JObject?) ==> r == timestamp
  {
    match outcome
    case Failure(_) => timestamp
    case Success(request) =>
      if request.JObject? then Get(request.fields, "current_date") else timestamp
  }

  /**
   * What the `try` block ends with: the status text to send (`None` for an
   * empty homework list), or the exception it raised. A body that is not a
   * dict fails at `request.get` with AttributeError before check_response
   * sees it; only the first homework of the list is parsed.
   */
  function TryBlock(outcome: FetchOutcome): (r: Result<Option<string>, ErrKind>)
    ensures outcome.Failure? ==> r == Failure(outcome.error)
    ensures outcome.Success? && !outcome.value.JObject? ==> r == Failure(AttributeError)
    ensures outcome.Success? && outcome.value.JObject? && CheckResponse(outcome.value).Failure? ==>
              r == Failure(CheckResponse(outcome.value).error)
    ensures r == Success(None) <==> outcome.Success? && CheckResponse(outcome.value) == Success([])
    ensures r.Success? && r.value.Some? <==>
              outcome.Success? && CheckResponse(outcome.value).Success?
              && |CheckResponse(outcome.value).value| > 0
              && ParseStatus(CheckResponse(outcome.value).value[0]).Success?
    ensures r.Success? && r.value.Some? ==>
              r.value.value == ParseStatus(CheckResponse(outcome.value).value[0]).value
    ensures outcome.Success? && CheckResponse(outcome.value).Success?
            && |CheckResponse(outcome.value).value| > 0
            && ParseStatus(CheckResponse(outcome.value).value[0]).Failure? ==>
              r == Failure(ParseStatus(CheckResponse(outcome.value).value[0]).error)
  {
    match outcome
    case Failure(e) => Failure(e)
    case Success(request) =>
      if !request.JObject? then Failure(AttributeError)
      else match CheckResponse(request)
        case Failure(e) => Failure(e)
        case Success(homeworks) =>
          if |homeworks| == 0 then Success(None)
          else match ParseStatus(homeworks[0])
            case Failure(e) => Failure(e)
            case Success(text) => Success(Some(text))
  }

  /**
   * One iteration of `while True`. On success the status text, if any, is
   * sent and `previous_error` is kept. On an exception a report is sent
   * unless `previous_error` is of the same class, and `previous_error`
   * becomes the new exception either way. Send failures are swallowed, so
   * nothing here depends on delivery.
   */
  function Cycle(s: PollState, outcome: FetchOutcome): (r: CycleResult)
    ensures r.state.timestamp == TimestampAfter(s.timestamp, outcome)
    ensures TryBlock(outcome).Success? ==> r.state.previousError == s.previousError
    ensures TryBlock(outcome).Success? && TryBlock(outcome).value.Some? ==>
              r.message == Some(StatusMessage(TryBlock(outcome).value.value))
    ensures TryBlock(outcome).Success? && TryBlock(outcome).value.None? ==> r.message == None
    ensures TryBlock(outcome).Failure? ==> r.state.previousError == Some(TryBlock(outcome).error)
    ensures TryBlock(outcome).Failure? ==>
              (r.message == Some(FailureReport(TryBlock(outcome).error)) <==>
               s.previousError != Some(TryBlock(outcome).error))
    ensures TryBlock(outcome).Failure? ==>
              (r.message == None <==> s.previousError == Some(TryBlock(outcome).error))
  {
    var timestamp := TimestampAfter(s.timestamp, outcome);
    match TryBlock(outcome)
    case Success(text) =>
      CycleResult(PollState(timestamp, s.previousError), if text.Some? then Some(StatusMessage(text.value)) else None)
    case Failure(e) =>
      CycleResult(PollState(timestamp, Some(e)), if s.previousError != Some(e) then Some(FailureReport(e)) else None)
  }

  /** Only the first record of a valid batch matters: two batches with the same head send the same text. */
  lemma OnlyFirstHomeworkMatters(b1: Json, b2: Json)
    requires CheckResponse(b1).Success? && CheckResponse(b2).Success?
    requires |CheckResponse(b1).value| > 0 && |CheckResponse(b2).value| > 0
    requires CheckResponse(b1).value[0] == CheckResponse(b2).value[0]
    ensures TryBlock(Success(b1)) == TryBlock(Success(b2))
  {
  }

  // ------------------------------------------------------ many iterations

  /** The state and sent log after the iterations with the given fetch outcomes, in order. */
  datatype RunResult = RunResult(state: PollState, sent: seq<Outgoing>)

  function Run(s: PollState, outcomes: seq<FetchOutcome>): RunResult
    decreases |outcomes|
  {
    if outcomes == [] then RunResult(s, [])
    else
      var before := Run(s, outcomes[..|outcomes| - 1]);
      var c := Cycle(before.state, outcomes[|outcomes| - 1]);
      RunResult(c.state, before.sent + ToSeq(c.message))
  }

  /** The exception classes the iterations raise, in order; iterations that succeed contribute nothing. */
  function RaisedKinds(outcomes: seq<FetchOutcome>): seq<ErrKind>
    decreases |outcomes|
  {
    if outcomes == [] then []
    else
      var last := TryBlock(outcomes[|outcomes| - 1]);
      RaisedKinds(outcomes[..|outcomes| - 1]) + (if last.Failure? then [last.error] else [])
  }

  /** The last element of `ks`, or `prev` when `ks` is empty. */
  function LastOr(prev: Option<ErrKind>, ks: seq<ErrKind>): Option<ErrKind>
  {
    if ks == [] then prev else Some(ks[|ks| - 1])
  }

  /** `ks` with every element dropped that equals the one before it (the first is compared with `prev`). */
  function Dedup(prev: Option<ErrKind>, ks: seq<ErrKind>): seq<ErrKind>
    decreases |ks|
  {
    if ks == [] then []
    else
      var init := ks[..|ks| - 1];
      Dedup(prev, init) + (if LastOr(prev, init) != Some(ks[|ks| - 1]) then [ks[|ks| - 1]] else [])
  }

  /** The failure reports in a sent log, in order. */
  function Reports(sent: seq<Outgoing>): seq<ErrKind>
  {
    if sent == [] then []
    else (if sent[0].FailureReport? then [sent[0].error] else []) + Reports(sent[1..])
  }

  /** The status texts in a sent log, in order. */
  function Texts(sent: seq<Outgoing>): seq<string>
  {
    if sent == [] then []
    else (if sent[0].StatusMessage? then [sent[0].text] else []) + Texts(sent[1..])
  }

  /** The status texts the iterations produce, in order. */
  function SentTexts(outcomes: seq<FetchOutcome>): seq<string>
    decreases |outcomes|
  {
    if outcomes == [] then []
    else
      var last := TryBlock(outcomes[|outcomes| - 1]);
      SentTexts(outcomes[..|outcomes| - 1]) + (if last.Success? && last.value.Some? then [last.value.value] else [])
  }

  lemma {:induction false} ReportsAppend(a: seq<Outgoing>, b: seq<Outgoing>)
    ensures Reports(a + b) == Reports(a) + Reports(b)
    decreases |a|
  {
    if a != [] {
      assert (a + b)[0] == a[0] && (a + b)[1..] == a[1..] + b;
      ReportsAppend(a[1..], b);
    } else {
      assert a + b == b;
    }
  }

  lemma {:induction false} TextsAppend(a: seq<Outgoing>, b: seq<Outgoing>)
    ensures Texts(a + b) == Texts(a) + Texts(b)
    decreases |a|
  {
    if a != [] {
      assert (a + b)[0] == a[0] && (a + b)[1..] == a[1..] + b;
      TextsAppend(a[1..], b);
    } else {
      assert a + b == b;
    }
  }

  /** Running one more iteration extends the run by one Cycle. */
  lemma RunSnoc(s: PollState, init: seq<FetchOutcome>, o: FetchOutcome)
    ensures Run(s, init + [o]).state == Cycle(Run(s, init).state, o).state
    ensures Run(s, init + [o]).sent == Run(s, init).sent + ToSeq(Cycle(Run(s, init).state, o).message)
    ensures RaisedKinds(init + [o]) == RaisedKinds(init) + (if TryBlock(o).Failure? then [TryBlock(o).error] else [])
    ensures SentTexts(init + [o]) ==
              SentTexts(init) + (if TryBlock(o).Success? && TryBlock(o).value.Some? then [TryBlock(o).value.value] else [])
  {
  }

  /** Over any run, `previous_error` is the last exception raised, or its initial value if none was. */
  lemma {:induction false} RunPreviousError(s: PollState, outcomes: seq<FetchOutcome>)
    ensures Run(s, outcomes).state.previousError == LastOr(s.previousError, RaisedKinds(outcomes))
    decreases |outcomes|
  {
    if outcomes != [] {
      var init := outcomes[..|outcomes| - 1];
      assert outcomes == init + [outcomes[|outcomes| - 1]];
      RunPreviousError(s, init);
      RunSnoc(s, init, outcomes[|outcomes| - 1]);
    }
  }

  lemma DedupSnoc(prev: Option<ErrKind>, ks: seq<ErrKind>, k: ErrKind)
    ensures Dedup(prev, ks + [k]) == Dedup(prev, ks) + (if LastOr(prev, ks) != Some(k) then [k] else [])
  {
  }

  /** The reports one iteration adds to the log. */
  lemma CycleReports(st: PollState, o: FetchOutcome)
    ensures Reports(ToSeq(Cycle(st, o).message)) ==
              if TryBlock(o).Failure? && st.previousError != Some(TryBlock(o).error) then [TryBlock(o).error] else []
  {
  }

  /**
   * Over any run, the failure reports are exactly the raised exception
   * classes with consecutive repeats dropped; successful iterations in between
   * do not reset the comparison.
   */
  lemma {:induction false} RunReportsDedupedErrors(s: PollState, outcomes: seq<FetchOutcome>)
    ensures Reports(Run(s, outcomes).sent) == Dedup(s.previousError, RaisedKinds(outcomes))
    decreases |outcomes|
  {
    if outcomes != [] {
      var init := outcomes[..|outcomes| - 1];
      var last := outcomes[|outcomes| - 1];
      assert outcomes == init + [last];
      RunReportsDedupedErrors(s, init);
      RunPreviousError(s, init);
      RunSnoc(s, init, last);
      var before := Run(s, init);
      ReportsAppend(before.sent, ToSeq(Cycle(before.state, last).message));
      CycleReports(before.state, last);
      if TryBlock(last).Failure? {
        DedupSnoc(s.previousError, RaisedKinds(init), TryBlock(last).error);
      } else {
        assert RaisedKinds(outcomes) == RaisedKinds(init) + [] == RaisedKinds(init);
        assert Reports(Run(s, outcomes).sent) == Reports(before.sent) + [] == Reports(before.sent);
      }
    }
  }

  /** Dedup of two exception classes. */
  lemma DedupOfTwo(prev: Option<ErrKind>, k1: ErrKind, k2: ErrKind)
    ensures Dedup(prev, [k1, k2]) == (if prev != Some(k1) then [k1] else []) + (if k1 != k2 then [k2] else [])
  {
    DedupSnoc(prev, [], k1);
    DedupSnoc(prev, [k1], k2);
    assert [] + [k1] == [k1] && [k1] + [k2] == [k1, k2];
  }

  /** Over any run, the status texts sent are exactly those the iterations parsed, in order. */
  lemma {:induction false} RunSendsParsedTexts(s: PollState, outcomes: seq<FetchOutcome>)
    ensures Texts(Run(s, outcomes).sent) == SentTexts(outcomes)
    decreases |outcomes|
  {
    if outcomes != [] {
      var init := outcomes[..|outcomes| - 1];
      var last := outcomes[|outcomes| - 1];
      assert outcomes == init + [last];
      RunSendsParsedTexts(s, init);
      RunSnoc(s, init, last);
      var before := Run(s, init);
      TextsAppend(before.sent, ToSeq(Cycle(before.state, last).message));
    }
  }

  /** The exception classes raised by two iterations. */
  lemma RaisedKindsOfTwo(o1: FetchOutcome, o2: FetchOutcome)
    ensures RaisedKinds([o1, o2]) ==
              (if TryBlock(o1).Failure? then [TryBlock(o1).error] else [])
              + (if TryBlock(o2).Failure? then [TryBlock(o2).error] else [])
  {
    RunSnoc(PollState(JNull, None), [], o1);
    RunSnoc(PollState(JNull, None), [o1], o2);
    assert [] + [o1] == [o1] && [o1] + [o2] == [o1, o2];
  }

  /** The same exception class twice in a row is reported once (and not at all if it was already the previous one). */
  lemma RepeatedErrorReportedOnce(s: PollState, o1: FetchOutcome, o2: FetchOutcome, e: ErrKind)
    requires TryBlock(o1) == Failure(e) && TryBlock(o2) == Failure(e)
    ensures Reports(Run(s, [o1, o2]).sent) == if s.previousError == Some(e) then [] else [e]
  {
    RunReportsDedupedErrors(s, [o1, o2]);
    RaisedKindsOfTwo(o1, o2);
    DedupOfTwo(s.previousError, e, e);
  }

  /** Two different exception classes in a row are both reported. */
  lemma DistinctErrorsBothReported(s: PollState, o1: FetchOutcome, o2: FetchOutcome, e1: ErrKind, e2: ErrKind)
    requires TryBlock(o1) == Failure(e1) && TryBlock(o2) == Failure(e2)
    requires e1 != e2 && s.previousError != Some(e1)
    ensures Reports(Run(s, [o1, o2]).sent) == [e1, e2]
  {
    RunReportsDedupedErrors(s, [o1, o2]);
    RaisedKindsOfTwo(o1, o2);
    DedupOfTwo(s.previousError, e1, e2);
  }

  /**
   * `previous_error` is never cleared: an exception, a successful iteration,
   * then the same exception class again gives a single report.
   */
  lemma SuccessDoesNotResetSuppression(s: PollState, o1: FetchOutcome, o2: FetchOutcome, o3: FetchOutcome, e: ErrKind)
    requires TryBlock(o1) == Failure(e) && TryBlock(o2).Success? && TryBlock(o3) == Failure(e)
    requires s.previousError != Some(e)
    ensures Reports(Run(s, [o1, o2, o3]).sent) == [e]
  {
    RunReportsDedupedErrors(s, [o1, o2, o3]);
    RaisedKindsOfTwo(o1, o2);
    RunSnoc(s, [o1, o2], o3);
    assert [o1, o2] + [o3] == [o1, o2, o3];
    assert RaisedKinds([o1, o2, o3]) == [e, e];
    DedupOfTwo(s.previousError, e, e);
  }

  /**
   * As written, get_api_answer turns a failed request into KeyError, the class
   * check_response raises for a missing `homeworks` key: after a failed
   * request, a reply without that key goes unreported. With the intended
   * ConnectionError both are reported.
   */
  lemma TransportFailureMasksMissingKey(s: PollState, t: Transport, body: map<string, Json>)
    requires t.RequestFailed? || t.statusCode != HttpOk
    requires "homeworks" !in body && s.previousError.None?
    ensures Reports(Run(s, [ApiAnswer(t, RequestErrorCall), Success(JObject(body))]).sent) == [KeyError]
    ensures Reports(Run(s, [ApiAnswer(t, RequestErrorCallIntended), Success(JObject(body))]).sent)
            == [ConnectionError, KeyError]
  {
    RequestFailureAsWrittenRaisesKeyError(t);
    ApiAnswerIntendedRaisesConnectionError(t);
    RepeatedErrorReportedOnce(s, ApiAnswer(t, RequestErrorCall), Success(JObject(body)), KeyError);
    DistinctErrorsBothReported(s, ApiAnswer(t, RequestErrorCallIntended), Success(JObject(body)),
                               ConnectionError, KeyError);
  }

  /**
   * The timestamp follows the reply, not the notification: a reply with an
   * empty batch and no `current_date` sends nothing and resets the timestamp
   * to None, whatever it was.
   */
  lemma EmptyBatchWithoutDateClearsTimestamp(s: PollState)
    ensures Cycle(s, Success(JObject(map["homeworks" := JList([])]))) == CycleResult(PollState(JNull, s.previousError), None)
  {
  }

  /**
   * No reply envelope is recognised: an error reply such as `{"code": ...}`
   * clears the timestamp and is reported as the KeyError of a missing
   * `homeworks` key, unless KeyError is already the previous error.
   */
  lemma ErrorEnvelopeReportedAsMissingKey(s: PollState, code: Json)
    ensures Cycle(s, Success(JObject(map["code" := code])))
            == CycleResult(PollState(JNull, Some(KeyError)),
                           if s.previousError == Some(KeyError) then None else Some(FailureReport(KeyError)))
  {
  }

  /** The approved-record scenario: one text is sent and the timestamp becomes 1000. */
  lemma ApprovedReplyScenario(s: PollState)
    ensures var record := JObject(map["homework_name" := JStr("proj1"), "status" := JStr("approved")]);
            var reply := JObject(map["homeworks" := JList([record]), "current_date" := JInt(1000)]);
            Cycle(s, Success(reply)) == CycleResult(PollState(JInt(1000), s.previousError),
              Some(StatusMessage("Изменился статус проверки работы \"proj1\". " + "Работа проверена: ревьюеру всё понравилось. Ура!")))
  {
    ApprovedScenario();
  }

  // ------------------------------------------------------------ the loop

  /** The running bot: the loop variables of main and the log of messages handed to send_message. */
  class Poller {
    var timestamp: Json
    var previousError: Option<ErrKind>
    var sent: seq<Outgoing>

    function State(): PollState
      reads this
    {
      PollState(timestamp, previousError)
    }

    /** `timestamp = int(time.time())` and `previous_error = None`, with the clock reading passed in. */
    constructor (now: int)
      ensures State() == PollState(JInt(now), None) && sent == []
    {
      timestamp := JInt(now);
      previousError := None;
      sent := [];
    }

    /** send_message: delivery failures are logged and swallowed, so the message always counts as handed over. */
    method Send(message: Outgoing)
      modifies this`sent
      ensures sent == old(sent) + [message]
    {
      sent := sent + [message];
    }

    /** The `except` block: report unless the previous exception is of the same class, then remember this one. */
    method Report(error: ErrKind)
      modifies this
      ensures timestamp == old(timestamp) && previousError == Some(error)
      ensures sent == old(sent) + if old(previousError) != Some(error) then [FailureReport(error)] else []
    {
      if previousError != Some(error) {
        Send(FailureReport(error));
      }
      previousError := Some(error);
    }

    /** One iteration of the `while True` loop, given what get_api_answer produced. */
    method Step(outcome: FetchOutcome)
      modifies this
      ensures State() == Cycle(old(State()), outcome).state
      ensures sent == old(sent) + ToSeq(Cycle(old(State()), outcome).message)
    {
      match outcome {
        case Failure(e) =>
          Report(e);
        case Success(request) =>
          if !request.JObject? {
            Report(AttributeError);
            return;
          }
          timestamp := Get(request.fields, "current_date");
          var homeworks := CheckResponse(request);
          if homeworks.Failure? {
            Report(homeworks.error);
            return;
          }
          if |homeworks.value| > 0 {
            var verdict := ParseStatus(homeworks.value[0]);
            if verdict.Failure? {
              Report(verdict.error);
              return;
            }
            Send(StatusMessage(verdict.value));
          }
      }
    }

    /** The first `|outcomes|` iterations of the loop. */
    method Poll(outcomes: seq<FetchOutcome>)
      modifies this
      ensures State() == Run(old(State()), outcomes).state
      ensures sent == old(sent) + Run(old(State()), outcomes).sent
    {
      ghost var start := State();
      ghost var log := sent;
      for i := 0 to |outcomes|
        invariant State() == Run(start, outcomes[..i]).state
        invariant sent == log + Run(start, outcomes[..i]).sent
      {
        assert outcomes[..i + 1][..i] == outcomes[..i];
        Step(outcomes[i]);
      }
      assert outcomes[..|outcomes|] == outcomes;
    }
  }
}

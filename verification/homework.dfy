/**
 * The validators of the bot: the credential check run before polling starts,
 * the error mapping of the API request, the response-shape check and the
 * status parser that turns one homework record into a notification text.
 */
module Homework {
  import opened Wrappers
  import opened PyValues
  import opened PyFormat
  import opened Settings

  // ---------------------------------------------------------------- tokens

  /** Python truthiness of an environment lookup: `None` and `""` are false. */
  predicate Truthy(value: Option<string>)
  {
    value.Some? && value.value != ""
  }

  /** How the critical log line formats ABSENCE_ENVIRONMENT_VARIABLES: with the token name as a positional argument. */
  const AbsenceLogCall: FormatCall := FormatCall(1, {})

  /** The call the template's named field asks for: the token name passed as `missing_token`. */
  const AbsenceLogCallIntended: FormatCall := FormatCall(0, {"missing_token"})

  /**
   * check_tokens: walks the three credentials in order and, at the first one
   * that is not truthy, logs it and raises. `logCall` is how the log message
   * is formatted; the message is built before the raise, so a formatting
   * error escapes in place of InvalidTokens. It never returns False.
   */
  method CheckTokens(practicumToken: Option<string>, telegramToken: Option<string>,
                     telegramChatId: Option<string>, logCall: FormatCall)
    returns (r: Result<bool, ErrKind>)
    ensures r.Success? <==> Truthy(practicumToken) && Truthy(telegramToken) && Truthy(telegramChatId)
    ensures r.Success? ==> r.value
    ensures r.Failure? ==> r.error == Raising(AbsenceEnvironmentVariables, logCall, InvalidTokens)
  {
    var tokens := [
      ("PRACTICUM_TOKEN", practicumToken),
      ("TELEGRAM_TOKEN", telegramToken),
      ("TELEGRAM_CHAT_ID", telegramChatId)
    ];
    for i := 0 to |tokens|
      invariant forall j :: 0 <= j < i ==> Truthy(tokens[j].1)
    {
      if !Truthy(tokens[i].1) {
        return Failure(Raising(AbsenceEnvironmentVariables, logCall, InvalidTokens));
      }
    }
    assert Truthy(tokens[0].1) && Truthy(tokens[1].1) && Truthy(tokens[2].1);
    return Success(true);
  }

  /** As written, a missing credential makes check_tokens raise KeyError, not InvalidTokens. */
  lemma AbsenceLogAsWrittenRaisesKeyError()
    ensures Raising(AbsenceEnvironmentVariables, AbsenceLogCall, InvalidTokens) == KeyError
  {
  }

  /** With the keyword call, a missing credential raises InvalidTokens. */
  lemma AbsenceLogIntendedRaisesInvalidTokens()
    ensures Raising(AbsenceEnvironmentVariables, AbsenceLogCallIntended, InvalidTokens) == InvalidTokens
  {
  }

  /** How main begins: the process raises, exits, or enters the polling loop. */
  datatype Startup = Raised(error: ErrKind) | Exited | Polling

  /**
   * The guard at the top of main: `if not check_tokens(): sys.exit(...)`.
   * Because check_tokens raises instead of returning False, the exit branch
   * is dead: main either raises out or starts polling. What it raises is
   * what check_tokens raises for the log call `logCall`; with the call as
   * written (AbsenceLogCall) that is KeyError.
   */
  method Start(practicumToken: Option<string>, telegramToken: Option<string>,
               telegramChatId: Option<string>, logCall: FormatCall)
    returns (r: Startup)
    ensures r != Exited
    ensures r == Polling <==> Truthy(practicumToken) && Truthy(telegramToken) && Truthy(telegramChatId)
    ensures r.Raised? ==> r.error == Raising(AbsenceEnvironmentVariables, logCall, InvalidTokens)
    ensures r.Raised? && logCall == AbsenceLogCall ==> r.error == KeyError
  {
    var ok := CheckTokens(practicumToken, telegramToken, telegramChatId, logCall);
    AbsenceLogAsWrittenRaisesKeyError();
    if ok.Failure? {
      return Raised(ok.error);
    }
    if !ok.value {
      return Exited;
    }
    return Polling;
  }

  // ---------------------------------------------------------- API request

  /**
   * What the HTTP layer delivered: the request itself failed, or a reply came
   * back with a status code and a body that decoded to JSON (`Some`) or not (`None`).
   */
  datatype Transport = RequestFailed | Reply(statusCode: int, body: Option<Json>)

  /** `HTTPStatus.OK` from Python's `http` module. */
  const HttpOk: int := 200

  /** How get_api_answer formats REQUEST_ERROR_MESSAGE: keywords `exception`, `url`, `headers`, `params`. */
  const RequestErrorCall: FormatCall := FormatCall(0, {"exception", "url", "headers", "params"})

  /** The call the template's fields ask for: `error` in place of `exception`. */
  const RequestErrorCallIntended: FormatCall := FormatCall(0, {"error", "url", "headers", "params"})

  /** How get_api_answer formats FAILED_DECODE_IN_JSON: two positional arguments. */
  const FailedDecodeCall: FormatCall := FormatCall(2, {})

  /**
   * get_api_answer past the network call: a failed request or a non-OK
   * status is re-raised as ConnectionError, a body that does not decode is
   * re-raised as ConnectionError, and a decoded body is returned unchanged.
   * Each re-raise builds its message first, with `requestErrorCall` for the
   * first kind.
   */
  function ApiAnswer(t: Transport, requestErrorCall: FormatCall): (r: Result<Json, ErrKind>)
    ensures r.Success? <==> t.Reply? && t.statusCode == HttpOk && t.body.Some?
    ensures r.Success? ==> r.value == t.body.value
    ensures t.Reply? && t.statusCode == HttpOk && t.body.None? ==> r == Failure(ConnectionError)
    ensures (t.RequestFailed? || t.statusCode != HttpOk) ==>
              r == Failure(Raising(RequestErrorMessage, requestErrorCall, ConnectionError))
  {
    if t.RequestFailed? || t.statusCode != HttpOk then
      Failure(Raising(RequestErrorMessage, requestErrorCall, ConnectionError))
    else if t.body.None? then
      Failure(Raising(FailedDecodeInJson, FailedDecodeCall, ConnectionError))
    else
      Success(t.body.value)
  }

  /** As written, a failed request surfaces as KeyError (the template's `error` field has no keyword). */
  lemma RequestFailureAsWrittenRaisesKeyError(t: Transport)
    requires t.RequestFailed? || t.statusCode != HttpOk
    ensures ApiAnswer(t, RequestErrorCall) == Failure(KeyError)
  {
  }

  /** With the intended call, every failure of get_api_answer is a ConnectionError. */
  lemma ApiAnswerIntendedRaisesConnectionError(t: Transport)
    ensures ApiAnswer(t, RequestErrorCallIntended).Failure? ==>
              ApiAnswer(t, RequestErrorCallIntended).error == ConnectionError
  {
  }

  // -------------------------------------------------------- response shape

  /**
   * check_response: the body must be a dict (else TypeError), hold the key
   * `homeworks` (else KeyError) whose value is a list (else TypeError); the
   * list is returned as it is.
   */
  function CheckResponse(response: Json): (r: Result<seq<Json>, ErrKind>)
    ensures r.Success? <==>
              response.JObject? && "homeworks" in response.fields && response.fields["homeworks"].JList?
    ensures r.Success? ==> r.value == response.fields["homeworks"].items
    ensures !response.JObject? ==> r == Failure(TypeError)
    ensures response.JObject? && "homeworks" !in response.fields ==> r == Failure(KeyError)
    ensures response.JObject? && "homeworks" in response.fields && !response.fields["homeworks"].JList? ==>
              r == Failure(TypeError)
  {
    if !response.JObject? then Failure(TypeError)
    else if "homeworks" !in response.fields then Failure(KeyError)
    else
      var homeworks := Get(response.fields, "homeworks");
      if !homeworks.JList? then Failure(TypeError)
      else Success(homeworks.items)
  }

  // --------------------------------------------------------- status parser

  /** The keys parse_status requires, in the order it checks them. */
  const HomeworkKeys: seq<string> := ["homework_name", "status"]

  /**
   * The key loop of parse_status: the first key that `key in homework`
   * reports absent raises KeyError; if the membership test itself raises,
   * that exception escapes.
   */
  function CheckKeys(homework: Json, keys: seq<string>): (r: Option<ErrKind>)
    ensures r == None <==> forall i :: 0 <= i < |keys| ==> In(keys[i], homework) == Success(true)
    ensures r.Some? ==> r.value == KeyError || r.value == TypeError
    ensures r == Some(TypeError) <==> keys != [] && (homework.JNull? || homework.JBool? || homework.JInt?)
  {
    if keys == [] then None
    else match In(keys[0], homework)
      case Failure(e) => Some(e)
      case Success(present) =>
        if !present then Some(KeyError)
        else
          var rest := CheckKeys(homework, keys[1..]);
          assert forall i :: 1 <= i < |keys| ==> keys[i] == keys[1..][i - 1];
          rest
  }

  /** The key loop over HomeworkKeys, unrolled: `homework_name` is tested before `status`. */
  lemma CheckHomeworkKeys(homework: Json)
    ensures CheckKeys(homework, HomeworkKeys) ==
              match In("homework_name", homework)
              case Failure(e) => Some(e)
              case Success(false) => Some(KeyError)
              case Success(true) =>
                match In("status", homework)
                case Failure(e) => Some(e)
                case Success(false) => Some(KeyError)
                case Success(true) => None
  {
  }

  /** A status the verdict table knows. */
  predicate KnownStatus(status: Json)
  {
    status.JStr? && status.s in HomeworkVerdicts
  }

  /**
   * parse_status on one homework record. Only a dict with both keys and a
   * known status yields a text: WORK_STATUS_CHANGED filled with the name and
   * that status's verdict. The `is None` check never fires, since None is not
   * a key of the verdict table.
   */
  function ParseStatus(homework: Json): (r: Result<string, ErrKind>)
    ensures r.Success? <==>
              homework.JObject? && "homework_name" in homework.fields && "status" in homework.fields
              && KnownStatus(homework.fields["status"])
    ensures r.Success? ==>
              r.value == WorkStatusChanged(Str(homework.fields["homework_name"]),
                                           HomeworkVerdicts[homework.fields["status"].s])
    ensures homework.JObject? && "homework_name" !in homework.fields ==> r == Failure(KeyError)
    ensures homework.JObject? && "homework_name" in homework.fields && "status" !in homework.fields ==>
              r == Failure(KeyError)
    ensures homework.JObject? && "homework_name" in homework.fields && "status" in homework.fields
            && !KnownStatus(homework.fields["status"]) ==>
              r == Failure(if Hashable(homework.fields["status"]) then KeyError else TypeError)
    ensures homework.JNull? || homework.JBool? || homework.JInt? ==> r == Failure(TypeError)
    ensures homework.JList? ==>
              r == Failure(if JStr("homework_name") in homework.items && JStr("status") in homework.items
                           then AttributeError else KeyError)
    ensures homework.JStr? ==>
              r == Failure(if Occurs("homework_name", homework.s) && Occurs("status", homework.s)
                           then AttributeError else KeyError)
    ensures r != Failure(InvalidJSONError)
  {
    CheckHomeworkKeys(homework);
    match CheckKeys(homework, HomeworkKeys)
    case Some(e) => Failure(e)
    case None =>
      assert In(HomeworkKeys[0], homework) == Success(true);
      assert In(HomeworkKeys[1], homework) == Success(true);
      if !homework.JObject? then
        // `homework.get` on a list or a string
        Failure(AttributeError)
      else
        var name := Get(homework.fields, "homework_name");
        var status := Get(homework.fields, "status");
        if !Hashable(status) then Failure(TypeError)
        else if !KnownStatus(status) then Failure(KeyError)
        else if status.JNull? then Failure(InvalidJSONError)
        else Success(WorkStatusChanged(Str(name), HomeworkVerdicts[status.s]))
  }

  /** Distinct known statuses give distinct texts for the same homework name. */
  lemma TextDeterminesStatus(h1: Json, h2: Json)
    requires ParseStatus(h1).Success? && ParseStatus(h2).Success?
    requires h1.fields["homework_name"] == h2.fields["homework_name"]
    requires ParseStatus(h1).value == ParseStatus(h2).value
    ensures h1.fields["status"] == h2.fields["status"]
  {
  }

  /** The approved-record scenario: the exact text sent for `proj1`. */
  lemma ApprovedScenario()
    ensures ParseStatus(JObject(map["homework_name" := JStr("proj1"), "status" := JStr("approved")]))
            == Success("Изменился статус проверки работы \"proj1\". " + "Работа проверена: ревьюеру всё понравилось. Ура!")
  {
    var h := JObject(map["homework_name" := JStr("proj1"), "status" := JStr("approved")]);
    assert KnownStatus(h.fields["status"]);
    assert "Изменился статус проверки работы \"" + "proj1" + "\". " == "Изменился статус проверки работы \"proj1\". ";
  }
}

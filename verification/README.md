# homework_bot — a Dafny model of the polling bot's response handling

The bot polls a homework-review API and relays verdict changes to a Telegram
chat. This project models the part of `homework.py` that makes decisions:

- `check_tokens` and the start-up guard of `main`;
- the error mapping of `get_api_answer` once the HTTP layer has answered;
- `check_response`, the shape check of the decoded reply;
- `parse_status`, which turns one homework record into the notification text;
- one iteration of the `while True` loop in `main`, a state machine over
  `timestamp` and `previous_error` that sends zero or one message, and a
  finite run of iterations.

Modules: `Wrappers` (Option, Result), `PyValues` (decoded JSON, the exception
classes, Python's `in`, `dict.get`, hashing and `str`), `PyFormat` (when
`str.format` raises), `Settings` (the verdict table and templates of
`settings.py`), `Homework` (the validators) and `PollLoop` (the loop, with the
class `Poller` holding the loop variables and the log of sent messages).

The model follows the code where it departs from the intended design:

- `timestamp` is taken from the reply's `current_date` right after a
  successful fetch, before validation, whether or not a homework is present
  and whether or not sending works; a reply without `current_date` sets it to
  `None`, so it can go backwards or become `None`.
- `send_message` swallows every failure, so the loop cannot see delivery; the
  model appends every message to the sent log.
- duplicate suppression compares exception classes (`isinstance`), not
  messages, and `previous_error` is never cleared by a successful iteration.
- a reply that is not a dict fails at `request.get` with AttributeError, so
  `check_response`'s own non-dict TypeError is never reached from `main`.
- only the first homework of a batch is parsed.
- no error envelope (`code`/`error` keys) is recognised: such a reply sets the
  timestamp to `None` and is reported as `check_response`'s KeyError for a
  missing `homeworks` key.

The loop's `timestamp` is a JSON value, not an integer: it starts as the clock
reading and afterwards holds whatever `current_date` was (JSON null when the
key is absent). Error texts are not modelled: `homework.py:10-18` imports
names that `settings.py` spells differently (`TYPEERROR` against
`TYPE_ERROR`, `ABSENCE_HW_KEY` against `ABSENCE_HOMEWORK_KEY`, …), and the
model takes each such name to be the similarly named constant. As written, the
`from settings import (...)` at `homework.py:10-18` therefore raises
ImportError (five names are undefined: `ABSENCE_HW_KEY`, `ABSENCE_HWORKS_KEY`,
`NEW_CHECK_HW`, `TYPEERROR`, `UNKNOW_HW_STATUS`) and the unmodified module
never reaches `main`; everything below, the findings included, describes the
program once those names resolve. A sent failure
report carries only the exception class.

## Model

| member | source | states |
|---|---|---|
| `Homework.CheckTokens` | homework.py:21-35 | succeeds exactly when all three credentials are non-empty strings, then returns True and never False; otherwise raises the exception the log-then-raise sequence produces |
| `Homework.AbsenceLogAsWrittenRaisesKeyError` | homework.py:30-33 | as written, a missing credential raises KeyError: the positional call cannot fill the template's named field |
| `Homework.AbsenceLogIntendedRaisesInvalidTokens` | settings.py:14-17 | with the keyword the template names, a missing credential raises InvalidTokens |
| `Homework.Start` | homework.py:109-110 | the `sys.exit` branch is dead: start-up either raises what check_tokens raises or enters the loop, and enters it exactly when all three credentials are non-empty strings; with the log call as written the exception escaping `main` is KeyError |
| `Homework.ApiAnswer` | homework.py:54-69 | returns the decoded body unchanged exactly for an OK reply that decodes; a failed request or non-OK status raises what building REQUEST_ERROR_MESSAGE raises, else ConnectionError; an undecodable body raises ConnectionError |
| `Homework.RequestFailureAsWrittenRaisesKeyError` | homework.py:59-63 | as written, a failed request or non-OK status surfaces as KeyError |
| `Homework.ApiAnswerIntendedRaisesConnectionError` | settings.py:27-33 | with the `error` keyword the template names, every failure of the request is a ConnectionError |
| `Homework.CheckResponse` | homework.py:72-82 | succeeds exactly for a dict whose `homeworks` value is a list and returns that list unchanged; TypeError for a non-dict, KeyError for a missing key, TypeError for a non-list value |
| `Homework.CheckKeys` | homework.py:87-93 | raises nothing exactly when every key tests present in the record; otherwise TypeError exactly when the record is not iterable (None, a boolean or a number) and KeyError for an absent key |
| `Homework.ParseStatus` | homework.py:85-101 | yields a text exactly for a dict with both keys and a status in the verdict table, and then exactly the status template filled with the name and that status's verdict; KeyError for a missing `homework_name` (checked first), a missing `status`, or an unknown hashable status; TypeError for an unhashable status or a non-iterable record; AttributeError for a list or string holding both keys and KeyError for one lacking either; never the unreachable InvalidJSONError |
| `Homework.TextDeterminesStatus` | settings.py:22-26 | for one homework name, equal texts mean equal statuses: the verdict table's three texts are told apart |
| `Homework.ApprovedScenario` | settings.py:34 | the record `proj1`/`approved` yields `Изменился статус проверки работы "proj1". Работа проверена: ревьюеру всё понравилось. Ура!` |
| `PyValues.In` | homework.py:92 | Python's `key in value`: key membership for a dict, element membership for a list, "occurs at some index" for a string, TypeError for None, booleans and numbers |
| `PyValues.OccursIffAt` | homework.py:92 | the substring test used for a string record agrees with "occurs at some index" |
| `PyFormat.FormatFailureFrom` | homework.py:30-33 | formatting a template raises only KeyError or IndexError |
| `PyFormat.FormatSucceedsIff` | homework.py:60-63 | formatting raises nothing exactly when every named field has its keyword and the automatic fields fit the positional arguments |
| `PyFormat.MissingKeywordRaisesKeyError` | settings.py:27-33 | a template of named fields with one keyword missing raises KeyError |
| `PyFormat.Raising` | homework.py:67-68 | `raise E(template.format(...))` raises E when the call fits the template and KeyError or IndexError otherwise |
| `PollLoop.TimestampAfter` | homework.py:116-117 | after a fetched dict the timestamp is its `current_date` (None when absent), whatever follows; after a failed fetch or a non-dict body it is unchanged |
| `PollLoop.TryBlock` | homework.py:115-121 | a failed fetch re-raises its exception; a non-dict body raises AttributeError; a shape error is raised as is; an empty list ends with nothing to send; otherwise exactly the first record's text is sent, or the exception its parse raises is raised |
| `PollLoop.Cycle` | homework.py:114-129 | one iteration: the timestamp as above; on success the text (if any) is sent and `previous_error` is kept; on an exception a report is sent exactly when `previous_error` is not of that class, and `previous_error` becomes it either way |
| `PollLoop.OnlyFirstHomeworkMatters` | homework.py:119-120 | two valid non-empty batches with the same first record make the try block end the same way (the same text sent, or the same exception raised); the timestamps still follow each reply's `current_date` |
| `PollLoop.RunPreviousError` | homework.py:127 | after any run, `previous_error` is the last exception class raised, or its initial value |
| `PollLoop.RunReportsDedupedErrors` | homework.py:122-127 | over any run, the reports sent are the raised exception classes with consecutive repeats dropped, successes in between ignored |
| `PollLoop.RunSendsParsedTexts` | homework.py:118-121 | over any run, the status texts sent are those the iterations parsed, in order |
| `PollLoop.RepeatedErrorReportedOnce` | homework.py:124-125 | the same exception class twice in a row gives at most one report |
| `PollLoop.DistinctErrorsBothReported` | homework.py:124-125 | two different exception classes in a row give two reports when the first is not already the class of `previous_error` |
| `PollLoop.SuccessDoesNotResetSuppression` | homework.py:118-127 | error, success, same error: one report when that class is not already the class of `previous_error` |
| `PollLoop.TransportFailureMasksMissingKey` | homework.py:59-63 | from the loop's initial state (no previous error), as written, a failed request followed by a reply without `homeworks` gives one report; with the intended ConnectionError, two |
| `PollLoop.EmptyBatchWithoutDateClearsTimestamp` | homework.py:117-119 | a reply with an empty list and no `current_date` sends nothing, keeps `previous_error` and sets the timestamp to None |
| `PollLoop.ErrorEnvelopeReportedAsMissingKey` | homework.py:115-127 | a reply `{"code": …}` sets the timestamp to None, makes KeyError the previous error, and is reported unless KeyError already was |
| `PollLoop.ApprovedReplyScenario` | homework.py:116-121 | the approved `proj1` reply dated 1000 sends exactly the verdict text and moves the timestamp to 1000 |
| `PollLoop.Poller.constructor` | homework.py:112-113 | the loop starts with the clock reading as timestamp, no previous error and nothing sent |
| `PollLoop.Poller.Send` | homework.py:38-44 | a send always appends its message to the log; delivery failures are swallowed |
| `PollLoop.Poller.Report` | homework.py:122-127 | reports unless the previous exception is of the same class, then remembers the new one; the timestamp is untouched |
| `PollLoop.Poller.Step` | homework.py:115-127 | the new loop variables and the appended messages are those of `Cycle` on the old state |
| `PollLoop.Poller.Poll` | homework.py:114-129 | a finite run of the loop ends in the state and log of `Run` |

## Left out

- The network: building the request (`ENDPOINT`, `HEADERS`, `from_date`) and `requests.get` itself; the model takes what the HTTP layer delivered (`Transport`) or what `get_api_answer` produced (`FetchOutcome`) as an input.
- The Telegram bot object and its `send_message` call: delivery is outside the model, and the log records every message handed over.
- `time.time()` and `time.sleep(RETRY_PERIOD)`: the clock reading is a constructor parameter and sleeping has no effect on the state.
- Logging configuration and every `logging.*` call, except that building a log message can raise (the credential check).
- Loading the credentials with `dotenv`/`os.getenv`: the three values are passed in as optional strings.
- The texts of exception messages and failure reports, which rely on imported names that `settings.py` does not define; a failure report keeps only the exception class.
- Python's exception class hierarchy: the classes raised on these paths are unrelated, so `isinstance` is modelled as equality of classes.
- `exceptions.py` beyond `InvalidTokens`: its other classes are never raised.
- JSON numbers with a fraction and JSON objects with repeated keys: the decoded values are integers, and an object is a map from keys to values.
- `Homework.ParseStatus`: a `homework_name` that is not a string is rendered by `PyValues.Str`, which matches `str()` for None, booleans and integers but renders lists and dicts by the placeholders `[...]` and `{...}` instead of Python's element-by-element text.
- `PollLoop.Poller.Poll`: runs finitely many iterations; the never-ending `while True` is the limit of these runs.

## Findings

| source | as written | input that shows it | evidently intended | confidence | as-written member | corrected member |
|---|---|---|---|---|---|---|
| homework.py:30-33 | `ABSENCE_ENVIRONMENT_VARIABLES.format(token)` passes the token name positionally, but the template's field is `{missing_token}`, so building the log message raises KeyError before InvalidTokens is raised | `PRACTICUM_TOKEN` unset | log the missing name and raise InvalidTokens | high, not executed | `Homework.AbsenceLogAsWrittenRaisesKeyError` | `Homework.AbsenceLogIntendedRaisesInvalidTokens` |
| homework.py:59-63 | `REQUEST_ERROR_MESSAGE.format(exception=error, ...)` passes `exception`, but the template's field is `{error}`, so a failed request raises KeyError instead of ConnectionError; the loop then treats it as the same class as a missing `homeworks` key and suppresses that report | `requests.get` raising, then a reply `{}` | raise ConnectionError with the filled message | high, not executed | `Homework.RequestFailureAsWrittenRaisesKeyError` | `Homework.ApiAnswerIntendedRaisesConnectionError` |

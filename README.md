# Homework-status bot: validation pipeline and one poll cycle

This project models the core of a small Telegram bot. The bot polls a
homework-review API and reports status changes to a chat. The model covers:

- the verdict vocabulary (`HOMEWORK_VERDICTS`);
- the credential check (`check_tokens`);
- how the API's HTTP answer is classified (`get_api_answer`, after the request);
- the shape check of the decoded body (`check_response`);
- the formatting of one homework record (`parse_status`);
- one pass of the body of `main`'s polling loop.

The modules are:

- `Decimal`: Python's `str()` of an integer, with its read-back.
- `Json`: the decoded JSON value, `dict.get`, `type(v).__name__` and the f-string text of a value.
- `Errors`: one error-kind datatype for the exceptions raised, and the text `str(error)` gives for each.
- `Homework`: the pure pipeline, written as functions that return `Result`/`Outcome`.
- `Poller`: the spec of one cycle (`CycleMessages`), and the class `Poller`.
  - Its fields are the cursor `timestamp`, the bot's `outbox` and the `from_date` of each request (`queries`).
  - Its `Cycle` method appends to the outbox, with a loop over the records.

A fuller design of such a bot would deduplicate messages and advance its
cursor. This code does neither, and the model follows the code:

- No message is deduplicated. Every cycle sends its messages whatever was sent before.
- The cursor is set once at start-up and never advanced.
- An empty homework list raises the "no update" error (`HomeworkNotFound`). It is not a valid result.
- A missing `homeworks` key gives the same type error as a non-list value. There is no separate missing-field error.
- Credentials are only checked for `None`, so an empty string passes.
- `HomeworkNotFound` is imported from `exceptions.py` but not defined there. It is modelled as the error kind `NoUpdate`, as its use intends.

## Model

| member | source | states |
|---|---|---|
| `Decimal.NatToString` | homework.py:70 | the decimal text of a status code is non-empty, all digits, with no leading zero |
| `Decimal.IntToString` | homework.py:70 | `str(n)` of the status code: a minus sign for a negative n, then `NatToString(-n)`; its read-back is `IntToStringRoundTrip` |
| `Decimal.NatToStringRoundTrip` | homework.py:70 | reading the digits back gives the number |
| `Decimal.IntToStringRoundTrip` | homework.py:70 | reading the text of any integer back gives that integer |
| `Decimal.IntToStringInjective` | homework.py:70 | distinct status codes give distinct texts |
| `Json.Get` | homework.py:82 | `dict.get` returns a value stored under the key, and None (JNull) when the key is absent |
| `Json.GetOfDistinctKeys` | homework.py:82 | on an object with distinct keys, as a decoded dict has, `get` of a stored key is the one value stored under it |
| `Json.TypeName` | homework.py:93 | `type(v).__name__` of the decoded value: NoneType, bool, int, str, list or dict |
| `Json.Repr` | homework.py:107 | the `repr` of a decoded value, with nested strings in single quotes |
| `Json.Str` | homework.py:107 | the text an f-string inserts for a value: a string as it is, anything else as its `repr` |
| `Errors.ErrorText` | homework.py:49-105 | `str(error)` for each raised error: the texts raised at lines 49-51, 70-73, 81, 85, 87, 102 and 105 (a KeyError printing its argument's repr), and Python's own AttributeError and unhashable-type TypeError texts |
| `Errors.ApiErrTextNamesCode` | homework.py:68-73 | the API error text is `Ошибка API вернул код ` followed by the code, and the code can be read back from it |
| `Homework.VerdictKeysAreTheKeys` | homework.py:31-35 | the verdict vocabulary has exactly the keys approved, reviewing and rejected |
| `Homework.FirstMissing` | homework.py:40-45 | the walk over named values stops at the first missing one: every earlier value is present, and the one it stops at is missing |
| `Homework.CheckTokens` | homework.py:38-51 | passes iff none of the three values is None; otherwise fails naming the first missing one, in the order practicum token, telegram token, chat id |
| `Homework.GetApiAnswer` | homework.py:63-74 | a 200 answer yields its body; any other code is an API error carrying the code; a failed request is an error with its text |
| `Homework.CheckResponse` | homework.py:77-88 | a non-object, or an object whose homeworks is missing, null or not a list, is the type error; an empty list is "no update"; an object whose homeworks is a non-empty list returns exactly that list, and every success is such a list; no other error kind occurs |
| `Homework.CheckResponseOfBuiltBody` | homework.py:82-88 | a dict body `{"homeworks": hs, ...}` (keys distinct) returns hs unchanged, elements and order included, when hs is non-empty, and is "no update" when hs is empty |
| `Homework.CheckResponseMissingKey` | homework.py:82-85 | a missing homeworks key is the type error, not an error of its own |
| `Homework.StatusMessage` | homework.py:107 | the notification text: the fixed prefix, the name, `". ` and the verdict; `UnformatStatusMessage` inverts it |
| `Homework.ParseStatus` | homework.py:91-107 | a non-dict record has no `.get`; a missing or null homework_name is a key error naming it, checked before status; then a missing status is a key error naming status; success iff status is one of the verdict keys, and the text is the fixed prefix, the name, `". ` and the verdict; the error for a list or dict status is stated by `ParseStatusUnhashable` |
| `Homework.ParseStatusValueErr` | homework.py:103-105 | with both fields present, the value error comes exactly when status is a hashable value that is not approved, reviewing or rejected |
| `Homework.ParseStatusUnhashable` | homework.py:103 | with the name present, a list or dict status fails with Python's unhashable-type error naming the status's type (`list` or `dict`) |
| `Homework.ParseStatusReadsTwoFields` | homework.py:93-94 | the result depends only on the record's homework_name and status |
| `Homework.ParseStatusApprovedExample` | homework.py:106-107 | the record with name X and status approved gives exactly `Изменился статус проверки работы "X". Работа проверена: ревьюеру всё понравилось. Ура!` |
| `Homework.UnformatStatusMessage` | homework.py:107 | a notification can be parsed back into the homework name and status it was made from |
| `Homework.ParseStatusIdentifiesRecord` | homework.py:106-107 | two records giving the same notification have the same status and render the same name |
| `Poller.StatusMessageIsNotFailure` | homework.py:131 | a status notification never starts with the failure prefix |
| `Poller.FailureMessage` | homework.py:131 | the report for a caught error: `Сбой в работе программы: ` followed by the error's text |
| `Poller.FailureMessageIsFailure` | homework.py:131 | a failure report starts with `Сбой в работе программы: ` |
| `Poller.ParsedIsNotFailure` | homework.py:123 | a formatted record never reads as a failure report |
| `Poller.Batch` | homework.py:122-124 | the record loop as a function: the notifications of the records before the first failure, and that failure; its properties are `BatchSpec`'s |
| `Poller.BatchMessages` | homework.py:122-132 | what the record loop sends: the notifications, then the report of the record that stopped it, if one did |
| `Poller.FirstFailure` | homework.py:122-123 | the index of the first record that fails to format: every earlier record formats, and that one fails |
| `Poller.BatchSpec` | homework.py:122-124 | the record loop formats the records in list order, exactly up to the first failure, and keeps that record's error |
| `Poller.BatchAppend` | homework.py:122-124 | a loop that got through one part of the list goes on with the rest |
| `Poller.BatchStopsAtFailure` | homework.py:122-124 | once a record fails, the records after it are not looked at |
| `Poller.BatchMessagesSpec` | homework.py:119-132 | the loop sends each record's notification in order up to the first failing record, then exactly one report of its error |
| `Poller.CycleMessages` | homework.py:119-132 | every message one pass of the loop body sends, given the API's answer |
| `Poller.CycleApiError` | homework.py:68-73 | a non-200 answer makes the cycle send exactly one message, `Сбой в работе программы: Ошибка API вернул код <n>` |
| `Poller.CycleNoUpdate` | homework.py:126-127 | an empty homework list makes the cycle send nothing |
| `Poller.CycleMalformedBody` | homework.py:79-85 | a body of the wrong shape makes the cycle send exactly one report of the type error |
| `Poller.CycleFormatsInOrder` | homework.py:119-124 | for a valid list, the cycle sends the notifications in list order up to the first failing record, then that record's report |
| `Poller.CycleReportsFailureOnce` | homework.py:129-132 | a cycle sends a failure report iff it caught an error ("no update" excluded), and only one, as its last message |
| `Poller.AllMessages` | homework.py:117-134 | the messages of consecutive cycles, one answer per cycle, in cycle order |
| `Poller.AllMessagesAppend` | homework.py:117-134 | the cycles are independent: a run's messages are those of its first part followed by those of the rest |
| `Poller.RepeatedAnswerIsResent` | homework.py:117-134 | any answer received in two cycles sends that cycle's messages twice, notifications and reports alike: nothing is deduplicated |
| `Poller.RepeatedFailureIsResent` | homework.py:129-134 | the same non-200 answer in two cycles sends the API error report twice |
| `Poller.Poller.constructor` | homework.py:115 | the cursor is the start-up clock reading; nothing has been sent or requested yet |
| `Poller.Poller.SendMessage` | homework.py:54-60 | sending appends the text to the outbox and never fails |
| `Poller.Poller.Cycle` | homework.py:119-132 | one cycle requests with the unchanged cursor and appends exactly the cycle's messages to the outbox |
| `Poller.Poller.SendBatch` | homework.py:122-124 | the record loop appends exactly the loop's messages to the outbox |
| `Poller.Launch` | homework.py:110-115 | start-up fails with the credential error iff a credential is missing; otherwise the loop state starts with the clock reading, an empty outbox and no requests |

## Left out

- The HTTP request and JSON decoding are foreign calls. The API's answer is an input: a status code with a decoded body, or the text of the request's exception.
- A 200 response whose body is not valid JSON is not modelled. In the code, `response.json()` would raise outside `get_api_answer`'s try, and the cycle's catch-all would report it.
- JSON numbers are integers only. A float would print and be named (`float`) differently.
- `Homework.ParseStatus`: its own ensures do not name the error for a list or dict status. The lemma `ParseStatusUnhashable` states it instead. Put on the function, that clause makes the proofs that unfold a whole cycle run out of resource.
- `Json.Repr`: a homework name that is itself a list or object is rendered with its nested strings in single quotes without escaping. Python's `repr` would escape quotes and control characters and may choose double quotes.
- `Json.Get`: the `JObject` datatype admits repeated keys, and `Get` then returns the first value, while `json.loads` keeps the last one. A repeated-key object has no Python dict counterpart. Where a dict is meant, the `DistinctKeys` predicate is required, as in `CheckResponseOfBuiltBody` and `GetOfDistinctKeys`.
- Telegram is not modelled. The outbox stands for the messages handed to the bot. A delivery failure is swallowed by `send_message` and only logged, so it is not modelled either.
- Logging, `load_dotenv` and `os.getenv` are environment and log I/O. The three credentials are inputs to `CheckTokens` and `Launch`.
- `time.time()`, `time.sleep(RETRY_PERIOD)` and the endless `while True` are left out. The clock reading is a parameter of `Launch`, and one loop iteration is `Poller.Cycle`. Repeated cycles are specified only as a function (`AllMessages`); there is no method running several cycles.
- `exceptions.py` holds only empty exception classes: `ResponseError`, `TokenNotFound` and `RequestError`. Only `TokenNotFound` is raised, and it is the case `TokenNotFound` of `Errors.Error`. `ResponseError` and `RequestError` are never raised, so they have no case. `RequestErr` stands for the plain `Exception(f'Ошибка {error}')` that `get_api_answer` raises. `TypeErr`, `KeyErr`, `ValueErr`, `AttributeErr` and `UnhashableErr` stand for Python's built-in `TypeError`, `KeyError`, `ValueError`, `AttributeError` and unhashable-type `TypeError`. `NoUpdate` stands for the undefined `HomeworkNotFound`.

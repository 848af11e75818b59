# homework_bot — a Dafny model of the polling bot

The bot (`homework.py`) polls a homework-review API for status changes
of one student's homeworks and relays them to a Telegram chat. At
startup it checks that its three credentials are set. Then it runs an
endless loop. Each pass:

- asks the API for changes since a cursor (`from_date`);
- validates the shape of the answer;
- turns the newest homework's status into a notification and sends it;
- moves the cursor to the answer's `current_date`.

Any error in a pass becomes an alert to the chat. An alert is not sent
when its text equals that of the last alert that was delivered.

This project models that core:

- `json.dfy` (module `Json`): decoded JSON values. It also renders them the
  way Python does inside f-strings (`str(v)`, `type(v)`, decimal integers).
- `errors.dfy` (module `Errors`): every exception the bot raises or catches.
  Each carries its Python class and the exact text `str(error)` gives. The
  alert text is `"Возникла ошибка: " + str(error)`.
- `homework.dfy` (module `Homework`): `check_tokens` (a loop over the
  three credentials), `send_message`, the status-code rule of
  `get_api_answer`, `check_response`, `parse_status` and the verdict table.
  Each raised exception becomes a `Fail`/`Err` value.
- `bot.dfy` (module `Bot`): one pass of the main loop. `Step` is the
  specification of a pass and `Run` of a sequence of passes. The class
  `Poller` holds the loop's two variables, `timestamp` and
  `lastErrorMessage`. Its `RunOnce` and `RunFor` update them in place and
  are proved to follow `Step` and `Run`.

The outside world enters a pass as a `Tick`:

- the outcome of the HTTP request (transport failure, or status code,
  reason phrase and decoded body);
- the clock reading;
- whether the status send and the alert send get through.

Other versions of this bot behave differently. This model follows this code:

- Status notifications are not deduplicated. Every pass whose newest
  homework parses sends one (`Bot.RepeatedNoteIsResent`).
- A delivered status notification does not reset the remembered alert.
- `check_response` does not require `current_date` and accepts
  `{"homeworks": []}`.
- The cursor takes whatever value `current_date` holds. It is a JSON value,
  not necessarily an integer, because the code never checks its type.
- The loop validates answers with `check_response` as written
  (`Homework.CheckResponseAsWritten`), whose "not a list" error always names
  `dict`. The corrected validator (`Homework.CheckResponse`) is stated and
  proved beside it, but the loop does not use it (see Findings).
- Missing tokens raise a `ValueError` that names the first missing one.
  The process does not call `sys.exit`.

## Model

| member | source | states |
|---|---|---|
| `Homework.CheckTokens` | homework.py:30-39 | passes iff all three tokens are set and non-empty; otherwise a ValueError naming the first missing one in the order PRACTICUM_TOKEN, TELEGRAM_TOKEN, TELEGRAM_CHAT_ID, all earlier ones being present |
| `Homework.Send` | homework.py:42-51 | a delivered message passes; a client failure is re-raised as a RuntimeError carrying its cause |
| `Homework.GetApiAnswer` | homework.py:54-75 | succeeds iff the request got a 200 answer with a JSON body, and then returns the body unchanged; a transport failure or any other status code is a ConnectionError with the source's text; an undecodable 200 body raises the decoder's error |
| `Homework.BadStatusMentionsCode` | homework.py:68-73 | the error for a non-200 answer contains the status code and the reason phrase |
| `Homework.TransportFailureMentionsCause` | homework.py:61-67 | the error for a transport failure contains the underlying cause |
| `Homework.CheckResponse` | homework.py:78-94 | accepts exactly a mapping whose "homeworks" value is a list; checks in order: not a mapping → TypeError, no key → KeyError, not a list → TypeError naming the offending value's type |
| `Homework.CheckResponseExamples` | homework.py:81-94 | `{}` is a KeyError, a string under "homeworks" is a TypeError, `{"homeworks": []}` passes without "current_date", a list answer is a TypeError |
| `Homework.CheckResponseAsWritten` | homework.py:78-94 | accepts exactly the answers the corrected validator accepts, in the same order of checks: not a mapping → TypeError naming the answer's type, no "homeworks" key → KeyError, not a list → TypeError that always names `<class 'dict'>` |
| `Homework.AsWrittenMisnamesType` | homework.py:89-94 | as written, a string and a number under "homeworks" give the same error text, and it names the wrong type |
| `Homework.CheckResponseTellsTypesApart` | homework.py:89-94 | corrected, "homeworks" values of different classes give different alert texts |
| `Homework.ParseStatus` | homework.py:98-114 | succeeds iff both keys are present and the status is one of the three table keys; a missing name is a KeyError even when the status is missing or bad, then a missing status is a KeyError; a list or dict status is the TypeError "unhashable type" that the table lookup raises; any other status outside the table (a string, null, boolean or number) is a ValueError showing the status as Python prints it |
| `Homework.ReadNoteAfterParseStatus` | homework.py:112-114 | the notification can be read back into the rendered homework name and the status: it is exactly the head, the name, `". ` and that status's verdict |
| `Homework.NoteForOneStatus` | homework.py:23-27 | no text ends like a notification for two different statuses, so the verdict table's texts tell the statuses apart |
| `Homework.ParseStatusApprovedNote` | homework.py:23-27 | an approved homework named hw1 gives exactly `Изменился статус проверки работы "hw1". Работа проверена: ревьюеру всё понравилось. Ура!` |
| `Homework.ParseStatusReadsTwoKeys` | homework.py:101-112 | keys other than homework_name and status do not change the result |
| `Homework.ParseItem` | homework.py:129-130 | the newest homework is parsed when it is a mapping; anything else raises a TypeError |
| `Json.NatTextRoundTrip` | homework.py:71 | the decimal text of a status code reads back as the code |
| `Json.IntTextInjective` | homework.py:71 | different integers get different decimal texts |
| `Errors.AlertTextMatchesText` | homework.py:137-139 | two alerts are equal exactly when the errors' texts are |
| `Errors.BadStatusAlertsDiffer` | homework.py:68-73 | answers with different status codes give different alerts, whatever the reason phrases, so one never suppresses the other |
| `Bot.Run` | homework.py:124-149 | a run folds one pass per tick, in order, each pass validating with the program's own `check_response` (line 92 text included), and logs one entry per pass |
| `Bot.StepCursor` | homework.py:126-134 | a pass polls with the cursor; after a caught error the cursor is unchanged; after a good pass the answer was a mapping and the cursor is its "current_date" if present, else the clock |
| `Bot.StepNotifiesFirstHomework` | homework.py:128-131 | a valid answer with homeworks makes exactly one status send, of the parsed homeworks[0], whatever the state; a delivered one catches nothing and keeps the remembered alert |
| `Bot.StepEmptyListSendsNothing` | homework.py:128-134 | a valid answer with an empty list sends nothing, catches nothing and only moves the cursor |
| `Bot.StepAlertRule` | homework.py:136-147 | an alert is attempted exactly when an error was caught and its text differs from the remembered one; the remembered text changes only to an alert that was delivered; a failed alert send is swallowed |
| `Bot.StepFailedNoteAlerts` | homework.py:129-142 | a failed status send is caught as a RuntimeError, keeps the cursor, and is alerted unless that alert was the last delivered |
| `Bot.AsWrittenSuppressesSecondAlert` | homework.py:89-94 | with the validator as written, a string and then a number under "homeworks" raise the same `dict` text, and after the first alert is delivered the second pass attempts no alert: at most one alert in the two passes |
| `Bot.RepeatedNoteIsResent` | homework.py:129-131 | the same answer in two consecutive passes is notified twice |
| `Bot.RunPollsFromCursor` | homework.py:121-134 | every pass polls with the cursor left by the passes before it |
| `Bot.RunCursorFollowsCurrentDate` | homework.py:134 | after a good pass whose answer has "current_date", the next poll uses exactly that value |
| `Bot.RunPrefix` | homework.py:124-149 | running more passes never changes the log of the earlier ones |
| `Bot.RunRemembersLastDelivered` | homework.py:139-142 | after any run the remembered alert is the latest delivered alert, or the starting value if none was delivered |
| `Bot.RepeatedErrorAlertedOnce` | homework.py:136-147 | when every pass raises an error with the same text and alerts get through, the run attempts exactly one alert (none if that text is already remembered), ends remembering that text, and the cursor stays put |
| `Bot.Poller.constructor` | homework.py:121-122 | the cursor starts at the clock and no alert is remembered |
| `Bot.Poller.RunOnce` | homework.py:125-147 | one pass updates the cursor and the remembered alert, and reports its sends, exactly as `Step` says, validating with `check_response` as written |
| `Bot.Poller.RunFor` | homework.py:124-149 | passes run in a loop leave the state and log that `Run` gives |
| `Bot.Start` | homework.py:117-122 | the loop starts, with the initial state, iff all tokens are present; otherwise startup fails with the ValueError naming the first missing token, all earlier ones being present |

## Left out

- HTTP transport, JSON decoding and the Telegram client are foreign library calls. Their outcomes are inputs of each pass (`ApiOutcome`, `SendOutcome`).
- Exceptions from the Telegram client other than its API exception and `requests` exceptions pass through `send_message` unconverted. Such an exception during an alert would end the loop. It is not modelled: a send either gets through or fails with a cause.
- Reading the environment (`load_dotenv`, `os.getenv`, `globals()`) is not modelled. The three tokens are parameters.
- Logging and its configuration are diagnostics only and are not modelled.
- `time.sleep(RETRY_PERIOD)` is dropped. `time.time()` is a parameter: `now` at startup and in each tick. The endless `while True` is modelled by finite runs (`Bot.Run`, `Bot.Poller.RunFor`).
- JSON floating-point numbers are not modelled.
- `Homework.ParseItem`: a newest homework that is not a mapping always raises in Python. The model raises one TypeError, "argument of type 'X' is not iterable". That text is exact for null, booleans and integers. For a string or a list Python raises a KeyError or an AttributeError, depending on the content.
- `Json.Format`: a list or dict interpolated into a text (as a homework name, a cursor or a status) is shown as `[...]` or `{...}`, not as Python's repr.
- `Errors.Text`: a KeyError's text is its message in single quotes. This is exact for the bot's own KeyError messages, which contain no single quote.

## Findings

| source | as written | input that shows it | evidently intended | confidence | as-written member | corrected member |
|---|---|---|---|---|---|---|
| homework.py:89-94 | the TypeError for a non-list "homeworks" value interpolates `type(response)`, which at that point is always `dict` | `{"homeworks": "x"}` and `{"homeworks": 1}` both give "… получен тип: <class 'dict'>", so in the main loop the second alert is suppressed (`Homework.AsWrittenMisnamesType`, `Bot.AsWrittenSuppressesSecondAlert`) | interpolate `type(response["homeworks"])`, so the text names the value's real type (`Homework.CheckResponseTellsTypesApart`); the main loop keeps the program's behaviour and does not use it | high; not executed | `Homework.CheckResponseAsWritten` | `Homework.CheckResponse` |

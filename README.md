# homework_bot in Dafny

A model of the decision core of a Telegram bot that polls the Yandex
Practicum homework-status API and reports status changes to one chat
(`homework.py`). The model covers:

- `check_tokens`: the start-up test of the three environment variables;
- `get_api_answer`, reduced to what it does with the transport's outcome
  (status code 200, another status code, or a `requests` exception);
- `check_response`: the shape check of the decoded answer;
- `HOMEWORK_VERDICTS` and `parse_status`: the translation of one submission
  into a notification text, over any decoded JSON value, including the errors
  Python itself raises for values of the wrong type;
- `main`: the start-up prologue and the `while True` loop. One pass fetches
  with the timestamp, computes the message or catches the exception, and
  decides what to send and whether to sleep.

Files:

- `wrappers.dfy`: `Option` and `Result`.
- `py_values.dfy`: decoded JSON values and the Python built-ins the bot applies to them: `in`, `str()` and the type names.
- `homework.dfy`: `CheckTokens`, `GetApiAnswer`, `CheckResponse`, `ParseStatus`, and `ReadStatusText`, which reads a notification back.
- `poll_loop.dfy`: the pass of the loop. `Attempt` is the body of the `try`, `Iterate` is one pass and `Run` is several passes. The class `Bot` runs the loop by changing its fields (`Step`, `Poll`). `Start` is the prologue of `main`.

The loop's state is the pair (`timestamp`, `last_message`). What the loop
does that can be seen from outside is recorded as a trace of events. The
events are requests with their `from_date`, texts passed to `send_message`,
and sleeps of `RETRY_PERIOD` (600) seconds.

The model follows the code on these points, which a reader might expect
otherwise:

- The timestamp is read from the clock once and never advanced, even when the answer carries `current_date`.
- A missing `"homeworks"` key is not handled quietly. It raises ConnectionError, and the error branch sends it.
- Errors are never deduplicated. An error never updates `last_message`.
- A pass that sends a new success message does not sleep. Only the duplicate branch and the error branch sleep.
- `check_tokens` only checks whether a variable is absent. An empty value passes.
- A transport exception makes `get_api_answer` return `None`. `check_response` then reports it as an answer that is not a dict.

## Model

| member | source | states |
|---|---|---|
| `PyValues.Display` | homework.py:118 | `str()` of the name as the f-string inserts it: a str unchanged, `None` as "None", a bool as "True"/"False", an int as `IntText` of it |
| `PyValues.IntText` | homework.py:118 | `str()` of an int: an optional '-' exactly when negative, then decimal digits with no leading zero and no "-0", reading back (`IntValue`) as the int itself |
| `PyValues.DigitsText` | homework.py:118 | the decimal digits of a natural number: all digits, no leading zero, reading back (`DigitsValue`, a left fold) as the number |
| `PyValues.Membership` | homework.py:107 | `key in v` raises for a scalar, and on a dict it is key membership |
| `Homework.CheckTokens` | homework.py:45-55 | the program goes on exactly when all three variables are present; otherwise it reports the first absent one, in the order TOKEN, TOKEN_YANDEX, CHAT_ID |
| `Homework.GetApiAnswer` | homework.py:68-83 | fails with ConnectionError "ENDPOINT inaccessible" exactly when the status code is not 200; a transport exception yields `None`; otherwise it yields the decoded body |
| `Homework.CheckResponse` | homework.py:86-102 | anything but a dict (`None` included) fails with the TypeError "Tyrpe of response not dict"; a dict whose "homeworks" is not a list fails with the TypeError "Error in request API"; it succeeds exactly when the dict holds a list under "homeworks" and then returns that list unchanged; the error is a ConnectionError ("No key \"homeworks\"") exactly when the key is missing |
| `Homework.VerdictKeys` | homework.py:24-28 | the known statuses are exactly approved, reviewing and rejected |
| `Homework.ParseStatus` | homework.py:105-118 | None, a bool or an int fails with TypeError "argument of type '<type>' is not iterable"; a dict missing either key, or a str or list that does not hold both key names, fails with ConnectionError "Missing expected keys in API"; a str or list that holds both fails with AttributeError "'<type>' object has no attribute 'get'"; an unhashable status fails with TypeError "unhashable type: '<type>'"; a hashable status that is not a known str (an unknown str, null, a number, a bool) fails with ConnectionError "Unexpected status of homework"; it succeeds exactly for a dict with both keys and a known str status, and then returns the status notification for the displayed name |
| `Homework.SubmissionText` | homework.py:117-118 | a record with a name and a known status yields that status's notification |
| `Homework.VerdictTexts` | homework.py:24-28 | the exact notification text for each of the three statuses |
| `Homework.ReadStatusTextRoundTrip` | homework.py:118 | the notification names its submission and status so that both can be read back |
| `Homework.StatusTextInjective` | homework.py:118 | different submissions or statuses give different notifications |
| `PollLoop.FailureText` | homework.py:144 | the error message is the fixed prefix followed by `str(error)` |
| `PollLoop.Attempt` | homework.py:130-135 | a transport exception fails as "not dict"; a status code other than 200 fails as "ENDPOINT inaccessible"; otherwise it yields the no-change text for an empty list or the translation of element 0 |
| `PollLoop.AttemptNeverYieldsFailureText` | homework.py:130-135 | the try block only ever yields the no-change text or a status notification, and neither starts like an error message |
| `PollLoop.EmptyListMeansNoChange` | homework.py:132-135 | an empty list gives "Статус проверки не изменился." |
| `PollLoop.FirstSubmissionOnly` | homework.py:132-133 | submissions after the first never affect the message |
| `PollLoop.Iterate` | homework.py:129-146 | a new success message is sent once and remembered, with no sleep; a repeated one is not sent, nothing changes and the loop sleeps; an error is always sent, `last_message` is kept and the loop sleeps; the timestamp never changes |
| `PollLoop.MissingHomeworksIsReported` | homework.py:92-95 | a dict without "homeworks" is reported through the error branch, with a sleep and no state change |
| `PollLoop.TransportFailureIsReported` | homework.py:82-91 | a transport exception is reported as "Tyrpe of response not dict" |
| `PollLoop.BadStatusCodeIsReported` | homework.py:77-80 | a status code other than 200 is reported as "ENDPOINT inaccessible" |
| `PollLoop.StatusChangeIsSent` | homework.py:136-138 | when the remembered notification is about another submission or status, the new one is sent without sleep |
| `PollLoop.ApprovedSubmissionAnnounced` | homework.py:126-138 | an approved "hw1" in a fresh loop sends its exact notification, and the answer's `current_date` leaves the timestamp alone |
| `PollLoop.Run` | homework.py:126-146 | over any number of passes the timestamp is unchanged and every request uses the start timestamp |
| `PollLoop.RunPrefix` | homework.py:128-146 | the first i + 1 passes are the first i followed by pass i, after any earlier trace |
| `PollLoop.RunSnoc` | homework.py:128-146 | running one more pass extends the session by that pass |
| `PollLoop.EventsOfIteration` | homework.py:136-146 | a pass sends at most its one text and sleeps at most once |
| `PollLoop.RepeatedMessageSentOnce` | homework.py:136-141 | the same success message over any number of passes is sent once if it differs from the remembered one and never otherwise |
| `PollLoop.TwoIdenticalMessagesSendOnce` | homework.py:136-141 | two consecutive identical success messages produce at most one send |
| `PollLoop.RepeatedFailureAlwaysSent` | homework.py:143-146 | the same error over n passes is sent n times with n sleeps and leaves the state unchanged |
| `PollLoop.LastMessageNeverFailure` | homework.py:136-146 | the remembered message never becomes an error message |
| `PollLoop.Bot.constructor` | homework.py:125-127 | sends the start-up text, then remembers the clock and an empty message |
| `PollLoop.Bot.Step` | homework.py:129-146 | updates the fields and appends the events as one pass of `Iterate` does |
| `PollLoop.Bot.Poll` | homework.py:128-146 | the loop over a finite sequence of outcomes leaves the state and trace that `Run` gives |
| `PollLoop.Start` | homework.py:121-127 | stops without a bot exactly when a variable is missing; otherwise it starts a bot whose only event is the start-up text |

## Left out

- HTTP transport (`requests.get`, `.json()`, the URL and the `Authorization` header): the transport's result is an input (`HttpOutcome`). A 200 answer whose body is not JSON counts as a `requests` exception (`RequestFailed`), which is how current `requests` versions raise it. An answer with any other status code is `Received(code, _)` whatever its body, since `.json()` is then never called.
- Sending to Telegram: `send_message` catches every exception, so a send is modelled as an event that always happens.
- Logging calls, the log configuration and `print('Message not sent')`: they do not change the loop's decisions.
- `tg_logger.setup` (homework.py:41) attaches `logger` to the same chat. Each error the code raises itself (homework.py:78, 89, 93, 99, 109, 115) therefore also puts its `logger.error` text in the chat before the error branch's own send. The errors Python raises inside `parse_status` (`in` on a scalar, `.get` on a str or list, an unhashable status) reach the chat only through the error branch. A failed send logs one more text at homework.py:65. None of these `logger.error` texts are in the trace.
- `load_dotenv` and `os.getenv`: the variables are an input (`Environment`). `sys.exit` is modelled as `Start` returning no bot.
- `time.time` and `time.sleep`: the clock reading is a parameter, and a sleep is an event.
- The endless `while True`: the loop is modelled over any finite sequence of request outcomes.
- PollLoop.Start: building the Telegram client (`telegram.Bot(token=TELEGRAM_TOKEN)`, homework.py:124) is assumed to succeed. The library raises `InvalidToken` for an empty or malformed TOKEN, and `check_tokens` lets an empty value through. Such a token ends the real program uncaught at homework.py:124, before "Work harder" and before any request. The model starts a bot instead.
- Decoder errors other than `JSONDecodeError`: a 200 body that is valid JSON but that Python's decoder still refuses raises outside `requests`. Examples are an integer of more than 4300 digits (`ValueError`) or very deep nesting (`RecursionError`). Such an error escapes `get_api_answer`, which catches only `RequestException` (homework.py:82), and the error branch sends it with its own text. `HttpOutcome` has no outcome for it, and `VInt` admits integers that `json.loads` would refuse.
- exceptions.py: it declares three exception classes that homework.py never uses.
- JSON numbers with a fraction part: the values have integers only. A float behaves like an int in every check, but some texts differ. A float submission gets the type name 'float' in its error text ("argument of type 'float' is not iterable"). A float name is displayed in Python's float notation.
- PyValues.Display: a submission name that is a list or a dict is shown by a placeholder rather than by Python's `repr`.
- Python's own error texts (`in` on a scalar, an unhashable status, `.get` on a str or list) use the CPython 3.11 wording. Newer releases word the first one differently.

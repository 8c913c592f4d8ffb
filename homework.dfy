/** The decision functions of the bot: the start-up token check, the outcome
    of one request to the status API, the shape check of the decoded answer
    and the translation of one submission into a notification text. */
module Homework {
  import opened Wrappers
  import opened PyValues

  // ---------------------------------------------------------------------
  // Errors
  // ---------------------------------------------------------------------

  /** The exception classes the core raises or lets Python raise. */
  datatype ErrorKind = TypeError | ConnectionError | AttributeError

  /** A raised exception: its class and `str(exception)`. */
  datatype Error = Error(kind: ErrorKind, text: string)

  // ---------------------------------------------------------------------
  // check_tokens
  // ---------------------------------------------------------------------

  /** The three environment variables; `None` when `os.getenv` found nothing. */
  datatype Environment = Environment(
    practicumToken: Option<string>,  // TOKEN_YANDEX
    telegramToken: Option<string>,   // TOKEN
    chatId: Option<string>)          // CHAT_ID

  /** The variable whose absence stops the program. */
  datatype MissingVariable = TelegramToken | PracticumToken | TelegramChatId

  /** `check_tokens`: `None` when the program may go on, otherwise the first
      absent variable in the order the checks are made (after which the
      program exits). Only absence is tested: an empty value passes. */
  function CheckTokens(env: Environment): (r: Option<MissingVariable>)
    ensures r.None? <==> env.telegramToken.Some? && env.practicumToken.Some? && env.chatId.Some?
    ensures r == Some(TelegramToken) <==> env.telegramToken.None?
    ensures r == Some(PracticumToken) <==> env.telegramToken.Some? && env.practicumToken.None?
    ensures r == Some(TelegramChatId) <==>
              env.telegramToken.Some? && env.practicumToken.Some? && env.chatId.None?
  {
    if env.telegramToken.None? then Some(TelegramToken)
    else if env.practicumToken.None? then Some(PracticumToken)
    else if env.chatId.None? then Some(TelegramChatId)
    else None
  }

  // ---------------------------------------------------------------------
  // get_api_answer
  // ---------------------------------------------------------------------

  /** What the HTTP transport did with one request: an answer with its status
      code and decoded body, or a `requests.RequestException`. */
  datatype HttpOutcome =
    | Received(statusCode: int, body: Value)
    | RequestFailed

  const EndpointInaccessible := Error(ConnectionError, "ENDPOINT inaccessible")

  /** `get_api_answer`: a status code other than 200 raises ConnectionError;
      a transport exception is swallowed and the function returns `None`. */
  function GetApiAnswer(outcome: HttpOutcome): (r: Result<Value, Error>)
    ensures r.Failure? <==> outcome.Received? && outcome.statusCode != 200
    ensures r.Failure? ==> r.error == EndpointInaccessible
    ensures outcome.RequestFailed? ==> r == Success(VNone)
    ensures outcome.Received? && r.Success? ==> r.value == outcome.body
  {
    match outcome
    case RequestFailed => Success(VNone)
    case Received(statusCode, body) =>
      if statusCode != 200 then Failure(EndpointInaccessible) else Success(body)
  }

  // ---------------------------------------------------------------------
  // check_response
  // ---------------------------------------------------------------------

  const HomeworksKey := "homeworks"

  const NotDict := Error(TypeError, "Tyrpe of response not dict")
  const NoHomeworksKey := Error(ConnectionError, "No key \"homeworks\"")
  const HomeworksNotList := Error(TypeError, "Error in request API")

  /** `check_response`: the decoded answer must be a dict holding a list under
      "homeworks"; that list is returned as it is. A missing key is a
      ConnectionError, every wrong type a TypeError. */
  function CheckResponse(response: Value): (r: Result<seq<Value>, Error>)
    ensures !response.VDict? ==> r == Failure(NotDict)
    ensures r.Success? <==>
              response.VDict? && HomeworksKey in response.entries
              && response.entries[HomeworksKey].VList?
    ensures r.Success? ==> response.entries[HomeworksKey] == VList(r.value)
    ensures r.Failure? ==>
              (r.error.kind == ConnectionError <==> response.VDict? && HomeworksKey !in response.entries)
    ensures (response.VDict? && HomeworksKey in response.entries && !response.entries[HomeworksKey].VList?)
              ==> r == Failure(HomeworksNotList)
    ensures r.Failure? ==> r.error in {NotDict, NoHomeworksKey, HomeworksNotList}
  {
    if !response.VDict? then Failure(NotDict)
    else if HomeworksKey !in response.entries then Failure(NoHomeworksKey)
    else
      var homeworks := response.entries[HomeworksKey];
      if !homeworks.VList? then Failure(HomeworksNotList)
      else Success(homeworks.items)
  }

  // ---------------------------------------------------------------------
  // HOMEWORK_VERDICTS and parse_status
  // ---------------------------------------------------------------------

  /** The review statuses the bot knows. */
  datatype Status = Approved | Reviewing | Rejected

  /** The status as the API spells it. */
  function Key(st: Status): string
  {
    match st
    case Approved => "approved"
    case Reviewing => "reviewing"
    case Rejected => "rejected"
  }

  /** HOMEWORK_VERDICTS */
  const HomeworkVerdicts: map<string, string> := map[
    "approved" := "Работа проверена: ревьюеру всё понравилось. Ура!",
    "reviewing" := "Работа взята на проверку ревьюером.",
    "rejected" := "Работа проверена: у ревьюера есть замечания."
  ]

  /** The keys of HOMEWORK_VERDICTS are exactly the spellings of the three statuses. */
  lemma VerdictKeys(k: string)
    ensures k in HomeworkVerdicts <==> k == Key(Approved) || k == Key(Reviewing) || k == Key(Rejected)
  {
  }

  function Verdict(st: Status): string
  {
    HomeworkVerdicts[Key(st)]
  }

  const NameKey := "homework_name"
  const StatusKey := "status"

  const StatusPrefix := "Изменился статус проверки работы \""

  /** The notification for submission `name` reaching status `st`. */
  function StatusText(name: string, st: Status): string
  {
    StatusPrefix + name + "\". " + Verdict(st)
  }

  const MissingKeys := Error(ConnectionError, "Missing expected keys in API")
  const UnexpectedStatus := Error(ConnectionError, "Unexpected status of homework")

  /** The status spelled `k`, a key of HOMEWORK_VERDICTS. */
  function StatusOfKey(k: string): (st: Status)
    requires k in HomeworkVerdicts
    ensures Key(st) == k
  {
    if k == "approved" then Approved else if k == "reviewing" then Reviewing else Rejected
  }

  /** `parse_status`: both keys must be present (for a str or a list, `in`
      tests a substring or an element, and `.get` then raises AttributeError;
      for a scalar, `in` itself raises TypeError); the status must be a key of
      HOMEWORK_VERDICTS (an unhashable one raises TypeError); the result names
      the submission and carries its verdict. */
  function ParseStatus(homework: Value): (r: Result<string, Error>)
    ensures (homework.VDict? && (NameKey !in homework.entries || StatusKey !in homework.entries))
              ==> r == Failure(MissingKeys)
    ensures (homework.VDict? && NameKey in homework.entries && StatusKey in homework.entries
             && Hashable(homework.entries[StatusKey])
             && !(homework.entries[StatusKey].VStr? && homework.entries[StatusKey].s in HomeworkVerdicts))
              ==> r == Failure(UnexpectedStatus)
    ensures ((homework.VStr? || homework.VList?)
             && !(Membership(NameKey, homework).value && Membership(StatusKey, homework).value))
              ==> r == Failure(MissingKeys)
    ensures (homework.VNone? || homework.VBool? || homework.VInt?)
              ==> r == Failure(Error(TypeError, "argument of type '" + TypeName(homework) + "' is not iterable"))
    ensures ((homework.VStr? || homework.VList?)
             && Membership(NameKey, homework).value && Membership(StatusKey, homework).value)
              ==> r == Failure(Error(AttributeError, "'" + TypeName(homework) + "' object has no attribute 'get'"))
    ensures (homework.VDict? && NameKey in homework.entries && StatusKey in homework.entries
             && !Hashable(homework.entries[StatusKey]))
              ==> r == Failure(Error(TypeError, "unhashable type: '" + TypeName(homework.entries[StatusKey]) + "'"))
    ensures r.Success? <==>
              homework.VDict? && NameKey in homework.entries && StatusKey in homework.entries
              && homework.entries[StatusKey].VStr? && homework.entries[StatusKey].s in HomeworkVerdicts
    ensures r.Success? ==>
              var st := StatusOfKey(homework.entries[StatusKey].s);
              r.value == StatusText(Display(homework.entries[NameKey]), st)
    ensures r.Failure? && r.error.kind == ConnectionError ==> r.error in {MissingKeys, UnexpectedStatus}
  {
    var hasName := Membership(NameKey, homework);
    if hasName.None? then
      Failure(Error(TypeError, "argument of type '" + TypeName(homework) + "' is not iterable"))
    else if !hasName.value || !Membership(StatusKey, homework).value then
      Failure(MissingKeys)
    else if !homework.VDict? then
      Failure(Error(AttributeError, "'" + TypeName(homework) + "' object has no attribute 'get'"))
    else
      var status := homework.entries[StatusKey];
      var name := homework.entries[NameKey];
      if !Hashable(status) then
        Failure(Error(TypeError, "unhashable type: '" + TypeName(status) + "'"))
      else if !(status.VStr? && status.s in HomeworkVerdicts) then
        Failure(UnexpectedStatus)
      else
        Success(StatusPrefix + Display(name) + "\". " + HomeworkVerdicts[status.s])
  }

  /** A submission record as the API sends it. */
  function Submission(name: string, status: string): Value
  {
    VDict(map[NameKey := VStr(name), StatusKey := VStr(status)])
  }

  /** A well-formed submission with a known status yields its status notification. */
  lemma SubmissionText(name: string, st: Status)
    ensures ParseStatus(Submission(name, Key(st))) == Success(StatusText(name, st))
  {
  }

  /** The exact texts for the three statuses. */
  lemma VerdictTexts(name: string)
    ensures ParseStatus(Submission(name, "approved")) ==
              Success("Изменился статус проверки работы \"" + name + "\". " + "Работа проверена: ревьюеру всё понравилось. Ура!")
    ensures ParseStatus(Submission(name, "reviewing")) ==
              Success("Изменился статус проверки работы \"" + name + "\". " + "Работа взята на проверку ревьюером.")
    ensures ParseStatus(Submission(name, "rejected")) ==
              Success("Изменился статус проверки работы \"" + name + "\". " + "Работа проверена: у ревьюера есть замечания.")
  {
  }

  // ---------------------------------------------------------------------
  // Reading a notification back
  // ---------------------------------------------------------------------

  predicate EndsWith(s: string, suffix: string)
  {
    |suffix| <= |s| && s[|s| - |suffix|..] == suffix
  }

  /** What follows the submission name in a status notification. */
  function Tail(st: Status): string
  {
    "\". " + Verdict(st)
  }

  /** Recovers the submission name and status from a status notification. */
  function ReadStatusText(text: string): Option<(string, Status)>
  {
    if |text| < |StatusPrefix| || text[..|StatusPrefix|] != StatusPrefix then None
    else ReadNameAndVerdict(text[|StatusPrefix|..])
  }

  /** Splits what follows the prefix into the name and the status whose tail ends it. */
  function ReadNameAndVerdict(rest: string): Option<(string, Status)>
  {
    if EndsWith(rest, Tail(Approved)) then Some((rest[..|rest| - |Tail(Approved)|], Approved))
    else if EndsWith(rest, Tail(Reviewing)) then Some((rest[..|rest| - |Tail(Reviewing)|], Reviewing))
    else if EndsWith(rest, Tail(Rejected)) then Some((rest[..|rest| - |Tail(Rejected)|], Rejected))
    else None
  }

  /** A text that ends with `suffix` does not end with a `other` that
      differs from `suffix` in its k-th character from the end. */
  lemma NotEndsWith(s: string, suffix: string, other: string, k: nat)
    requires EndsWith(s, suffix) && 0 < k <= |suffix| && k <= |other|
    requires suffix[|suffix| - k] != other[|other| - k]
    ensures !EndsWith(s, other)
  {
  }

  /** The tails differ in their last character, or else in the one before it. */
  lemma TailEndings()
    ensures Tail(Approved)[|Tail(Approved)| - 1] == '!'
    ensures Tail(Reviewing)[|Tail(Reviewing)| - 1] == '.'
    ensures Tail(Rejected)[|Tail(Rejected)| - 1] == '.'
    ensures Tail(Reviewing)[|Tail(Reviewing)| - 2] == 'м'
    ensures Tail(Rejected)[|Tail(Rejected)| - 2] == 'я'
  {
  }

  /** A status notification names its submission and status unambiguously. */
  lemma ReadStatusTextRoundTrip(name: string, st: Status)
    ensures ReadStatusText(StatusText(name, st)) == Some((name, st))
  {
    var text := StatusText(name, st);
    var rest := name + Tail(st);
    assert text == StatusPrefix + rest;
    assert text[..|StatusPrefix|] == StatusPrefix;
    assert text[|StatusPrefix|..] == rest;
    ReadNameAndVerdictRoundTrip(name, st);
  }

  /** The name and the status can be read back from what follows the prefix. */
  lemma ReadNameAndVerdictRoundTrip(name: string, st: Status)
    ensures ReadNameAndVerdict(name + Tail(st)) == Some((name, st))
  {
    var rest := name + Tail(st);
    assert EndsWith(rest, Tail(st));
    assert rest[..|rest| - |Tail(st)|] == name;
    TailEndings();
    if st != Approved {
      NotEndsWith(rest, Tail(st), Tail(Approved), 1);
    }
    if st == Rejected {
      NotEndsWith(rest, Tail(st), Tail(Reviewing), 2);
    }
  }

  /** Different submissions or statuses give different notifications. */
  lemma StatusTextInjective(name1: string, st1: Status, name2: string, st2: Status)
    requires StatusText(name1, st1) == StatusText(name2, st2)
    ensures name1 == name2 && st1 == st2
  {
    ReadStatusTextRoundTrip(name1, st1);
    ReadStatusTextRoundTrip(name2, st2);
  }
}

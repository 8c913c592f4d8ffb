/** The body of `main`: the start-up prologue and the `while True` loop, one
    pass of which fetches with the fixed timestamp, turns the answer into a
    message or an error, and decides what to send and whether to sleep. */
module PollLoop {
  import opened Wrappers
  import opened PyValues
  import opened Homework

  /** RETRY_PERIOD, in seconds. */
  const RetryPeriod := 600

  /** The text sent once at start-up. */
  const StartupText := "Work harder"

  /** The message for an answer whose list of submissions is empty. */
  const NoStatusChange := "Статус проверки не изменился."

  /** What the error branch puts before `str(error)`. */
  const FailurePrefix := "Сбой в работе программы: "

  /** What the loop does that can be observed from outside: a request with
      its `from_date`, a text sent to the chat, a `time.sleep`. */
  datatype Event = Fetch(fromDate: int) | Send(text: string) | Sleep(seconds: int)

  predicate IsFailureText(m: string)
  {
    |FailurePrefix| <= |m| && m[..|FailurePrefix|] == FailurePrefix
  }

  /** The message the error branch builds from a caught exception. */
  function FailureText(e: Error): (m: string)
    ensures IsFailureText(m) && m[|FailurePrefix|..] == e.text
  {
    FailurePrefix + e.text
  }

  // ---------------------------------------------------------------------
  // The body of the try block
  // ---------------------------------------------------------------------

  /** The message the try block computes, or the exception it raises: fetch,
      check the answer, then translate the first submission, or report that
      nothing changed when the list is empty. */
  function Attempt(outcome: HttpOutcome): (r: Result<string, Error>)
    ensures outcome.RequestFailed? ==> r == Failure(NotDict)
    ensures outcome.Received? && outcome.statusCode != 200 ==> r == Failure(EndpointInaccessible)
    ensures outcome.Received? && outcome.statusCode == 200 ==>
              r == match CheckResponse(outcome.body)
                   case Failure(e) => Failure(e)
                   case Success(homeworks) =>
                     if homeworks == [] then Success(NoStatusChange) else ParseStatus(homeworks[0])
  {
    var response :- GetApiAnswer(outcome);
    var homeworks :- CheckResponse(response);
    if |homeworks| > 0 then ParseStatus(homeworks[0]) else Success(NoStatusChange)
  }

  /** A status notification never looks like an error report. */
  lemma StatusTextNotFailure(name: string, st: Status)
    ensures !IsFailureText(StatusText(name, st))
  {
    var m := StatusText(name, st);
    assert m[0] == StatusPrefix[0];
  }

  /** The try block only ever yields a status notification or the no-change
      text, and neither starts like an error report. */
  lemma AttemptNeverYieldsFailureText(outcome: HttpOutcome)
    ensures Attempt(outcome).Success? ==> !IsFailureText(Attempt(outcome).value)
    ensures Attempt(outcome).Success? ==>
              Attempt(outcome).value == NoStatusChange
              || exists name, st :: Attempt(outcome).value == StatusText(name, st)
  {
    var r := Attempt(outcome);
    if r.Success? && r.value != NoStatusChange {
      var homework := CheckResponse(outcome.body).value[0];
      var name := Display(homework.entries[NameKey]);
      var st := StatusOfKey(homework.entries[StatusKey].s);
      assert r.value == StatusText(name, st);
      StatusTextNotFailure(name, st);
    } else if r.Success? {
      assert NoStatusChange[1] != FailurePrefix[1];
    }
  }

  /** An empty list of submissions means "nothing changed". */
  lemma EmptyListMeansNoChange(entries: map<string, Value>)
    requires HomeworksKey in entries && entries[HomeworksKey] == VList([])
    ensures Attempt(Received(200, VDict(entries))) == Success("Статус проверки не изменился.")
  {
  }

  /** Only the first submission of a non-empty list decides the message. */
  lemma FirstSubmissionOnly(entries: map<string, Value>, first: Value, rest1: seq<Value>, rest2: seq<Value>)
    ensures Attempt(Received(200, VDict(entries[HomeworksKey := VList([first] + rest1)])))
         == Attempt(Received(200, VDict(entries[HomeworksKey := VList([first] + rest2)])))
         == ParseStatus(first)
  {
  }

  // ---------------------------------------------------------------------
  // One pass of the loop
  // ---------------------------------------------------------------------

  /** The loop's variables: `timestamp` and `last_message`. */
  datatype PollState = PollState(timestamp: int, lastMessage: string)

  /** The outcome of one pass: the new variables, the text sent if any, and
      whether the pass ended in `time.sleep(RETRY_PERIOD)`. */
  datatype Iteration = Iteration(state: PollState, sent: Option<string>, sleeps: bool)

  /** One pass of the `while True` loop. A new message is sent and remembered
      and the next pass follows at once; a repeated one is not sent and the
      loop sleeps; an exception is always reported, is never remembered, and
      the loop sleeps. The timestamp is never changed. */
  function Iterate(s: PollState, outcome: HttpOutcome): (r: Iteration)
    ensures r.state.timestamp == s.timestamp
    ensures Attempt(outcome).Success? ==>
              var m := Attempt(outcome).value;
              r.state.lastMessage == m
              && (r.sent.Some? <==> m != s.lastMessage)
              && (r.sent.Some? ==> r.sent.value == m)
              && (r.sleeps <==> m == s.lastMessage)
    ensures Attempt(outcome).Failure? ==>
              r.state == s && r.sent == Some(FailureText(Attempt(outcome).error)) && r.sleeps
    ensures r.sent.None? ==> r.state == s && r.sleeps
  {
    match Attempt(outcome)
    case Success(message) =>
      if message != s.lastMessage then Iteration(s.(lastMessage := message), Some(message), false)
      else Iteration(s, None, true)
    case Failure(error) =>
      Iteration(s, Some(FailureText(error)), true)
  }

  /** The events of one pass, in the order they happen. */
  function Events(s: PollState, it: Iteration): seq<Event>
  {
    [Fetch(s.timestamp)]
    + (if it.sent.Some? then [Send(it.sent.value)] else [])
    + (if it.sleeps then [Sleep(RetryPeriod)] else [])
  }

  /** A missing "homeworks" key is not ignored: it is reported through the
      error branch, and the loop sleeps. */
  lemma MissingHomeworksIsReported(s: PollState, entries: map<string, Value>)
    requires HomeworksKey !in entries
    ensures Iterate(s, Received(200, VDict(entries)))
         == Iteration(s, Some("Сбой в работе программы: " + "No key \"homeworks\""), true)
  {
  }

  /** A transport exception makes get_api_answer return None, which is then
      reported as an answer that is not a dict. */
  lemma TransportFailureIsReported(s: PollState)
    ensures Iterate(s, RequestFailed)
         == Iteration(s, Some("Сбой в работе программы: " + "Tyrpe of response not dict"), true)
  {
  }

  /** A status code other than 200 is reported. */
  lemma BadStatusCodeIsReported(s: PollState, statusCode: int, body: Value)
    requires statusCode != 200
    ensures Iterate(s, Received(statusCode, body))
         == Iteration(s, Some("Сбой в работе программы: " + "ENDPOINT inaccessible"), true)
  {
  }

  /** Deduplication never hides a real change: when the remembered message
      is a status notification and the new one is about another submission
      or status, the new one is sent. */
  lemma StatusChangeIsSent(s: PollState, outcome: HttpOutcome, name1: string, st1: Status, name2: string, st2: Status)
    requires s.lastMessage == StatusText(name1, st1)
    requires Attempt(outcome) == Success(StatusText(name2, st2))
    requires name1 != name2 || st1 != st2
    ensures Iterate(s, outcome).sent == Some(StatusText(name2, st2))
    ensures !Iterate(s, outcome).sleeps
  {
    if StatusText(name1, st1) == StatusText(name2, st2) {
      StatusTextInjective(name1, st1, name2, st2);
    }
  }

  /** A well-formed answer of the status API. */
  function Answer(homeworks: seq<Value>, currentDate: int): Value
  {
    VDict(map[HomeworksKey := VList(homeworks), "current_date" := VInt(currentDate)])
  }

  /** An approved submission in a fresh loop is announced with its exact
      text; the answer's "current_date" does not move the timestamp. */
  lemma ApprovedSubmissionAnnounced(timestamp: int, currentDate: int)
    ensures Iterate(PollState(timestamp, ""), Received(200, Answer([Submission("hw1", "approved")], currentDate)))
         == Iteration(PollState(timestamp, StatusText("hw1", Approved)), Some(StatusText("hw1", Approved)), false)
  {
  }

  // ---------------------------------------------------------------------
  // Many passes
  // ---------------------------------------------------------------------

  /** The state after some passes and the events they produced. */
  datatype Session = Session(state: PollState, events: seq<Event>)

  /** The passes of the loop over a finite sequence of request outcomes.
      Every request is made with the timestamp the loop started with. */
  function Run(s: PollState, outcomes: seq<HttpOutcome>): (r: Session)
    ensures r.state.timestamp == s.timestamp
    ensures forall i :: 0 <= i < |r.events| && r.events[i].Fetch? ==> r.events[i].fromDate == s.timestamp
    decreases |outcomes|
  {
    if outcomes == [] then Session(s, [])
    else
      var it := Iterate(s, outcomes[0]);
      var rest := Run(it.state, outcomes[1..]);
      Session(rest.state, Events(s, it) + rest.events)
  }

  /** One more pass after a session. */
  function Then(p: Session, outcome: HttpOutcome): Session
  {
    var it := Iterate(p.state, outcome);
    Session(it.state, p.events + Events(p.state, it))
  }

  lemma {:induction false} RunSnoc(s: PollState, outcomes: seq<HttpOutcome>, outcome: HttpOutcome)
    ensures Run(s, outcomes + [outcome]) == Then(Run(s, outcomes), outcome)
    decreases |outcomes|
  {
    if outcomes == [] {
      assert [] + [outcome] == [outcome];
      var it := Iterate(s, outcome);
      assert Run(s, [outcome]) == Session(it.state, Events(s, it) + []);
    } else {
      var it := Iterate(s, outcomes[0]);
      assert (outcomes + [outcome])[0] == outcomes[0];
      assert (outcomes + [outcome])[1..] == outcomes[1..] + [outcome];
      RunSnoc(it.state, outcomes[1..], outcome);
      var rest := Run(it.state, outcomes[1..]);
      var last := Iterate(rest.state, outcome);
      assert Events(s, it) + (rest.events + Events(rest.state, last))
          == (Events(s, it) + rest.events) + Events(rest.state, last);
    }
  }

  /** A session whose events follow an earlier trace. */
  function Extended(earlier: seq<Event>, p: Session): Session
  {
    Session(p.state, earlier + p.events)
  }

  /** Running the first i + 1 outcomes is one more pass after the first i,
      also after an earlier trace. */
  lemma RunPrefix(s: PollState, outcomes: seq<HttpOutcome>, i: nat, earlier: seq<Event>)
    requires i < |outcomes|
    ensures var p := Extended(earlier, Run(s, outcomes[..i]));
            var it := Iterate(p.state, outcomes[i]);
            Extended(earlier, Run(s, outcomes[..i + 1])) == Session(it.state, p.events + Events(p.state, it))
  {
    assert outcomes[..i + 1] == outcomes[..i] + [outcomes[i]];
    RunSnoc(s, outcomes[..i], outcomes[i]);
  }

  /** The texts sent, in order. */
  function Sends(events: seq<Event>): seq<string>
  {
    if events == [] then []
    else (if events[0].Send? then [events[0].text] else []) + Sends(events[1..])
  }

  /** The number of sleeps. */
  function SleepCount(events: seq<Event>): nat
  {
    if events == [] then 0
    else (if events[0].Sleep? then 1 else 0) + SleepCount(events[1..])
  }

  lemma {:induction false} SendsAppend(a: seq<Event>, b: seq<Event>)
    ensures Sends(a + b) == Sends(a) + Sends(b)
    ensures SleepCount(a + b) == SleepCount(a) + SleepCount(b)
  {
    if a != [] {
      assert (a + b)[0] == a[0];
      assert (a + b)[1..] == a[1..] + b;
      SendsAppend(a[1..], b);
    } else {
      assert a + b == b;
    }
  }

  /** What one pass sends and how often it sleeps. */
  lemma EventsOfIteration(s: PollState, it: Iteration)
    ensures Sends(Events(s, it)) == if it.sent.Some? then [it.sent.value] else []
    ensures SleepCount(Events(s, it)) == if it.sleeps then 1 else 0
  {
    var sent := if it.sent.Some? then [Send(it.sent.value)] else [];
    var slept := if it.sleeps then [Sleep(RetryPeriod)] else [];
    SendsAppend([Fetch(s.timestamp)], sent);
    SendsAppend([Fetch(s.timestamp)] + sent, slept);
  }

  /** The same successful message over and over is sent at most once: once
      when it differs from the remembered one, never otherwise. */
  lemma {:induction false} RepeatedMessageSentOnce(s: PollState, outcomes: seq<HttpOutcome>, m: string)
    requires forall i :: 0 <= i < |outcomes| ==> Attempt(outcomes[i]) == Success(m)
    ensures Sends(Run(s, outcomes).events) == if outcomes != [] && s.lastMessage != m then [m] else []
    ensures outcomes != [] ==> Run(s, outcomes).state.lastMessage == m
    decreases |outcomes|
  {
    if outcomes != [] {
      var it := Iterate(s, outcomes[0]);
      var rest := Run(it.state, outcomes[1..]);
      EventsOfIteration(s, it);
      SendsAppend(Events(s, it), rest.events);
      RepeatedMessageSentOnce(it.state, outcomes[1..], m);
    }
  }

  /** Two passes with the same successful message send it at most once. */
  lemma TwoIdenticalMessagesSendOnce(s: PollState, o1: HttpOutcome, o2: HttpOutcome, m: string)
    requires Attempt(o1) == Success(m) && Attempt(o2) == Success(m)
    ensures |Sends(Run(s, [o1, o2]).events)| <= 1
  {
    RepeatedMessageSentOnce(s, [o1, o2], m);
  }

  /** The same exception over and over is reported every time, the loop
      sleeps every time, and the remembered message is left alone. */
  lemma {:induction false} RepeatedFailureAlwaysSent(s: PollState, outcomes: seq<HttpOutcome>, e: Error)
    requires forall i :: 0 <= i < |outcomes| ==> Attempt(outcomes[i]) == Failure(e)
    ensures Sends(Run(s, outcomes).events) == seq(|outcomes|, _ => FailureText(e))
    ensures SleepCount(Run(s, outcomes).events) == |outcomes|
    ensures Run(s, outcomes).state == s
    decreases |outcomes|
  {
    if outcomes != [] {
      var it := Iterate(s, outcomes[0]);
      var rest := Run(it.state, outcomes[1..]);
      EventsOfIteration(s, it);
      SendsAppend(Events(s, it), rest.events);
      RepeatedFailureAlwaysSent(it.state, outcomes[1..], e);
      assert [FailureText(e)] + seq(|outcomes| - 1, _ => FailureText(e)) == seq(|outcomes|, _ => FailureText(e));
    }
  }

  /** The remembered message is never an error report: the error branch
      does not update it. */
  lemma {:induction false} LastMessageNeverFailure(s: PollState, outcomes: seq<HttpOutcome>)
    requires !IsFailureText(s.lastMessage)
    ensures !IsFailureText(Run(s, outcomes).state.lastMessage)
    decreases |outcomes|
  {
    if outcomes != [] {
      AttemptNeverYieldsFailureText(outcomes[0]);
      LastMessageNeverFailure(Iterate(s, outcomes[0]).state, outcomes[1..]);
    }
  }

  // ---------------------------------------------------------------------
  // The program
  // ---------------------------------------------------------------------

  /** The running bot: the loop's two variables and everything it has done. */
  class Bot {
    /** Assigned once from the clock at start-up and never advanced. */
    const timestamp: int
    var lastMessage: string
    var trace: seq<Event>

    function State(): PollState
      reads this
    {
      PollState(timestamp, lastMessage)
    }

    /** Sends the start-up text, then records the clock and an empty
        remembered message. */
    constructor (now: int)
      ensures State() == PollState(now, "")
      ensures trace == [Send(StartupText)]
    {
      trace := [Send(StartupText)];
      timestamp := now;
      lastMessage := "";
    }

    /** One pass of the loop, as the source performs it. */
    method Step(outcome: HttpOutcome)
      modifies this
      ensures var it := Iterate(old(State()), outcome);
              State() == it.state && trace == old(trace) + Events(old(State()), it)
    {
      trace := trace + [Fetch(timestamp)];
      match Attempt(outcome)
      case Success(message) =>
        if message != lastMessage {
          trace := trace + [Send(message)];
          lastMessage := message;
        } else {
          trace := trace + [Sleep(RetryPeriod)];
        }
      case Failure(error) =>
        var message := FailureText(error);
        trace := trace + [Send(message)];
        trace := trace + [Sleep(RetryPeriod)];
    }

    /** The loop run over a finite sequence of request outcomes. */
    method Poll(outcomes: seq<HttpOutcome>)
      modifies this
      ensures var r := Run(old(State()), outcomes);
              State() == r.state && trace == old(trace) + r.events
    {
      ghost var s0, t0 := State(), trace;
      var i := 0;
      while i < |outcomes|
        invariant 0 <= i <= |outcomes|
        invariant Session(State(), trace) == Extended(t0, Run(s0, outcomes[..i]))
      {
        RunPrefix(s0, outcomes, i, t0);
        Step(outcomes[i]);
        i := i + 1;
      }
      assert outcomes[..|outcomes|] == outcomes;
    }
  }

  /** The prologue of `main`: stop when a variable is missing, otherwise
      start the bot. */
  method Start(env: Environment, now: int) returns (bot: Bot?)
    ensures bot == null <==> CheckTokens(env).Some?
    ensures bot != null ==> fresh(bot) && bot.State() == PollState(now, "") && bot.trace == [Send(StartupText)]
  {
    if CheckTokens(env).Some? {
      return null;
    }
    bot := new Bot(now);
  }
}

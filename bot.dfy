/** The bot's main loop: one pass polls the API from the cursor, validates
    the answer, notifies about the newest homework, advances the cursor, and
    turns any error into an alert unless the same alert was the last one
    delivered. The pass is specified by `Step`, a run of passes by `Run`;
    `Poller` keeps the loop's two variables and runs passes in place. */
module Bot {
  import opened Wrappers
  import opened Json
  import opened Errors
  import opened Homework

  /** What the outside world does during one pass: the API call's outcome,
      the clock reading, and how the status and alert sends fare. */
  datatype Tick = Tick(api: ApiOutcome, now: int, statusSend: SendOutcome, alertSend: SendOutcome)

  datatype MessageKind = StatusNote | ErrorAlert

  /** One call of the send wrapper: what was sent and whether it arrived. */
  datatype Attempt = Attempt(kind: MessageKind, text: string, delivered: bool)

  /** What one pass did: the cursor it polled with, the sends it attempted
      in order, and the error it caught, if any. */
  datatype Iteration = Iteration(fromDate: Value, attempts: seq<Attempt>, caught: Option<Error>)

  /** The loop's variables: the cursor and the text of the last alert that
      was delivered. */
  datatype State = State(timestamp: Value, lastErrorMessage: Option<string>)

  /** The state before the first pass, once the tokens have been checked. */
  function Initial(now: int): State
  {
    State(Int(now), None)
  }

  /** How the body of the `try` ended: normally, with the new cursor, or by
      raising; either way after the sends it attempted. */
  datatype TryOutcome =
    | Completed(cursor: Value, attempts: seq<Attempt>)
    | Raised(error: Error, attempts: seq<Attempt>)

  /** The cursor after a good pass: the response's "current_date" when it
      has one (whatever its type), otherwise the clock. */
  function NextCursor(response: Value, now: int): Value
    requires response.Obj?
  {
    if "current_date" in response.fields then response.fields["current_date"] else Int(now)
  }

  /** The `try` body: poll, validate, notify about homeworks[0] if there is
      one, and compute the next cursor. */
  function TryBody(timestamp: Value, tick: Tick): TryOutcome
  {
    match GetApiAnswer(timestamp, tick.api)
    case Err(e) => Raised(e, [])
    case Ok(response) =>
      match CheckResponseAsWritten(response)
      case Fail(e) => Raised(e, [])
      case Pass =>
        var homeworks := response.fields["homeworks"].items;
        if |homeworks| == 0 then Completed(NextCursor(response, tick.now), [])
        else
          match ParseItem(homeworks[0])
          case Err(e) => Raised(e, [])
          case Ok(note) =>
            var sent := Send(tick.statusSend);
            var attempt := Attempt(StatusNote, note, sent.Pass?);
            match sent
            case Fail(e) => Raised(e, [attempt])
            case Pass => Completed(NextCursor(response, tick.now), [attempt])
  }

  /** One pass of the loop, `except` clause included. */
  function Step(s: State, tick: Tick): (State, Iteration)
  {
    match TryBody(s.timestamp, tick)
    case Completed(cursor, attempts) =>
      (State(cursor, s.lastErrorMessage), Iteration(s.timestamp, attempts, None))
    case Raised(e, attempts) =>
      var alert := AlertText(e);
      if Some(alert) == s.lastErrorMessage then
        (s, Iteration(s.timestamp, attempts, Some(e)))
      else
        var delivered := Send(tick.alertSend).Pass?;
        var last := if delivered then Some(alert) else s.lastErrorMessage;
        (State(s.timestamp, last),
         Iteration(s.timestamp, attempts + [Attempt(ErrorAlert, alert, delivered)], Some(e)))
  }

  /** Passes run one after another, with the log of what each did. */
  function Run(s: State, ticks: seq<Tick>): (r: (State, seq<Iteration>))
    ensures |r.1| == |ticks|
    decreases |ticks|
  {
    if ticks == [] then (s, [])
    else
      var (before, log) := Run(s, ticks[..|ticks| - 1]);
      var (after, it) := Step(before, ticks[|ticks| - 1]);
      (after, log + [it])
  }

  // ---------------------------------------------------------------------
  // One pass

  /** The alert sends among a pass's attempts. */
  function Alerts(attempts: seq<Attempt>): (r: seq<Attempt>)
    ensures forall k :: 0 <= k < |r| ==> r[k].kind == ErrorAlert
    ensures |r| <= |attempts|
  {
    if attempts == [] then []
    else (if attempts[0].kind == ErrorAlert then [attempts[0]] else []) + Alerts(attempts[1..])
  }

  /** The status sends among a pass's attempts. */
  function Notes(attempts: seq<Attempt>): (r: seq<Attempt>)
    ensures forall k :: 0 <= k < |r| ==> r[k].kind == StatusNote
    ensures |r| <= |attempts|
  {
    if attempts == [] then []
    else (if attempts[0].kind == StatusNote then [attempts[0]] else []) + Notes(attempts[1..])
  }

  /** The cursor: a pass polls with the current cursor; a pass that caught
      an error leaves it alone; a good pass moves it to the response's
      "current_date", or to the clock when the response has none. */
  lemma StepCursor(s: State, tick: Tick)
    ensures Step(s, tick).1.fromDate == s.timestamp
    ensures Step(s, tick).1.caught.Some? ==> Step(s, tick).0.timestamp == s.timestamp
    ensures Step(s, tick).1.caught.None? ==>
      && GetApiAnswer(s.timestamp, tick.api).Ok?
      && var response := GetApiAnswer(s.timestamp, tick.api).value;
      && response.Obj?
      && Step(s, tick).0.timestamp
         == if "current_date" in response.fields then response.fields["current_date"] else Int(tick.now)
  {
  }

  /** A valid answer with homeworks leads to exactly one status send, of
      the parsed first homework, whatever was sent before: status
      notifications are not deduplicated, and a delivered one does not
      reset the remembered alert. */
  lemma StepNotifiesFirstHomework(s: State, tick: Tick, response: Value)
    requires GetApiAnswer(s.timestamp, tick.api) == Ok(response)
    requires CheckResponseAsWritten(response).Pass?
    requires |response.fields["homeworks"].items| > 0
    requires ParseItem(response.fields["homeworks"].items[0]).Ok?
    ensures var it := Step(s, tick).1;
      && |it.attempts| >= 1
      && it.attempts[0]
         == Attempt(StatusNote, ParseItem(response.fields["homeworks"].items[0]).value, tick.statusSend.Delivered?)
      && Notes(it.attempts) == [it.attempts[0]]
    ensures tick.statusSend.Delivered? ==>
      Step(s, tick).1.caught == None && Step(s, tick).0.lastErrorMessage == s.lastErrorMessage
  {
  }

  /** A valid answer with an empty list sends nothing and changes nothing
      but the cursor. */
  lemma StepEmptyListSendsNothing(s: State, tick: Tick, response: Value)
    requires GetApiAnswer(s.timestamp, tick.api) == Ok(response)
    requires CheckResponseAsWritten(response).Pass?
    requires response.fields["homeworks"].items == []
    ensures Step(s, tick).1 == Iteration(s.timestamp, [], None)
    ensures Step(s, tick).0 == State(NextCursor(response, tick.now), s.lastErrorMessage)
  {
  }

  /** Alert deduplication: an alert is attempted exactly when an error was
      caught and its text differs from the last delivered alert; the
      remembered text changes only when that alert is delivered; a failed
      alert send is swallowed. */
  lemma StepAlertRule(s: State, tick: Tick)
    ensures var (s', it) := Step(s, tick);
      && Alerts(it.attempts)
         == (if it.caught.Some? && Some(AlertText(it.caught.value)) != s.lastErrorMessage
             then [Attempt(ErrorAlert, AlertText(it.caught.value), tick.alertSend.Delivered?)]
             else [])
      && s'.lastErrorMessage
         == (if |Alerts(it.attempts)| == 1 && Alerts(it.attempts)[0].delivered
             then Some(Alerts(it.attempts)[0].text)
             else s.lastErrorMessage)
  {
  }

  /** A status send that fails is itself reported as an error alert (unless
      the same alert was the last one delivered). */
  lemma StepFailedNoteAlerts(s: State, tick: Tick, response: Value)
    requires GetApiAnswer(s.timestamp, tick.api) == Ok(response)
    requires CheckResponseAsWritten(response).Pass?
    requires |response.fields["homeworks"].items| > 0
    requires ParseItem(response.fields["homeworks"].items[0]).Ok?
    requires tick.statusSend.Refused?
    ensures Step(s, tick).1.caught == Some(SendFailed(tick.statusSend.cause))
    ensures Step(s, tick).0.timestamp == s.timestamp
    ensures Some(AlertText(SendFailed(tick.statusSend.cause))) != s.lastErrorMessage ==>
      Step(s, tick).1.attempts[1] == Attempt(ErrorAlert, AlertText(SendFailed(tick.statusSend.cause)), tick.alertSend.Delivered?)
  {
  }

  /** The validator as the program runs it names `dict` in every "not a
      list" error, so after a delivered alert for a string under
      "homeworks", a number under "homeworks" in the next pass raises the
      same text and is not alerted. */
  lemma AsWrittenSuppressesSecondAlert(s: State, tick1: Tick, tick2: Tick, reason1: string, reason2: string)
    requires tick1.api == Answered(HttpOk, reason1, Ok(Obj(map["homeworks" := Str("x")])))
    requires tick2.api == Answered(HttpOk, reason2, Ok(Obj(map["homeworks" := Int(1)])))
    requires tick1.alertSend.Delivered?
    ensures Step(s, tick1).1.caught == Some(HomeworksNotList("<class 'dict'>"))
    ensures Step(Step(s, tick1).0, tick2).1.caught == Some(HomeworksNotList("<class 'dict'>"))
    ensures |Alerts(Step(s, tick1).1.attempts)| + |Alerts(Step(Step(s, tick1).0, tick2).1.attempts)| <= 1
    ensures Alerts(Step(Step(s, tick1).0, tick2).1.attempts) == []
  {
    AsWrittenMisnamesType();
    StepAlertRule(s, tick1);
    StepAlertRule(Step(s, tick1).0, tick2);
  }

  /** The same answer twice is notified twice: unlike alerts, status
      notifications are not compared with what was sent before. */
  lemma RepeatedNoteIsResent(s: State, tick: Tick, response: Value)
    requires tick.api.Answered? && tick.api.code == HttpOk && tick.api.body == Ok(response)
    requires CheckResponseAsWritten(response).Pass?
    requires |response.fields["homeworks"].items| > 0
    requires ParseItem(response.fields["homeworks"].items[0]).Ok?
    requires tick.statusSend.Delivered?
    ensures var note := Attempt(StatusNote, ParseItem(response.fields["homeworks"].items[0]).value, true);
      Step(s, tick).1.attempts == [note] && Step(Step(s, tick).0, tick).1.attempts == [note]
  {
  }

  // ---------------------------------------------------------------------
  // Many passes

  /** Each pass polls with the cursor left by the passes before it. */
  lemma {:induction false} RunPollsFromCursor(s: State, ticks: seq<Tick>, i: nat)
    requires i < |ticks|
    ensures Run(s, ticks).1[i].fromDate == Run(s, ticks[..i]).0.timestamp
    decreases |ticks|
  {
    var front := ticks[..|ticks| - 1];
    if i < |ticks| - 1 {
      RunPollsFromCursor(s, front, i);
      assert front[..i] == ticks[..i];
    } else {
      assert front == ticks[..i];
      StepCursor(Run(s, front).0, ticks[i]);
    }
  }

  /** After a good pass, the next poll asks from exactly the answer's
      "current_date". */
  lemma RunCursorFollowsCurrentDate(s: State, ticks: seq<Tick>, i: nat, reason: string, fields: map<string, Value>)
    requires i + 1 < |ticks|
    requires ticks[i].api == Answered(HttpOk, reason, Ok(Obj(fields)))
    requires "current_date" in fields
    requires Run(s, ticks).1[i].caught.None?
    ensures Run(s, ticks).1[i + 1].fromDate == fields["current_date"]
  {
  }

  /** A prefix of the ticks produces a prefix of the log. */
  lemma {:induction false} RunPrefix(s: State, ticks: seq<Tick>, n: nat)
    requires n <= |ticks|
    ensures Run(s, ticks[..n]).1 == Run(s, ticks).1[..n]
    decreases |ticks|
  {
    if n < |ticks| {
      var front := ticks[..|ticks| - 1];
      RunPrefix(s, front, n);
      assert front[..n] == ticks[..n];
    } else {
      assert ticks[..n] == ticks;
    }
  }

  /** The text of the latest delivered alert in a log, if any. */
  function LastDelivered(log: seq<Iteration>): Option<string>
  {
    if log == [] then None
    else
      var alerts := Alerts(log[|log| - 1].attempts);
      if |alerts| == 1 && alerts[0].delivered then Some(alerts[0].text)
      else LastDelivered(log[..|log| - 1])
  }

  /** The remembered alert is always the latest one delivered (or the
      starting value if none was). */
  lemma {:induction false} RunRemembersLastDelivered(s: State, ticks: seq<Tick>)
    ensures Run(s, ticks).0.lastErrorMessage
      == (if LastDelivered(Run(s, ticks).1).Some? then LastDelivered(Run(s, ticks).1) else s.lastErrorMessage)
    decreases |ticks|
  {
    if ticks != [] {
      var front := ticks[..|ticks| - 1];
      RunRemembersLastDelivered(s, front);
      var log := Run(s, ticks).1;
      assert log[..|log| - 1] == Run(s, front).1;
      StepAlertRule(Run(s, front).0, ticks[|ticks| - 1]);
    }
  }

  /** How many alerts a log attempted. */
  function AlertCount(log: seq<Iteration>): nat
  {
    if log == [] then 0 else AlertCount(log[..|log| - 1]) + |Alerts(log[|log| - 1].attempts)|
  }

  /** Errors with identical text in consecutive passes are alerted once:
      when every pass raises the same text and alerts get through, only the
      first pass alerts (none if that text was already the last alert),
      and the cursor stays where it was. */
  lemma {:induction false} RepeatedErrorAlertedOnce(s: State, ticks: seq<Tick>, text: string)
    requires forall k :: 0 <= k < |ticks| ==>
      TryBody(s.timestamp, ticks[k]).Raised? && AlertText(TryBody(s.timestamp, ticks[k]).error) == text
    requires forall k :: 0 <= k < |ticks| ==> ticks[k].alertSend.Delivered?
    ensures AlertCount(Run(s, ticks).1) == (if ticks == [] || s.lastErrorMessage == Some(text) then 0 else 1)
    ensures Run(s, ticks).0 == (if ticks == [] then s else State(s.timestamp, Some(text)))
    decreases |ticks|
  {
    if ticks != [] {
      var front := ticks[..|ticks| - 1];
      RepeatedErrorAlertedOnce(s, front, text);
      var log := Run(s, ticks).1;
      assert log[..|log| - 1] == Run(s, front).1;
      StepAlertRule(Run(s, front).0, ticks[|ticks| - 1]);
    }
  }

  // ---------------------------------------------------------------------
  // The loop's variables, updated in place

  class Poller {
    var timestamp: Value
    var lastErrorMessage: Option<string>

    function Snapshot(): State
      reads this
    {
      State(timestamp, lastErrorMessage)
    }

    /** The cursor starts at the clock; no alert has been delivered. */
    constructor (now: int)
      ensures Snapshot() == Initial(now)
    {
      timestamp := Int(now);
      lastErrorMessage := None;
    }

    /** One pass of the loop, with the sleep left out. */
    method RunOnce(tick: Tick) returns (it: Iteration)
      modifies this
      ensures (Snapshot(), it) == Step(old(Snapshot()), tick)
    {
      var fromDate := timestamp;
      var attempts: seq<Attempt> := [];
      var caught: Option<Error> := None;
      var answer := GetApiAnswer(timestamp, tick.api);
      if answer.Err? {
        caught := Some(answer.error);
      } else {
        var response := answer.value;
        var check := CheckResponseAsWritten(response);
        if check.Fail? {
          caught := Some(check.error);
        } else {
          var homeworks := response.fields["homeworks"].items;
          if |homeworks| > 0 {
            var parsed := ParseItem(homeworks[0]);
            if parsed.Err? {
              caught := Some(parsed.error);
            } else {
              var sent := Send(tick.statusSend);
              attempts := [Attempt(StatusNote, parsed.value, sent.Pass?)];
              if sent.Fail? {
                caught := Some(sent.error);
              }
            }
          }
          if caught.None? {
            timestamp := NextCursor(response, tick.now);
          }
        }
      }
      if caught.Some? {
        var errorMessage := AlertText(caught.value);
        if Some(errorMessage) != lastErrorMessage {
          var sent := Send(tick.alertSend);
          attempts := attempts + [Attempt(ErrorAlert, errorMessage, sent.Pass?)];
          if sent.Pass? {
            lastErrorMessage := Some(errorMessage);
          }
        }
      }
      it := Iteration(fromDate, attempts, caught);
    }

    /** Passes one after another, as the endless loop runs them. */
    method RunFor(ticks: seq<Tick>) returns (log: seq<Iteration>)
      modifies this
      ensures (Snapshot(), log) == Run(old(Snapshot()), ticks)
    {
      log := [];
      var i := 0;
      while i < |ticks|
        invariant 0 <= i <= |ticks|
        invariant (Snapshot(), log) == Run(old(Snapshot()), ticks[..i])
      {
        var it := RunOnce(ticks[i]);
        assert ticks[..i + 1][..i] == ticks[..i];
        log := log + [it];
        i := i + 1;
      }
      assert ticks[..i] == ticks;
    }
  }

  /** Startup: the tokens are checked first, and a missing one stops the
      bot before the loop; otherwise the loop starts from the clock. */
  method Start(practicum: Option<string>, telegram: Option<string>, chatId: Option<string>, now: int)
    returns (r: Result<Poller, Error>)
    ensures r.Ok? <==> Present(practicum) && Present(telegram) && Present(chatId)
    ensures r.Ok? ==> fresh(r.value) && r.value.Snapshot() == Initial(now)
    ensures r.Err? ==>
      exists k :: 0 <= k < |TokenNames| && r.error == TokenMissing(TokenNames[k])
        && !Present([practicum, telegram, chatId][k])
        && forall j :: 0 <= j < k ==> Present([practicum, telegram, chatId][j])
  {
    var checked := CheckTokens(practicum, telegram, chatId);
    if checked.Fail? {
      return Err(checked.error);
    }
    var poller := new Poller(now);
    return Ok(poller);
  }
}

/** The bot's checks and parsers: the startup token check, the API call's
    status-code rule, the response validator, the status parser and the
    Telegram send wrapper. */
module Homework {
  import opened Wrappers
  import opened Json
  import opened Errors

  // ---------------------------------------------------------------------
  // Startup: check_tokens

  /** The credentials, in the order they are checked. */
  const TokenNames: seq<string> := ["PRACTICUM_TOKEN", "TELEGRAM_TOKEN", "TELEGRAM_CHAT_ID"]

  /** A credential counts as given when it is set and not empty. */
  predicate Present(token: Option<string>)
  {
    token.Some? && token.value != ""
  }

  /** Walks the three credentials in order and fails on the first one that
      is unset or empty, naming it. */
  method CheckTokens(practicum: Option<string>, telegram: Option<string>, chatId: Option<string>)
    returns (r: Outcome<Error>)
    ensures r.Pass? <==> Present(practicum) && Present(telegram) && Present(chatId)
    ensures r.Fail? ==> Class(r.error) == ValueError
    ensures r.Fail? ==>
      exists k :: 0 <= k < |TokenNames| && r.error == TokenMissing(TokenNames[k])
        && !Present([practicum, telegram, chatId][k])
        && forall j :: 0 <= j < k ==> Present([practicum, telegram, chatId][j])
  {
    var tokens := [practicum, telegram, chatId];
    var i := 0;
    while i < |TokenNames|
      invariant 0 <= i <= |TokenNames|
      invariant forall j :: 0 <= j < i ==> Present(tokens[j])
    {
      if !Present(tokens[i]) {
        return Fail(TokenMissing(TokenNames[i]));
      }
      i := i + 1;
    }
    assert Present(tokens[0]) && Present(tokens[1]) && Present(tokens[2]);
    return Pass;
  }

  // ---------------------------------------------------------------------
  // send_message

  /** What the Telegram client did with one message: delivered it, or raised
      an API or transport exception whose text is `cause`. */
  datatype SendOutcome = Delivered | Refused(cause: string)

  /** A failed delivery is re-raised as a RuntimeError carrying the cause. */
  function Send(outcome: SendOutcome): (r: Outcome<Error>)
    ensures r.Pass? <==> outcome.Delivered?
    ensures r.Fail? ==> Class(r.error) == RuntimeError && r.error == SendFailed(outcome.cause)
  {
    match outcome
    case Delivered => Pass
    case Refused(cause) => Fail(SendFailed(cause))
  }

  // ---------------------------------------------------------------------
  // get_api_answer

  const HttpOk: int := 200

  /** What the HTTP request produced: a transport exception, or an answer
      with its status code, reason phrase and decoded body (or the decoder's
      error text when the body is not JSON). */
  datatype ApiOutcome =
    | TransportFailed(cause: string)
    | Answered(code: int, reason: string, body: Result<Value, string>)

  /** The status-code rule of the API call: anything but a 200 answer is a
      connection error; a 200 answer yields its decoded body unchanged. */
  function GetApiAnswer(fromDate: Value, outcome: ApiOutcome): (r: Result<Value, Error>)
    ensures r.Ok? <==> outcome.Answered? && outcome.code == HttpOk && outcome.body.Ok?
    ensures r.Ok? ==> r.value == outcome.body.value
    ensures outcome.TransportFailed? ==> r == Err(ApiUnreachable(outcome.cause, fromDate))
    ensures outcome.Answered? && outcome.code != HttpOk ==> r == Err(ApiBadStatus(outcome.code, outcome.reason))
    ensures outcome.Answered? && outcome.code == HttpOk && outcome.body.Err? ==> r == Err(BodyNotJson(outcome.body.error))
    ensures (outcome.TransportFailed? || outcome.code != HttpOk) ==> Class(r.error) == ConnectionError
  {
    match outcome
    case TransportFailed(cause) => Err(ApiUnreachable(cause, fromDate))
    case Answered(code, reason, body) =>
      if code != HttpOk then Err(ApiBadStatus(code, reason))
      else
        match body
        case Ok(value) => Ok(value)
        case Err(cause) => Err(BodyNotJson(cause))
  }

  /** A refused request's error names the status code and the reason. */
  lemma BadStatusMentionsCode(fromDate: Value, code: int, reason: string, body: Result<Value, string>)
    requires code != HttpOk
    ensures GetApiAnswer(fromDate, Answered(code, reason, body)).Err?
    ensures Mentions(Text(GetApiAnswer(fromDate, Answered(code, reason, body)).error), IntText(code))
    ensures Mentions(Text(GetApiAnswer(fromDate, Answered(code, reason, body)).error), reason)
  {
    var e := ApiBadStatus(code, reason);
    assert Class(e) != KeyError;
    assert Text(e) == BadStatusHead + IntText(code) + (ReasonLabel + reason);
    MentionsMiddle(BadStatusHead, IntText(code), ReasonLabel + reason);
    assert Text(e) == (BadStatusHead + IntText(code) + ReasonLabel) + reason + "";
    MentionsMiddle(BadStatusHead + IntText(code) + ReasonLabel, reason, "");
  }

  /** A failed transport's error names the underlying cause. */
  lemma TransportFailureMentionsCause(fromDate: Value, cause: string)
    ensures Mentions(Text(GetApiAnswer(fromDate, TransportFailed(cause)).error), cause)
  {
    var e := ApiUnreachable(cause, fromDate);
    var head := "Ошибка при запросе к API: ";
    var tail := "Эндпоинт: " + Endpoint + ", Параметры: {'from_date': " + Format(fromDate) + "}";
    assert Class(e) != KeyError;
    assert Text(e) == head + cause + tail;
    MentionsMiddle(head, cause, tail);
  }

  // ---------------------------------------------------------------------
  // check_response

  /** The response validator: a mapping, with a "homeworks" key, whose value
      is a list; checked in that order. A type error names the type of the
      value that has the wrong type. */
  function CheckResponse(response: Value): (r: Outcome<Error>)
    ensures r.Pass? <==> response.Obj? && "homeworks" in response.fields && response.fields["homeworks"].List?
    ensures !response.Obj? ==> r == Fail(ResponseNotMapping(TypeName(response)))
    ensures response.Obj? && "homeworks" !in response.fields ==> r == Fail(HomeworksKeyMissing)
    ensures response.Obj? && "homeworks" in response.fields && !response.fields["homeworks"].List? ==>
      r == Fail(HomeworksNotList(TypeName(response.fields["homeworks"])))
    ensures r.Fail? ==> (Class(r.error) == KeyError <==> response.Obj? && "homeworks" !in response.fields)
    ensures r.Fail? ==> Class(r.error) in {KeyError, TypeError}
  {
    if !response.Obj? then Fail(ResponseNotMapping(TypeName(response)))
    else if "homeworks" !in response.fields then Fail(HomeworksKeyMissing)
    else if !response.fields["homeworks"].List? then Fail(HomeworksNotList(TypeName(response.fields["homeworks"])))
    else Pass
  }

  /** The validator as written: its last type error reports the type of the
      whole response, which at that point is always a dict. */
  function CheckResponseAsWritten(response: Value): (r: Outcome<Error>)
    ensures r.Pass? <==> CheckResponse(response).Pass?
    ensures r.Fail? && r.error.HomeworksNotList? ==> r.error.typeName == "<class 'dict'>"
    ensures !response.Obj? ==> r == Fail(ResponseNotMapping(TypeName(response)))
    ensures response.Obj? && "homeworks" !in response.fields ==> r == Fail(HomeworksKeyMissing)
    ensures response.Obj? && "homeworks" in response.fields && !response.fields["homeworks"].List? ==>
      r == Fail(HomeworksNotList("<class 'dict'>"))
  {
    if !response.Obj? then Fail(ResponseNotMapping(TypeName(response)))
    else if "homeworks" !in response.fields then Fail(HomeworksKeyMissing)
    else if !response.fields["homeworks"].List? then Fail(HomeworksNotList(TypeName(response)))
    else Pass
  }

  /** As written, "homeworks" holding a string and "homeworks" holding a
      number raise the same text, so the second alert is suppressed; the
      text also names the wrong type. */
  lemma AsWrittenMisnamesType()
    ensures CheckResponseAsWritten(Obj(map["homeworks" := Str("x")])) == Fail(HomeworksNotList("<class 'dict'>"))
    ensures CheckResponseAsWritten(Obj(map["homeworks" := Int(1)])) == Fail(HomeworksNotList("<class 'dict'>"))
    ensures TypeName(Str("x")) != "<class 'dict'>"
  {
  }

  /** Corrected, a "homeworks" value of another class raises another alert
      text. */
  lemma CheckResponseTellsTypesApart(fields1: map<string, Value>, fields2: map<string, Value>)
    requires "homeworks" in fields1 && !fields1["homeworks"].List?
    requires "homeworks" in fields2 && !fields2["homeworks"].List?
    requires ClassName(fields1["homeworks"]) != ClassName(fields2["homeworks"])
    ensures CheckResponse(Obj(fields1)).Fail? && CheckResponse(Obj(fields2)).Fail?
    ensures AlertText(CheckResponse(Obj(fields1)).error) != AlertText(CheckResponse(Obj(fields2)).error)
  {
    var e1, e2 := CheckResponse(Obj(fields1)).error, CheckResponse(Obj(fields2)).error;
    var c1, c2 := ClassName(fields1["homeworks"]), ClassName(fields2["homeworks"]);
    var head := "Данные под ключом \"homeworks\" должны быть списком, получен тип: ";
    var t1, t2 := TypeName(fields1["homeworks"]), TypeName(fields2["homeworks"]);
    assert Class(e1) != KeyError && Class(e2) != KeyError;
    assert Text(e1) == head + t1 + "";
    assert Text(e2) == head + t2 + "";
    AlertTextMatchesText(e1, e2);
    if Text(e1) == Text(e2) {
      CancelAround(head, t1, t2, "");
      CancelAround("<class '", c1, c2, "'>");
    }
  }

  /** The validator on sample answers: an empty mapping lacks the key, a
      string under "homeworks" is a type error, and an empty list passes
      without "current_date". */
  lemma CheckResponseExamples()
    ensures CheckResponse(Obj(map[])) == Fail(HomeworksKeyMissing)
    ensures CheckResponse(Obj(map["homeworks" := Str("not-a-list"), "current_date" := Int(1)])).Fail?
    ensures Class(CheckResponse(Obj(map["homeworks" := Str("not-a-list"), "current_date" := Int(1)])).error) == TypeError
    ensures CheckResponse(Obj(map["homeworks" := List([])])) == Pass
    ensures CheckResponse(List([])) == Fail(ResponseNotMapping(TypeName(List([]))))
  {
  }

  // ---------------------------------------------------------------------
  // parse_status

  const Verdicts: map<string, string> := map[
    "approved" := "Работа проверена: ревьюеру всё понравилось. Ура!",
    "reviewing" := "Работа взята на проверку ревьюером.",
    "rejected" := "Работа проверена: у ревьюера есть замечания."
  ]

  const NoteHead: string := "Изменился статус проверки работы \""
  const NoteJoin: string := "\". "

  /** The notification for one homework record: its name must be there
      (checked first), then its status, and the status must be one of the
      three with a verdict. */
  function ParseStatus(homework: map<string, Value>): (r: Result<string, Error>)
    ensures r.Ok? <==>
      "homework_name" in homework && "status" in homework
      && homework["status"].Str? && homework["status"].s in Verdicts
    ensures "homework_name" !in homework ==> r == Err(NameKeyMissing)
    ensures "homework_name" in homework && "status" !in homework ==> r == Err(StatusKeyMissing)
    ensures "homework_name" in homework && "status" in homework ==>
      (homework["status"].Str? && homework["status"].s !in Verdicts ==> r == Err(UnexpectedStatus(homework["status"].s)))
    ensures "homework_name" in homework && "status" in homework ==>
      (homework["status"].Null? || homework["status"].Bool? || homework["status"].Int? ==>
         r == Err(UnexpectedStatus(Format(homework["status"]))))
    ensures "homework_name" in homework && "status" in homework ==>
      (homework["status"].List? || homework["status"].Obj? ==>
         r == Err(StatusUnhashable(ClassName(homework["status"]))))
    ensures r.Err? ==> Class(r.error) in {KeyError, ValueError, TypeError}
  {
    if "homework_name" !in homework then Err(NameKeyMissing)
    else
      var name := homework["homework_name"];
      if "status" !in homework then Err(StatusKeyMissing)
      else
        var status := homework["status"];
        match status
        case Str(s) =>
          if s in Verdicts then Ok(NoteHead + Format(name) + NoteJoin + Verdicts[s])
          else Err(UnexpectedStatus(s))
        case List(_) => Err(StatusUnhashable(ClassName(status)))
        case Obj(_) => Err(StatusUnhashable(ClassName(status)))
        case _ => Err(UnexpectedStatus(Format(status)))
  }

  /** `note` reads as a notification carrying the verdict of `status`. */
  predicate IsNoteFor(note: string, status: string)
    requires status in Verdicts
  {
    var tail := NoteJoin + Verdicts[status];
    && |NoteHead| + |tail| <= |note|
    && note[..|NoteHead|] == NoteHead
    && note[|note| - |tail|..] == tail
  }

  /** The rendered homework name inside a notification for `status`. */
  function NameIn(note: string, status: string): string
    requires status in Verdicts && IsNoteFor(note, status)
  {
    note[|NoteHead|..|note| - |NoteJoin + Verdicts[status]|]
  }

  /** Reads a notification back into the rendered name and the status. */
  function ReadNote(note: string): Option<(string, string)>
  {
    if IsNoteFor(note, "approved") then Some((NameIn(note, "approved"), "approved"))
    else if IsNoteFor(note, "reviewing") then Some((NameIn(note, "reviewing"), "reviewing"))
    else if IsNoteFor(note, "rejected") then Some((NameIn(note, "rejected"), "rejected"))
    else None
  }

  /** No text is a notification for two different statuses: the verdicts
      end differently. */
  lemma NoteForOneStatus(note: string, status1: string, status2: string)
    requires status1 in Verdicts && status2 in Verdicts
    requires IsNoteFor(note, status1) && IsNoteFor(note, status2)
    ensures status1 == status2
  {
    var v1, v2 := Verdicts[status1], Verdicts[status2];
    var n := |note|;
    assert note[n - 1] == v1[|v1| - 1] == v2[|v2| - 1] by {
      assert note[n - |NoteJoin + v1|..][|NoteJoin + v1| - 1] == note[n - 1];
      assert note[n - |NoteJoin + v2|..][|NoteJoin + v2| - 1] == note[n - 1];
    }
    assert note[n - 2] == v1[|v1| - 2] == v2[|v2| - 2] by {
      assert note[n - |NoteJoin + v1|..][|NoteJoin + v1| - 2] == note[n - 2];
      assert note[n - |NoteJoin + v2|..][|NoteJoin + v2| - 2] == note[n - 2];
    }
  }

  /** A notification can be read back: it carries the record's rendered
      name and its status. */
  lemma ReadNoteAfterParseStatus(homework: map<string, Value>)
    requires ParseStatus(homework).Ok?
    ensures ReadNote(ParseStatus(homework).value)
      == Some((Format(homework["homework_name"]), homework["status"].s))
  {
    var note := ParseStatus(homework).value;
    var name, status := Format(homework["homework_name"]), homework["status"].s;
    var tail := NoteJoin + Verdicts[status];
    assert note == NoteHead + name + tail;
    assert note[..|NoteHead|] == NoteHead;
    assert note[|note| - |tail|..] == tail;
    assert IsNoteFor(note, status);
    assert NameIn(note, status) == name;
    if IsNoteFor(note, "approved") {
      NoteForOneStatus(note, "approved", status);
    } else if IsNoteFor(note, "reviewing") {
      NoteForOneStatus(note, "reviewing", status);
    }
  }

  /** The notification for an approved homework named hw1, in full (the
      text is written in the pieces of the f-string that builds it). */
  lemma ParseStatusApprovedNote()
    ensures ParseStatus(map["homework_name" := Str("hw1"), "status" := Str("approved")])
      == Ok("Изменился статус проверки работы \"" + "hw1" + "\". "
            + "Работа проверена: ревьюеру всё понравилось. Ура!")
  {
  }

  /** Keys other than the name and the status do not affect the result. */
  lemma ParseStatusReadsTwoKeys(homework: map<string, Value>, key: string, value: Value)
    requires key != "homework_name" && key != "status"
    ensures ParseStatus(homework[key := value]) == ParseStatus(homework)
  {
  }

  /** The first homework of a response: only a mapping can be parsed. */
  function ParseItem(homework: Value): (r: Result<string, Error>)
    ensures homework.Obj? ==> r == ParseStatus(homework.fields)
    ensures !homework.Obj? ==> r.Err? && Class(r.error) == TypeError
  {
    match homework
    case Obj(fields) => ParseStatus(fields)
    case _ => Err(HomeworkNotMapping(ClassName(homework)))
  }
}

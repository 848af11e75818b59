/** The exceptions the bot raises or receives, and their texts as
    `str(error)` renders them. */
module Errors {
  import opened Json

  const Endpoint: string := "https://practicum.yandex.ru/api/user_api/homework_statuses/"

  /** The Python exception class an error is raised as. */
  datatype ExceptionClass =
    | ValueError
    | TypeError
    | KeyError
    | ConnectionError
    | RuntimeError

  /** Every failure the bot can meet, with the data its message carries. */
  datatype Error =
    | TokenMissing(name: string)
    | ApiUnreachable(cause: string, fromDate: Value)
    | ApiBadStatus(code: int, reason: string)
    | BodyNotJson(cause: string)
    | ResponseNotMapping(typeName: string)
    | HomeworksKeyMissing
    | HomeworksNotList(typeName: string)
    | HomeworkNotMapping(className: string)
    | NameKeyMissing
    | StatusKeyMissing
    | StatusUnhashable(className: string)
    | UnexpectedStatus(shown: string)
    | SendFailed(cause: string)

  function Class(e: Error): ExceptionClass
  {
    match e
    case TokenMissing(_) => ValueError
    case ApiUnreachable(_, _) => ConnectionError
    case ApiBadStatus(_, _) => ConnectionError
    case BodyNotJson(_) => ValueError
    case ResponseNotMapping(_) => TypeError
    case HomeworksKeyMissing => KeyError
    case HomeworksNotList(_) => TypeError
    case HomeworkNotMapping(_) => TypeError
    case NameKeyMissing => KeyError
    case StatusKeyMissing => KeyError
    case StatusUnhashable(_) => TypeError
    case UnexpectedStatus(_) => ValueError
    case SendFailed(_) => RuntimeError
  }

  const BadStatusHead: string := "Эндпоинт " + Endpoint + " недоступен.Код ответа: "
  const ReasonLabel: string := "Причина: "

  /** The argument the exception was constructed with. */
  function Message(e: Error): string
  {
    match e
    case TokenMissing(name) => "Не указан токен " + name
    case ApiUnreachable(cause, fromDate) =>
      "Ошибка при запросе к API: " + cause + "Эндпоинт: " + Endpoint
      + ", Параметры: {'from_date': " + Format(fromDate) + "}"
    case ApiBadStatus(code, reason) =>
      BadStatusHead + IntText(code) + (ReasonLabel + reason)
    case BodyNotJson(cause) => cause
    case ResponseNotMapping(typeName) =>
      "Ответ от API должен быть словарем, получен тип: " + typeName
    case HomeworksKeyMissing => "Отсутствие ожидаемых ключей в ответе API"
    case HomeworksNotList(typeName) =>
      "Данные под ключом \"homeworks\" должны быть списком, получен тип: " + typeName
    case HomeworkNotMapping(className) => "argument of type '" + className + "' is not iterable"
    case NameKeyMissing => "Отсутствие ключа \"homework_name\" в ответе API"
    case StatusKeyMissing => "Отсутствие ключа \"status\" в ответе API"
    case StatusUnhashable(className) => "unhashable type: '" + className + "'"
    case UnexpectedStatus(shown) => "Неожиданный статус домашней работы: " + shown
    case SendFailed(cause) => "Ошибка при отправке сообщения в Telegram: " + cause
  }

  /** `str(error)`: a KeyError shows its argument quoted (none of the bot's
      KeyError messages contains a single quote), every other class shows
      it as is. */
  function Text(e: Error): string
  {
    if Class(e) == KeyError then "'" + Message(e) + "'" else Message(e)
  }

  const AlertPrefix: string := "Возникла ошибка: "

  /** The alert the main loop sends for an error it caught. */
  function AlertText(e: Error): string
  {
    AlertPrefix + Text(e)
  }

  /** Two alerts are equal exactly when the errors' texts are: the loop's
      deduplication compares nothing else. */
  lemma AlertTextMatchesText(e1: Error, e2: Error)
    ensures AlertText(e1) == AlertText(e2) <==> Text(e1) == Text(e2)
  {
    if AlertText(e1) == AlertText(e2) {
      assert Text(e1) == AlertText(e1)[|AlertPrefix|..];
      assert Text(e2) == AlertText(e2)[|AlertPrefix|..];
    }
  }

  /** A rendered integer followed by a non-digit can be read back. */
  lemma DelimitedNumber(x: int, y: int, rest1: string, rest2: string)
    requires |rest1| > 0 && !IsDigit(rest1[0])
    requires |rest2| > 0 && !IsDigit(rest2[0])
    requires IntText(x) + rest1 == IntText(y) + rest2
    ensures x == y
  {
    var s := IntText(x) + rest1;
    var tx, ty := IntText(x), IntText(y);
    NotShorter(x, y, rest1, rest2);
    NotShorter(y, x, rest2, rest1);
    assert tx == s[..|tx|] == ty;
    IntTextInjective(x, y);
  }

  lemma NotShorter(x: int, y: int, rest1: string, rest2: string)
    requires |rest1| > 0 && !IsDigit(rest1[0])
    requires IntText(x) + rest1 == IntText(y) + rest2
    ensures |IntText(x)| >= |IntText(y)|
  {
    var s, tx, ty := IntText(x) + rest1, IntText(x), IntText(y);
    if |tx| < |ty| {
      assert s[|tx|] == rest1[0];
    }
  }

  lemma BadStatusAlertShape(code: int, reason: string)
    ensures AlertText(ApiBadStatus(code, reason)) == (AlertPrefix + BadStatusHead) + (IntText(code) + (ReasonLabel + reason))
  {
    var e := ApiBadStatus(code, reason);
    assert Class(e) != KeyError;
    assert Text(e) == BadStatusHead + IntText(code) + (ReasonLabel + reason);
    Regroup(AlertPrefix, BadStatusHead, IntText(code), ReasonLabel + reason);
  }

  lemma Regroup(a: string, b: string, c: string, d: string)
    ensures a + (b + c + d) == (a + b) + (c + d)
  {
  }

  /** Answers with different HTTP status codes raise errors with different
      texts, whatever their reason phrases, so neither alert suppresses the
      other. */
  lemma BadStatusAlertsDiffer(code1: int, reason1: string, code2: int, reason2: string)
    requires code1 != code2
    ensures AlertText(ApiBadStatus(code1, reason1)) != AlertText(ApiBadStatus(code2, reason2))
  {
    var head := AlertPrefix + BadStatusHead;
    var tail1, tail2 := ReasonLabel + reason1, ReasonLabel + reason2;
    var a1 := AlertText(ApiBadStatus(code1, reason1));
    var a2 := AlertText(ApiBadStatus(code2, reason2));
    BadStatusAlertShape(code1, reason1);
    BadStatusAlertShape(code2, reason2);
    if a1 == a2 {
      assert a1[|head|..] == IntText(code1) + tail1;
      assert a2[|head|..] == IntText(code2) + tail2;
      assert tail1[0] == ReasonLabel[0] == tail2[0];
      DelimitedNumber(code1, code2, tail1, tail2);
    }
  }
}

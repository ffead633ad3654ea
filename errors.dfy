/** The exceptions the bot raises and catches, as one error-kind datatype,
    with the text `str(error)` gives for each. */
module Errors {
  import opened Decimal

  datatype Option<+T> = None | Some(value: T)

  datatype Error =
    | TokenNotFound(variable: string)   // a required environment value is None
    | ApiErr(code: int)                 // the review API answered with a status other than 200
    | RequestErr(detail: string)        // the HTTP request itself raised
    | TypeErr                           // the response body has an unexpected shape
    | NoUpdate                          // the homework list is empty (HomeworkNotFound)
    | KeyErr(field: string)             // a record lacks homework_name or status
    | ValueErr                          // a record's status is not a known verdict key
    | AttributeErr(typeName: string)    // a record is not a dict, so it has no .get
    | UnhashableErr(typeName: string)   // a record's status is a list or dict

  datatype Result<+T> = Ok(value: T) | Err(error: Error)

  /** The outcome of a check that returns nothing on success. */
  datatype Outcome = Pass | Fail(error: Error)

  const MissingVariablePrefix := "Отсутствует обязательная переменная окружения "
  const ApiErrPrefix := "Ошибка API вернул код "
  const KeyErrPrefix := "'Отсутсвует "

  /** `str(error)` for each kind. A KeyError prints the repr of its
      argument, hence the surrounding quotes; get_api_answer re-raises its
      inner error with "Ошибка " in front. */
  function ErrorText(e: Error): string {
    match e
    case TokenNotFound(v) => MissingVariablePrefix + v
    case ApiErr(code) => ApiErrPrefix + IntToString(code)
    case RequestErr(d) => "Ошибка " + d
    case TypeErr => "Неожиданный тип данных"
    case NoUpdate => "Отсутствует обновление статуса"
    case KeyErr(f) => KeyErrPrefix + f + "'"
    case ValueErr => "Неожиданный статус домашней работы"
    case AttributeErr(t) => "'" + t + "' object has no attribute 'get'"
    case UnhashableErr(t) => "unhashable type: '" + t + "'"
  }

  /** The status code can be read back from the text of an API error. */
  lemma ApiErrTextNamesCode(code: int)
    ensures var t := ErrorText(ApiErr(code));
      |t| > |ApiErrPrefix| && t[..|ApiErrPrefix|] == ApiErrPrefix
    ensures var digits := ErrorText(ApiErr(code))[|ApiErrPrefix|..];
      |digits| >= 1 && (AllDigits(digits) || (digits[0] == '-' && AllDigits(digits[1..])))
      && ParseInt(digits) == code
  {
    var t := ErrorText(ApiErr(code));
    assert t[|ApiErrPrefix|..] == IntToString(code);
    IntToStringRoundTrip(code);
  }
}

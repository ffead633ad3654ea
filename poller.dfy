/** One iteration of the bot's polling loop and its specification: which
    messages a cycle hands to the bot, in which order, given the answer the
    review API gave. */
module Poller {
  import opened Json
  import opened Errors
  import opened Homework

  const FailurePrefix := "Сбой в работе программы: "

  /** The message the loop sends for an error it caught. */
  function FailureMessage(e: Error): string {
    FailurePrefix + ErrorText(e)
  }

  predicate IsFailureMessage(m: string) {
    |m| >= |FailurePrefix| && m[..|FailurePrefix|] == FailurePrefix
  }

  /** No status notification can be taken for a failure report. */
  lemma StatusMessageIsNotFailure(name: string, verdict: string)
    ensures !IsFailureMessage(StatusMessage(name, verdict))
  {
    var m := StatusMessage(name, verdict);
    assert m[0] == 'И' && FailurePrefix[0] == 'С';
  }

  lemma FailureMessageIsFailure(e: Error)
    ensures IsFailureMessage(FailureMessage(e))
  {
    assert FailureMessage(e)[..|FailurePrefix|] == FailurePrefix;
  }

  // ---------------------------------------------------------------------
  // The `for homework in homeworks` loop as a function

  /** The notifications a batch of records yields before the first record
      that fails to format, and that record's error if there is one. */
  datatype BatchResult = BatchResult(sent: seq<string>, failure: Option<Error>)

  /** Formats the records in order with `format` (parse_status in the
      loop), stopping at the first error. */
  function Batch(format: Json -> Result<string>, homeworks: seq<Json>): BatchResult
  {
    if homeworks == [] then BatchResult([], None)
    else match format(homeworks[0])
      case Err(e) => BatchResult([], Some(e))
      case Ok(m) =>
        var rest := Batch(format, homeworks[1..]);
        BatchResult([m] + rest.sent, rest.failure)
  }

  /** The position of the first record `format` rejects; the length of the
      list when it rejects none. */
  function FirstFailure(format: Json -> Result<string>, homeworks: seq<Json>): (k: nat)
    ensures k <= |homeworks|
    ensures forall j :: 0 <= j < k ==> format(homeworks[j]).Ok?
    ensures k < |homeworks| ==> format(homeworks[k]).Err?
  {
    if homeworks == [] || format(homeworks[0]).Err? then 0
    else 1 + FirstFailure(format, homeworks[1..])
  }

  /** The batch formats the records in order up to the first failure. */
  lemma {:induction false} BatchSpec(format: Json -> Result<string>, homeworks: seq<Json>)
    ensures var b := Batch(format, homeworks);
      |b.sent| == FirstFailure(format, homeworks) &&
      (forall i :: 0 <= i < |b.sent| ==> format(homeworks[i]) == Ok(b.sent[i])) &&
      (b.failure.None? <==> |b.sent| == |homeworks|) &&
      (b.failure.Some? ==> format(homeworks[|b.sent|]) == Err(b.failure.value))
  {
    if homeworks != [] && format(homeworks[0]).Ok? {
      BatchSpec(format, homeworks[1..]);
    }
  }

  /** The loop's messages: each record's notification, in list order, up to
      the first record that fails, then exactly one report of its error. */
  lemma BatchMessagesSpec(format: Json -> Result<string>, homeworks: seq<Json>)
    ensures var msgs := BatchMessages(format, homeworks);
      var k := FirstFailure(format, homeworks);
      |msgs| == (if k < |homeworks| then k + 1 else k) &&
      (forall i :: 0 <= i < k ==> msgs[i] == format(homeworks[i]).value) &&
      (k < |homeworks| ==> msgs[k] == FailureMessage(format(homeworks[k]).error))
  {
    BatchSpec(format, homeworks);
  }

  /** A batch that got through `a` continues with `b`. */
  lemma {:induction false} BatchAppend(format: Json -> Result<string>, a: seq<Json>, b: seq<Json>)
    requires Batch(format, a).failure.None?
    ensures Batch(format, a + b) ==
            BatchResult(Batch(format, a).sent + Batch(format, b).sent, Batch(format, b).failure)
    decreases |a|
  {
    if a == [] {
      assert a + b == b;
    } else {
      assert (a + b)[0] == a[0];
      assert (a + b)[1..] == a[1..] + b;
      BatchAppend(format, a[1..], b);
      var m := format(a[0]).value;
      assert Batch(format, a).sent == [m] + Batch(format, a[1..]).sent;
      assert [m] + (Batch(format, a[1..]).sent + Batch(format, b).sent)
          == [m] + Batch(format, a[1..]).sent + Batch(format, b).sent;
    }
  }

  /** Once a record has failed, the records after it are not looked at. */
  lemma {:induction false} BatchStopsAtFailure(format: Json -> Result<string>, a: seq<Json>, b: seq<Json>)
    requires Batch(format, a).failure.Some?
    ensures Batch(format, a + b) == Batch(format, a)
    decreases |a|
  {
    assert a != [];
    assert (a + b)[0] == a[0];
    if format(a[0]).Ok? {
      assert (a + b)[1..] == a[1..] + b;
      BatchStopsAtFailure(format, a[1..], b);
    }
  }

  /** One more record formatted. */
  lemma BatchStep(format: Json -> Result<string>, homeworks: seq<Json>, i: nat)
    requires i < |homeworks| && Batch(format, homeworks[..i]).failure.None?
    requires format(homeworks[i]).Ok?
    ensures Batch(format, homeworks[..i + 1]) ==
            BatchResult(Batch(format, homeworks[..i]).sent + [format(homeworks[i]).value], None)
  {
    assert homeworks[..i + 1] == homeworks[..i] + [homeworks[i]];
    BatchAppend(format, homeworks[..i], [homeworks[i]]);
  }

  /** The record at `i` fails: what was sent so far, then its report. */
  lemma BatchMessagesAtFailure(format: Json -> Result<string>, homeworks: seq<Json>, i: nat)
    requires i < |homeworks| && Batch(format, homeworks[..i]).failure.None?
    requires format(homeworks[i]).Err?
    ensures BatchMessages(format, homeworks) ==
            Batch(format, homeworks[..i]).sent + [FailureMessage(format(homeworks[i]).error)]
  {
    assert homeworks[..i + 1] == homeworks[..i] + [homeworks[i]];
    BatchAppend(format, homeworks[..i], [homeworks[i]]);
    assert homeworks == homeworks[..i + 1] + homeworks[i + 1..];
    BatchStopsAtFailure(format, homeworks[..i + 1], homeworks[i + 1..]);
  }

  /** Every record formatted: nothing is reported. */
  lemma BatchMessagesComplete(format: Json -> Result<string>, homeworks: seq<Json>)
    requires Batch(format, homeworks[..|homeworks|]).failure.None?
    ensures BatchMessages(format, homeworks) == Batch(format, homeworks[..|homeworks|]).sent
  {
    assert homeworks[..|homeworks|] == homeworks;
  }

  // ---------------------------------------------------------------------
  // One cycle of the loop body

  /** Every message one cycle sends, given what the API call returned. */
  function CycleMessages(answer: HttpAnswer): seq<string> {
    match GetApiAnswer(answer)
    case Err(e) => [FailureMessage(e)]
    case Ok(body) =>
      match CheckResponse(body)
      case Err(NoUpdate) => []
      case Err(e) => [FailureMessage(e)]
      case Ok(homeworks) =>
        BatchMessages(ParseStatus, homeworks)
  }

  /** What the record loop sends: the formatted records, then the failure
      report of the record that stopped it, if one did. */
  function BatchMessages(format: Json -> Result<string>, homeworks: seq<Json>): seq<string> {
    var b := Batch(format, homeworks);
    b.sent + if b.failure.Some? then [FailureMessage(b.failure.value)] else []
  }

  /** The cycle catches an error: the request, the body's shape or one of
      the records went wrong (a "no update" is not a failure). */
  predicate CycleFails(answer: HttpAnswer) {
    match GetApiAnswer(answer)
    case Err(_) => true
    case Ok(body) =>
      match CheckResponse(body)
      case Err(e) => e != NoUpdate
      case Ok(homeworks) => FirstFailure(ParseStatus, homeworks) < |homeworks|
  }

  /** A non-200 answer sends exactly one failure report naming the code. */
  lemma CycleApiError(code: int, body: Json)
    requires code != 200
    ensures CycleMessages(Response(code, body)) ==
            [FailurePrefix + ApiErrPrefix + Decimal.IntToString(code)]
  {
    var digits := Decimal.IntToString(code);
    assert ErrorText(ApiErr(code)) == ApiErrPrefix + digits;
    assert FailureMessage(ApiErr(code)) == FailurePrefix + (ApiErrPrefix + digits);
    assert FailurePrefix + (ApiErrPrefix + digits) == FailurePrefix + ApiErrPrefix + digits;
  }

  /** An empty homework list sends nothing. */
  lemma CycleNoUpdate(body: Json)
    requires CheckResponse(body) == Err(NoUpdate)
    ensures CycleMessages(Response(200, body)) == []
  {
  }

  /** A body of the wrong shape sends exactly one failure report. */
  lemma CycleMalformedBody(body: Json)
    requires CheckResponse(body) == Err(TypeErr)
    ensures CycleMessages(Response(200, body)) == [FailurePrefix + "Неожиданный тип данных"]
  {
  }

  /** For a valid list: the records' notifications in list order up to the
      first record that fails, then one failure report for that record; the
      whole list when none fails. */
  lemma CycleFormatsInOrder(body: Json, homeworks: seq<Json>)
    requires CheckResponse(body) == Ok(homeworks)
    ensures var msgs := CycleMessages(Response(200, body));
      var k := FirstFailure(ParseStatus, homeworks);
      |msgs| == (if k < |homeworks| then k + 1 else k) &&
      (forall i :: 0 <= i < k ==> msgs[i] == ParseStatus(homeworks[i]).value) &&
      (k < |homeworks| ==> msgs[k] == FailureMessage(ParseStatus(homeworks[k]).error))
  {
    BatchMessagesSpec(ParseStatus, homeworks);
  }

  /** A formatted record never reads as a failure report. */
  lemma ParsedIsNotFailure(homework: Json)
    requires ParseStatus(homework).Ok?
    ensures !IsFailureMessage(ParseStatus(homework).value)
  {
    StatusMessageIsNotFailure(Str(Get(homework.fields, NameKey)), Verdicts[Get(homework.fields, StatusKey).s]);
  }

  /** A cycle sends a failure report exactly when it fails, and then only
      one, as its last message. */
  lemma CycleReportsFailureOnce(answer: HttpAnswer)
    ensures var msgs := CycleMessages(answer);
      CycleFails(answer) <==> |msgs| > 0 && IsFailureMessage(msgs[|msgs| - 1])
    ensures var msgs := CycleMessages(answer);
      forall i :: 0 <= i < |msgs| - 1 ==> !IsFailureMessage(msgs[i])
  {
    match GetApiAnswer(answer)
    case Err(e) =>
      FailureMessageIsFailure(e);
    case Ok(body) =>
      match CheckResponse(body)
      case Err(e) =>
        if e != NoUpdate {
          FailureMessageIsFailure(e);
        }
      case Ok(homeworks) =>
        var msgs := CycleMessages(answer);
        var k := FirstFailure(ParseStatus, homeworks);
        BatchMessagesSpec(ParseStatus, homeworks);
        forall i | 0 <= i < k ensures !IsFailureMessage(msgs[i]) {
          ParsedIsNotFailure(homeworks[i]);
        }
        if k < |homeworks| {
          FailureMessageIsFailure(ParseStatus(homeworks[k]).error);
        } else if k > 0 {
          ParsedIsNotFailure(homeworks[k - 1]);
        }
  }

  // ---------------------------------------------------------------------
  // Several cycles

  /** The messages of consecutive cycles, one answer per cycle. */
  function AllMessages(answers: seq<HttpAnswer>): seq<string> {
    if answers == [] then [] else AllMessages(answers[..|answers| - 1]) + CycleMessages(answers[|answers| - 1])
  }

  /** The cycles are independent: the messages of a run are those of its
      first part followed by those of the rest. */
  lemma {:induction false} AllMessagesAppend(first: seq<HttpAnswer>, rest: seq<HttpAnswer>)
    ensures AllMessages(first + rest) == AllMessages(first) + AllMessages(rest)
    decreases |rest|
  {
    if rest == [] {
      assert first + rest == first;
    } else {
      var last := rest[|rest| - 1];
      var init := rest[..|rest| - 1];
      assert (first + rest)[..|first + rest| - 1] == first + init;
      assert (first + rest)[|first + rest| - 1] == last;
      AllMessagesAppend(first, init);
    }
  }

  /** Nothing suppresses a repeated message: the same answer in two cycles
      sends the cycle's messages twice, whatever kind of answer it is. */
  lemma RepeatedAnswerIsResent(answer: HttpAnswer)
    ensures AllMessages([answer, answer]) == CycleMessages(answer) + CycleMessages(answer)
  {
    assert [answer, answer][..1] == [answer];
    assert [answer][..0] == [];
    assert AllMessages([answer]) == AllMessages([]) + CycleMessages(answer);
  }

  /** The same failing answer twice reports the failure twice. */
  lemma RepeatedFailureIsResent(code: int, body: Json)
    requires code != 200
    ensures var m := FailureMessage(ApiErr(code));
      AllMessages([Response(code, body), Response(code, body)]) == [m, m]
  {
    RepeatedAnswerIsResent(Response(code, body));
  }

  // ---------------------------------------------------------------------
  // The loop's state

  /** The state `main` keeps across cycles: the cursor sent as `from_date`
      and, standing for the bot, every message handed to it. */
  class Poller {
    var timestamp: int
    var outbox: seq<string>
    var queries: seq<int>   // the `from_date` of every API request made

    /** Every request so far asked from the same cursor. */
    ghost predicate Valid()
      reads this
    {
      forall i :: 0 <= i < |queries| ==> queries[i] == timestamp
    }

    /** The state right after `timestamp = int(time.time())`, with `now`
        the clock reading. */
    constructor (now: int)
      ensures Valid()
      ensures timestamp == now && outbox == [] && queries == []
    {
      timestamp := now;
      outbox := [];
      queries := [];
    }

    /** send_message: hands the text to the bot; a delivery failure is
        swallowed, so the call always returns. */
    method SendMessage(message: string)
      modifies this`outbox
      ensures outbox == old(outbox) + [message]
    {
      outbox := outbox + [message];
    }

    /** One pass of the loop body: query, validate, send the formatted
        records in order and report the first error caught. */
    method Cycle(answer: HttpAnswer)
      requires Valid()
      modifies this`outbox, this`queries
      ensures Valid()
      ensures timestamp == old(timestamp)
      ensures queries == old(queries) + [timestamp]
      ensures outbox == old(outbox) + CycleMessages(answer)
    {
      queries := queries + [timestamp];
      var response := GetApiAnswer(answer);
      if response.Err? {
        SendMessage(FailureMessage(response.error));
        return;
      }
      var checked := CheckResponse(response.value);
      if checked.Err? {
        if checked.error != NoUpdate {
          SendMessage(FailureMessage(checked.error));
        }
        return;
      }
      SendBatch(checked.value);
    }

    /** The `for homework in homeworks` loop: formats and sends each record
        in turn; the first record that fails ends the loop and its error is
        reported instead. */
    method SendBatch(homeworks: seq<Json>)
      modifies this`outbox
      ensures outbox == old(outbox) + BatchMessages(ParseStatus, homeworks)
    {
      var i := 0;
      while i < |homeworks|
        invariant 0 <= i <= |homeworks|
        invariant Batch(ParseStatus, homeworks[..i]).failure.None?
        invariant outbox == old(outbox) + Batch(ParseStatus, homeworks[..i]).sent
      {
        var parsed := ParseStatus(homeworks[i]);
        if parsed.Err? {
          BatchMessagesAtFailure(ParseStatus, homeworks, i);
          SendMessage(FailureMessage(parsed.error));
          return;
        }
        BatchStep(ParseStatus, homeworks, i);
        SendMessage(parsed.value);
        i := i + 1;
      }
      BatchMessagesComplete(ParseStatus, homeworks);
    }
  }

  /** main up to the loop: the credential check, then the loop state; a
      missing credential ends the program before any request. */
  method Launch(practicum: Option<string>, telegram: Option<string>, chat: Option<string>, now: int)
    returns (r: Result<Poller>)
    ensures r.Err? <==> CheckTokens(practicum, telegram, chat).Fail?
    ensures r.Err? ==> r.error == CheckTokens(practicum, telegram, chat).error
    ensures r.Ok? ==> fresh(r.value) && r.value.Valid() && r.value.timestamp == now
                      && r.value.outbox == [] && r.value.queries == []
  {
    var tokens := CheckTokens(practicum, telegram, chat);
    if tokens.Fail? {
      return Err(tokens.error);
    }
    var poller := new Poller(now);
    return Ok(poller);
  }
}

/** The validation and formatting pipeline of the homework-status bot:
    the credential check, the classification of the review API's answer,
    the shape check of its body and the formatting of one homework record. */
module Homework {
  import opened Json
  import opened Errors

  // ---------------------------------------------------------------------
  // Verdict vocabulary

  const Verdicts: map<string, string> := map[
    "approved" := "Работа проверена: ревьюеру всё понравилось. Ура!",
    "reviewing" := "Работа взята на проверку ревьюером.",
    "rejected" := "Работа проверена: у ревьюера есть замечания."
  ]

  const VerdictKeys: seq<string> := ["approved", "reviewing", "rejected"]

  lemma VerdictKeysAreTheKeys()
    ensures forall k :: k in Verdicts <==> k in VerdictKeys
  {
  }

  // ---------------------------------------------------------------------
  // A walk over named values that stops at the first missing one

  /** The index of the first entry whose value is missing, or the length of
      the list when every value is present. */
  function FirstMissing<V>(entries: seq<(string, Option<V>)>): (k: nat)
    ensures k <= |entries|
    ensures forall j :: 0 <= j < k ==> entries[j].1.Some?
    ensures k < |entries| ==> entries[k].1.None?
  {
    if entries == [] then 0
    else if entries[0].1.None? then 0
    else 1 + FirstMissing(entries[1..])
  }

  // ---------------------------------------------------------------------
  // check_tokens

  const PracticumTokenName := "Токен практикума"
  const TelegramTokenName := "Токен телеграма"
  const ChatIdName := "ID чата"

  /** Fails on the first of the three values that is None, naming it;
      an empty string counts as present. */
  function CheckTokens(practicum: Option<string>, telegram: Option<string>, chat: Option<string>): (r: Outcome)
    ensures r.Pass? <==> practicum.Some? && telegram.Some? && chat.Some?
    ensures practicum.None? ==> r == Fail(TokenNotFound(PracticumTokenName))
    ensures practicum.Some? && telegram.None? ==> r == Fail(TokenNotFound(TelegramTokenName))
    ensures practicum.Some? && telegram.Some? && chat.None? ==> r == Fail(TokenNotFound(ChatIdName))
  {
    var entries := [(PracticumTokenName, practicum), (TelegramTokenName, telegram), (ChatIdName, chat)];
    var k := FirstMissing(entries);
    assert entries[0].1 == practicum && entries[1].1 == telegram && entries[2].1 == chat;
    assert k == 0 <==> practicum.None?;
    assert k == 1 <==> practicum.Some? && telegram.None?;
    assert k == 2 <==> practicum.Some? && telegram.Some? && chat.None?;
    if k < |entries| then Fail(TokenNotFound(entries[k].0)) else Pass
  }

  // ---------------------------------------------------------------------
  // get_api_answer, after the HTTP call

  /** What the HTTP layer gave back: a response with its status code and
      decoded body, or the exception the request raised. */
  datatype HttpAnswer =
    | Response(statusCode: int, body: Json)
    | RequestFailed(detail: string)

  /** A status code other than 200 becomes an API error carrying the code; a
      failed request becomes an error with its text; 200 yields the body. */
  function GetApiAnswer(answer: HttpAnswer): (r: Result<Json>)
    ensures r.Ok? <==> answer.Response? && answer.statusCode == 200
    ensures r.Ok? ==> r.value == answer.body
    ensures answer.Response? && answer.statusCode != 200 ==> r == Err(ApiErr(answer.statusCode))
    ensures answer.RequestFailed? ==> r == Err(RequestErr(answer.detail))
  {
    match answer
    case RequestFailed(d) => Err(RequestErr(d))
    case Response(code, body) => if code != 200 then Err(ApiErr(code)) else Ok(body)
  }

  // ---------------------------------------------------------------------
  // check_response

  const HomeworksKey := "homeworks"

  /** Accepts only an object whose `homeworks` is a non-empty list and
      returns that list; an empty list is the "no update" error, every other
      shape (not an object; key missing, null or not a list) a type error. */
  function CheckResponse(response: Json): (r: Result<seq<Json>>)
    ensures !response.JObject? ==> r == Err(TypeErr)
    ensures response.JObject? && !Get(response.fields, HomeworksKey).JList? ==> r == Err(TypeErr)
    ensures r == Err(NoUpdate) <==> response.JObject? && Get(response.fields, HomeworksKey) == JList([])
    ensures r.Ok? ==> r.value != [] && response.JObject? && Get(response.fields, HomeworksKey) == JList(r.value)
    ensures (response.JObject? && Get(response.fields, HomeworksKey).JList? &&
             Get(response.fields, HomeworksKey).items != [])
            ==> r == Ok(Get(response.fields, HomeworksKey).items)
    ensures r.Err? ==> r.error == TypeErr || r.error == NoUpdate
  {
    if !response.JObject? then Err(TypeErr)
    else
      var homeworks := Get(response.fields, HomeworksKey);
      if !homeworks.JList? then Err(TypeErr)
      else if homeworks.items == [] then Err(NoUpdate)
      else Ok(homeworks.items)
  }

  /** A body built as {"homeworks": hs, ...} is accepted with hs returned
      unchanged when hs is not empty, and is "no update" when it is. */
  lemma CheckResponseOfBuiltBody(hs: seq<Json>, rest: seq<(string, Json)>)
    requires DistinctKeys([(HomeworksKey, JList(hs))] + rest)
    ensures hs != [] ==> CheckResponse(JObject([(HomeworksKey, JList(hs))] + rest)) == Ok(hs)
    ensures hs == [] ==> CheckResponse(JObject([(HomeworksKey, JList(hs))] + rest)) == Err(NoUpdate)
  {
    var fields := [(HomeworksKey, JList(hs))] + rest;
    assert fields[0].0 == HomeworksKey;
    assert Get(fields, HomeworksKey) == JList(hs);
  }

  /** A missing key is not an error kind of its own: it is the type error. */
  lemma {:induction false} CheckResponseMissingKey(fields: seq<(string, Json)>)
    requires forall i :: 0 <= i < |fields| ==> fields[i].0 != HomeworksKey
    ensures CheckResponse(JObject(fields)) == Err(TypeErr)
  {
  }

  // ---------------------------------------------------------------------
  // parse_status

  const StatusPrefix := "Изменился статус проверки работы \""
  const NameSeparator := "\". "

  /** The notification text for a homework name and a verdict. */
  function StatusMessage(name: string, verdict: string): string {
    StatusPrefix + name + NameSeparator + verdict
  }

  const NameKey := "homework_name"
  const StatusKey := "status"

  /** `None` for a missing or null field, the value otherwise. */
  function Present(v: Json): (o: Option<Json>)
    ensures o.None? <==> v == JNull
  {
    if v == JNull then None else Some(v)
  }

  /** Formats one homework record. Checks, in this order: the record is a
      dict; homework_name is present; status is present; status is hashable;
      status is a verdict key. */
  function ParseStatus(homework: Json): (r: Result<string>)
    ensures !homework.JObject? ==> r == Err(AttributeErr(TypeName(homework)))
    ensures homework.JObject? && Get(homework.fields, NameKey) == JNull ==> r == Err(KeyErr(NameKey))
    ensures homework.JObject? && Get(homework.fields, NameKey) != JNull && Get(homework.fields, StatusKey) == JNull
            ==> r == Err(KeyErr(StatusKey))
    ensures r.Ok? <==> homework.JObject? && Get(homework.fields, NameKey) != JNull
                       && Get(homework.fields, StatusKey).JStr? && Get(homework.fields, StatusKey).s in Verdicts
    ensures r.Ok? ==> r.value == StatusMessage(Str(Get(homework.fields, NameKey)),
                                               Verdicts[Get(homework.fields, StatusKey).s])
  {
    if !homework.JObject? then Err(AttributeErr(TypeName(homework)))
    else
      var name := Get(homework.fields, NameKey);
      var status := Get(homework.fields, StatusKey);
      var required := [(NameKey, Present(name)), (StatusKey, Present(status))];
      var k := FirstMissing(required);
      assert required[0].1 == Present(name) && required[1].1 == Present(status);
      assert k == 0 <==> name == JNull;
      assert k == 1 <==> name != JNull && status == JNull;
      if k < |required| then Err(KeyErr(required[k].0))
      else if status.JList? || status.JObject? then Err(UnhashableErr(TypeName(status)))
      else if !(status.JStr? && status.s in Verdicts) then Err(ValueErr)
      else Ok(StatusMessage(Str(name), Verdicts[status.s]))
  }

  /** With both fields present, the value error comes exactly when the
      status is a scalar that is not one of the three verdict keys. */
  lemma ParseStatusValueErr(homework: Json)
    requires homework.JObject?
    requires Get(homework.fields, NameKey) != JNull && Get(homework.fields, StatusKey) != JNull
    ensures var status := Get(homework.fields, StatusKey);
      ParseStatus(homework) == Err(ValueErr) <==>
        !status.JList? && !status.JObject? && !(status.JStr? && status.s in VerdictKeys)
  {
  }

  /** A list or dict status cannot be looked up in the verdict dict: with
      the name present, the record fails with Python's unhashable-type error
      naming the status's type. */
  lemma ParseStatusUnhashable(homework: Json)
    requires homework.JObject? && Get(homework.fields, NameKey) != JNull
    requires Get(homework.fields, StatusKey).JList? || Get(homework.fields, StatusKey).JObject?
    ensures ParseStatus(homework) == Err(UnhashableErr(TypeName(Get(homework.fields, StatusKey))))
  {
  }

  /** The result depends on the record's homework_name and status only. */
  lemma ParseStatusReadsTwoFields(f: seq<(string, Json)>, g: seq<(string, Json)>)
    requires Get(f, NameKey) == Get(g, NameKey) && Get(f, StatusKey) == Get(g, StatusKey)
    ensures ParseStatus(JObject(f)) == ParseStatus(JObject(g))
  {
  }

  /** The record {"homework_name": "X", "status": "approved"} gives exactly
      this text. */
  lemma ParseStatusApprovedExample()
    ensures ParseStatus(JObject([(NameKey, JStr("X")), (StatusKey, JStr("approved"))]))
         == Ok("Изменился статус проверки работы \"" + "X" + "\". " + "Работа проверена: ревьюеру всё понравилось. Ура!")
  {
    var fields := [(NameKey, JStr("X")), (StatusKey, JStr("approved"))];
    assert Get(fields, NameKey) == JStr("X");
    assert fields[1..][0].0 == StatusKey;
    assert Get(fields, StatusKey) == JStr("approved");
    assert ParseStatus(JObject(fields)) == Ok(StatusMessage("X", Verdicts["approved"]));
  }

  // ---------------------------------------------------------------------
  // Reading a notification back

  predicate EndsWith(m: string, tail: string) {
    |tail| <= |m| && m[|m| - |tail|..] == tail
  }

  /** The homework name and status a notification was made from, found by
      its fixed prefix and by which verdict it ends with. */
  function Unformat(m: string): Option<(string, string)> {
    if |m| >= |StatusPrefix| && m[..|StatusPrefix|] == StatusPrefix then MatchVerdict(m, VerdictKeys)
    else None
  }

  function MatchVerdict(m: string, keys: seq<string>): Option<(string, string)>
    requires |m| >= |StatusPrefix|
    requires forall i :: 0 <= i < |keys| ==> keys[i] in Verdicts
  {
    if keys == [] then None
    else
      var tail := NameSeparator + Verdicts[keys[0]];
      if |m| >= |StatusPrefix| + |tail| && EndsWith(m, tail)
      then Some((m[|StatusPrefix|..|m| - |tail|], keys[0]))
      else MatchVerdict(m, keys[1..])
  }

  /** A string that ends with `t` does not end with `u` when the two differ
      at the same distance from their ends. */
  lemma EndsWithExcludes(m: string, t: string, u: string, d: nat)
    requires EndsWith(m, t) && d < |t| && d < |u| && t[|t| - 1 - d] != u[|u| - 1 - d]
    ensures !EndsWith(m, u)
  {
    assert m[|m| - 1 - d] == t[|t| - 1 - d];
  }

  /** Every notification names its homework and status unambiguously. */
  lemma {:induction false} UnformatStatusMessage(name: string, status: string)
    requires status in Verdicts
    ensures Unformat(StatusMessage(name, Verdicts[status])) == Some((name, status))
  {
    var m := StatusMessage(name, Verdicts[status]);
    var tail := NameSeparator + Verdicts[status];
    assert m == StatusPrefix + name + tail;
    assert m[..|StatusPrefix|] == StatusPrefix;
    assert EndsWith(m, tail);
    assert m[|StatusPrefix|..|m| - |tail|] == name;
    var approved := NameSeparator + Verdicts["approved"];
    var reviewing := NameSeparator + Verdicts["reviewing"];
    var rejected := NameSeparator + Verdicts["rejected"];
    assert VerdictKeys[1..] == ["reviewing", "rejected"];
    assert VerdictKeys[1..][1..] == ["rejected"];
    if status == "reviewing" {
      EndsWithExcludes(m, tail, approved, 0);
      assert MatchVerdict(m, VerdictKeys) == MatchVerdict(m, VerdictKeys[1..]);
    } else if status == "rejected" {
      EndsWithExcludes(m, tail, approved, 0);
      EndsWithExcludes(m, tail, reviewing, 1);
      assert MatchVerdict(m, VerdictKeys) == MatchVerdict(m, VerdictKeys[1..]);
      assert MatchVerdict(m, VerdictKeys[1..]) == MatchVerdict(m, VerdictKeys[1..][1..]);
    }
  }

  /** Two records that produce the same notification have the same status
      and render the same homework name. */
  lemma ParseStatusIdentifiesRecord(a: Json, b: Json)
    requires ParseStatus(a).Ok? && ParseStatus(a) == ParseStatus(b)
    ensures Str(Get(a.fields, NameKey)) == Str(Get(b.fields, NameKey))
    ensures Get(a.fields, StatusKey) == Get(b.fields, StatusKey)
  {
    var sa := Get(a.fields, StatusKey).s;
    var sb := Get(b.fields, StatusKey).s;
    UnformatStatusMessage(Str(Get(a.fields, NameKey)), sa);
    UnformatStatusMessage(Str(Get(b.fields, NameKey)), sb);
  }
}

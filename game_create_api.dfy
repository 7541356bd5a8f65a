/** `createGame` of gameCreateAPI.js: argument checks on the raw field
    lengths, the trimmed request body, the error message of a refused
    request and the game summary built from the server's answer. */
module GameCreateApi {
  import opened Wrappers
  import opened Text
  import opened Json
  import opened Http
  import Api

  const NameRequired := "El nombre de la partida es requerido"
  const NameLength := "El nombre de la partida debe tener entre 3 y 20 caracteres"
  const OwnerRequired := "El nombre del propietario es requerido"
  const OwnerLength := "El nombre del propietario debe tener entre 3 y 20 caracteres"
  const PasswordLength := "La contraseña debe tener entre 3 y 20 caracteres"
  /** The TypeError `response.text()` rejects with once `json()` has read
      the body. */
  const BodyUsed := "Failed to execute 'text' on 'Response': body stream already read"

  predicate InLengthRange(s: string) { 3 <= |s| <= 20 }

  /** The body of the POST: trimmed name and owner, and the trimmed
      password when one was given. */
  datatype CreateRequest = CreateRequest(name: string, owner: string, password: Option<string>)

  /** The checks of `createGame`, in source order: blank, then the length
      of the untrimmed value. A password is optional, but one that is not
      blank must also have 3 to 20 characters. */
  function ValidateCreate(name: string, owner: string, password: string): (r: Result<CreateRequest>)
    ensures r.Ok? <==> !IsBlank(name) && InLengthRange(name) && !IsBlank(owner) && InLengthRange(owner)
                       && (IsBlank(password) || InLengthRange(password))
    ensures IsBlank(name) ==> r == Thrown(NameRequired)
    ensures r.Ok? ==> r.value.name == Trim(name) && r.value.owner == Trim(owner)
                      && (r.value.password.Some? <==> !IsBlank(password))
                      && (r.value.password.Some? ==> r.value.password.value == Trim(password))
  {
    if IsBlank(name) then Thrown(NameRequired)
    else if !InLengthRange(name) then Thrown(NameLength)
    else if IsBlank(owner) then Thrown(OwnerRequired)
    else if !InLengthRange(owner) then Thrown(OwnerLength)
    else if !IsBlank(password) && !InLengthRange(password) then Thrown(PasswordLength)
    else Ok(CreateRequest(Trim(name), Trim(owner), if !IsBlank(password) then Some(Trim(password)) else None))
  }

  /** What is sent is never blank and never longer than 20 characters. */
  lemma ValidatedRequestBounds(name: string, owner: string, password: string)
    requires ValidateCreate(name, owner, password).Ok?
    ensures var q := ValidateCreate(name, owner, password).value;
            0 < |q.name| <= 20 && 0 < |q.owner| <= 20
            && (q.password.Some? ==> 0 < |q.password.value| <= 20)
  {
    TrimShorter(name);
    TrimShorter(owner);
    TrimShorter(password);
  }

  lemma TrimShorter(s: string)
    ensures |Trim(s)| <= |s|
  {
  }

  /** `Error ${status}: ${statusText}`. */
  function DefaultCreateError(res: Response): string {
    "Error " + IntToString(res.status) + ": " + res.statusText
  }

  /** The error message of a refused request as written: `msg`, then
      `message`, override the default; but when the body is not a JSON
      object the `catch` reads `response.text()` after `json()` already
      consumed the body, which rejects. */
  function CreateErrorAsWritten(res: Response): (m: string)
    ensures res.body.None? || res.body == Some(JNull) ==> m == BodyUsed
  {
    match res.body
    case None => BodyUsed
    case Some(errorData) =>
      if errorData.JNull? then BodyUsed
      else
        var m1 := if Truthy(Get(errorData, "msg")) then ToStr(Get(errorData, "msg")) else DefaultCreateError(res);
        if Truthy(Get(errorData, "message")) then ToStr(Get(errorData, "message")) else m1
  }

  /** The evidently intended message: the same overrides, and for a body
      that is not JSON its non-empty text. */
  function CreateError(res: Response): (m: string)
    ensures res.body.Some? && !res.body.value.JNull? && Truthy(Get(res.body.value, "message"))
            ==> m == ToStr(Get(res.body.value, "message"))
    ensures res.body.Some? && !res.body.value.JNull? && !Truthy(Get(res.body.value, "message"))
            && Truthy(Get(res.body.value, "msg"))
            ==> m == ToStr(Get(res.body.value, "msg"))
    ensures res.body.Some? && !res.body.value.JNull? && !Truthy(Get(res.body.value, "message"))
            && !Truthy(Get(res.body.value, "msg"))
            ==> m == DefaultCreateError(res)
    ensures res.body.None? || res.body == Some(JNull)
            ==> m == (if res.text != "" then res.text else DefaultCreateError(res))
  {
    match res.body
    case None => if res.text != "" then res.text else DefaultCreateError(res)
    case Some(errorData) =>
      if errorData.JNull? then (if res.text != "" then res.text else DefaultCreateError(res))
      else
        var m1 := if Truthy(Get(errorData, "msg")) then ToStr(Get(errorData, "msg")) else DefaultCreateError(res);
        if Truthy(Get(errorData, "message")) then ToStr(Get(errorData, "message")) else m1
  }

  /** A plain-text error page: as written the user sees the TypeError, not
      the server's text. */
  lemma PlainTextErrorLost()
    ensures var res := Response(502, "Bad Gateway", map[], None, "upstream down");
            CreateErrorAsWritten(res) == BodyUsed && CreateError(res) == "upstream down"
  {
  }

  /** The two agree whenever the body is a JSON value other than null. */
  lemma CreateErrorAgreesOnJson(res: Response)
    requires res.body.Some? && !res.body.value.JNull?
    ensures CreateErrorAsWritten(res) == CreateError(res)
  {
  }

  /** The game `createGame` resolves with, from the server's JSON and the
      request it sent. */
  function NewGame(responseData: Json, request: CreateRequest): (g: Api.GameSummary)
    requires !responseData.JNull?
    ensures g.owner == JStr(request.owner) && g.maxPlayers == 10
    ensures Truthy(g.status) && Truthy(g.enemies)
    // the record is the body's truthy `data`, else the body itself
    ensures var server := if Truthy(Get(responseData, "data")) then Get(responseData, "data") else responseData;
            && g.id == Get(server, "id") && g.currentRound == Get(server, "currentRound")
            && g.players == (if !Truthy(Get(server, "players")) then JNum(1)
                             else if Get(server, "players").JArr? then JNum(|Get(server, "players").items|)
                             else Get(server, "players"))
            && g.name == (if Truthy(Get(server, "name")) then Get(server, "name") else JStr(request.name))
            && g.requiresPassword == (if Truthy(Get(server, "password")) then Get(server, "password")
                                      else JBool(request.password.Some?))
            && g.status == (if Truthy(Get(server, "status")) then Get(server, "status") else JStr("lobby"))
            && g.enemies == (if Truthy(Get(server, "enemies")) then Get(server, "enemies") else JArr([]))
  {
    var server := Or(Get(responseData, "data"), responseData);
    var players := Get(server, "players");
    Api.GameSummary(
      Get(server, "id"),
      Or(Get(server, "name"), JStr(request.name)),
      if Truthy(players) then (if players.JArr? then JNum(|players.items|) else players) else JNum(1),
      10,
      Or(Get(server, "password"), JBool(request.password.Some?)),
      Or(Get(server, "status"), JStr("lobby")),
      JStr(request.owner),
      Get(server, "currentRound"),
      Or(Get(server, "enemies"), JArr([])))
  }

  /** Message of the TypeError of `responseData.data` on a null body. */
  const NullDataAccess := "Cannot read properties of null (reading 'data')"

  /** `createGame`: the POST it sends (None when the checks throw first)
      and what it resolves or throws. */
  function CreateGame(name: string, owner: string, password: string, reply: Reply)
    : (out: (Option<CreateRequest>, Result<Api.GameSummary>))
    ensures ValidateCreate(name, owner, password).Err?
            ==> out.0 == None && out.1 == Err(ValidateCreate(name, owner, password).error)
    ensures ValidateCreate(name, owner, password).Ok? ==> out.0 == Some(ValidateCreate(name, owner, password).value)
    ensures out.0.Some? && reply.NetworkFailure? ==> out.1 == Thrown(reply.message)
    ensures out.0.Some? && reply.Received? && !IsOk(reply.res) ==> out.1 == Thrown(CreateError(reply.res))
    // a good reply resolves with the game built from its JSON body; a body
    // that is not JSON, or null, throws
    ensures out.0.Some? && reply.Received? && IsOk(reply.res) && reply.res.body.Some? && !reply.res.body.value.JNull?
            ==> out.1 == Ok(NewGame(reply.res.body.value, out.0.value))
    ensures out.0.Some? && reply.Received? && IsOk(reply.res) && reply.res.body.None? ==> out.1 == Thrown(JsonSyntax)
    ensures out.0.Some? && reply.Received? && IsOk(reply.res) && reply.res.body == Some(JNull)
            ==> out.1 == Thrown(NullDataAccess)
    ensures out.1.Ok? ==> out.0.Some? && reply.Received? && IsOk(reply.res) && reply.res.body.Some?
                          && out.1.value.owner == JStr(out.0.value.owner)
  {
    var checked := ValidateCreate(name, owner, password);
    if checked.Err? then (None, Err(checked.error))
    else
      var request := checked.value;
      var result :=
        match reply
        case NetworkFailure(m) => Thrown(m)
        case Received(res) =>
          if !IsOk(res) then Thrown(CreateError(res))
          else if res.body.None? then Thrown(JsonSyntax)
          else if res.body.value.JNull? then Thrown(NullDataAccess)
          else Ok(NewGame(res.body.value, request));
      (Some(request), result)
  }

  /** The game `createGame` resolves with agrees with the summary the lobby
      later builds from the same record, once the server stored the owner
      first among the players and gave the game a name. */
  lemma CreatedGameListsAlike(record: Json, request: CreateRequest)
    requires record.JObj? && Truthy(Get(record, "name"))
    requires Get(record, "players").JArr? && |Get(record, "players").items| > 0
    requires Get(record, "players").items[0] == JStr(request.owner)
    ensures var g := NewGame(JObj(map["data" := record]), request);
            var s := Api.Summarize(record);
            && g.id == s.id && g.name == s.name && g.players == s.players && g.owner == s.owner
            && g.status == s.status && g.enemies == s.enemies && g.currentRound == s.currentRound
            && (Truthy(Get(record, "password")) ==> g.requiresPassword == s.requiresPassword)
  {
    assert Get(JObj(map["data" := record]), "data") == record;
  }
}

/** gameJoinAPI.js: joining a game, starting it (a HEAD request whose
    refusal is explained by the X-Msg header or a message per status) and
    fetching it with trimmed credentials. */
module GameJoinApi {
  import opened Wrappers
  import opened Text
  import opened Json
  import opened Http
  import Api

  /** The request `joinGame` sends: headers and the `{player}` body. */
  datatype JoinRequest = JoinRequest(headers: Headers, body: Json)

  /** `joinGame`: the player in a header and in the body, the password
      header only when non-empty; the answer through `handleResponse`. */
  function JoinGame(playerName: string, password: string, reply: Reply): (out: (JoinRequest, Result<Json>))
    ensures out.0.body == JObj(map["player" := JStr(playerName)])
    ensures PlayerHeader in out.0.headers && out.0.headers[PlayerHeader] == playerName
    ensures (PasswordHeader in out.0.headers) == (password != "")
    ensures PasswordHeader in out.0.headers ==> out.0.headers[PasswordHeader] == password
    ensures out.1 == HandleResponse(reply)
  {
    var h := map[ContentTypeHeader := JsonMediaType, PlayerHeader := playerName];
    var headers := if password != "" then h[PasswordHeader := password] else h;
    (JoinRequest(headers, JObj(map["player" := JStr(playerName)])), HandleResponse(reply))
  }

  /** The fixed start messages, each written in pieces of at most eight
      characters so that facts about its characters follow piece by
      piece: "Se necesitan al menos 5 jugadores para iniciar", "La partida
      ya ha sido iniciada", "No autorizado para iniciar la partida" and
      "Credenciales inválidas". */
  const NeedFivePlayers := "Se neces" + "itan al " + "menos 5 " + "jugadore" + "s para i" + "niciar"
  const AlreadyStarted := "La parti" + "da ya ha" + " sido in" + "iciada"
  const NotAllowedToStart := "No autor" + "izado pa" + "ra inici" + "ar la pa" + "rtida"
  const BadCredentials := "Credenci" + "ales inv" + "álidas"

  /** The message a refused start throws: a non-empty X-Msg header, else
      the text for 428, 409, 403 or 401, else `Error: status statusText`. */
  function StartErrorMessage(res: Response): (m: string)
    ensures Header(res, XMsgHeader).Some? && Header(res, XMsgHeader).value != ""
            ==> m == Header(res, XMsgHeader).value
    ensures (Header(res, XMsgHeader).None? || Header(res, XMsgHeader).value == "")
            ==> m == (if res.status == 428 then NeedFivePlayers
                      else if res.status == 409 then AlreadyStarted
                      else if res.status == 403 then NotAllowedToStart
                      else if res.status == 401 then BadCredentials
                      else "Error: " + StatusLine(res))
  {
    var errorMsg := Header(res, XMsgHeader);
    if errorMsg.Some? && errorMsg.value != "" then errorMsg.value
    else if res.status == 428 then NeedFivePlayers
    else if res.status == 409 then AlreadyStarted
    else if res.status == 403 then NotAllowedToStart
    else if res.status == 401 then BadCredentials
    else "Error: " + StatusLine(res)
  }

  /** None of the start messages holds a `4`, an `I` or an `F`, so none
      contains a status code, "Invalid credentials" or "Failed to fetch". */
  lemma StartMessagesLackKeywords()
    ensures '4' !in NeedFivePlayers && 'I' !in NeedFivePlayers && 'F' !in NeedFivePlayers
    ensures '4' !in AlreadyStarted && 'I' !in AlreadyStarted && 'F' !in AlreadyStarted
    ensures '4' !in NotAllowedToStart && 'I' !in NotAllowedToStart && 'F' !in NotAllowedToStart
    ensures '4' !in BadCredentials && 'I' !in BadCredentials && 'F' !in BadCredentials
  {
    NeedFiveLacksKeywords();
    AlreadyStartedLacksKeywords();
    NotAllowedLacksKeywords();
    BadCredentialsLacksKeywords();
  }

  lemma NeedFiveLacksKeywords()
    ensures '4' !in NeedFivePlayers && 'I' !in NeedFivePlayers && 'F' !in NeedFivePlayers
  {
    var c0, c1, c2, c3, c4, c5 := "Se neces", "itan al ", "menos 5 ", "jugadore", "s para i", "niciar";
    assert '4' !in c0 && 'I' !in c0 && 'F' !in c0;
    assert '4' !in c1 && 'I' !in c1 && 'F' !in c1;
    assert '4' !in c2 && 'I' !in c2 && 'F' !in c2;
    assert '4' !in c3 && 'I' !in c3 && 'F' !in c3;
    assert '4' !in c4 && 'I' !in c4 && 'F' !in c4;
    assert '4' !in c5 && 'I' !in c5 && 'F' !in c5;
  }

  lemma AlreadyStartedLacksKeywords()
    ensures '4' !in AlreadyStarted && 'I' !in AlreadyStarted && 'F' !in AlreadyStarted
  {
    var c0, c1, c2, c3 := "La parti", "da ya ha", " sido in", "iciada";
    assert '4' !in c0 && 'I' !in c0 && 'F' !in c0;
    assert '4' !in c1 && 'I' !in c1 && 'F' !in c1;
    assert '4' !in c2 && 'I' !in c2 && 'F' !in c2;
    assert '4' !in c3 && 'I' !in c3 && 'F' !in c3;
  }

  lemma NotAllowedLacksKeywords()
    ensures '4' !in NotAllowedToStart && 'I' !in NotAllowedToStart && 'F' !in NotAllowedToStart
  {
    var c0, c1, c2, c3, c4 := "No autor", "izado pa", "ra inici", "ar la pa", "rtida";
    assert '4' !in c0 && 'I' !in c0 && 'F' !in c0;
    assert '4' !in c1 && 'I' !in c1 && 'F' !in c1;
    assert '4' !in c2 && 'I' !in c2 && 'F' !in c2;
    assert '4' !in c3 && 'I' !in c3 && 'F' !in c3;
    assert '4' !in c4 && 'I' !in c4 && 'F' !in c4;
  }

  lemma BadCredentialsLacksKeywords()
    ensures '4' !in BadCredentials && 'I' !in BadCredentials && 'F' !in BadCredentials
  {
    var c0, c1, c2 := "Credenci", "ales inv", "álidas";
    assert '4' !in c0 && 'I' !in c0 && 'F' !in c0;
    assert '4' !in c1 && 'I' !in c1 && 'F' !in c1;
    assert '4' !in c2 && 'I' !in c2 && 'F' !in c2;
  }

  /** A started game: the status and the response headers. */
  datatype Started = Started(status: int, headers: Headers)

  /** `startGame` on the settled HEAD request. */
  function StartGame(reply: Reply): (r: Result<Started>)
    ensures reply.NetworkFailure? ==> r == Thrown(reply.message)
    ensures reply.Received? && IsOk(reply.res) ==> r == Ok(Started(reply.res.status, reply.res.headers))
    ensures reply.Received? && !IsOk(reply.res) ==> r == Thrown(StartErrorMessage(reply.res))
    ensures r.Ok? ==> 200 <= r.value.status <= 299
  {
    match reply
    case NetworkFailure(m) => Thrown(m)
    case Received(res) =>
      if !IsOk(res) then Thrown(StartErrorMessage(res))
      else Ok(Started(res.status, res.headers))
  }

  /** The headers of `startGame`: the player, and the password only when
      non-empty. */
  function StartHeaders(playerName: string, password: string): (h: Headers)
    ensures PlayerHeader in h && h[PlayerHeader] == playerName
    ensures (PasswordHeader in h) == (password != "") && (password != "" ==> h[PasswordHeader] == password)
    ensures h.Keys <= {PlayerHeader, PasswordHeader}
  {
    var h := map[PlayerHeader := playerName];
    if password != "" then h[PasswordHeader := password] else h
  }

  const MissingPlayer := "getGame: missing player name for header"

  /** `getGame`: credentials trimmed first; a blank player throws before
      any request; the answer through `handleResponse`. Returns the
      headers sent (None when no request was made); they are built as
      `getGameDetails` builds them. */
  function GetGame(playerName: string, password: string, reply: Reply): (out: (Option<Headers>, Result<Json>))
    ensures IsBlank(playerName) ==> out == (None, Thrown(MissingPlayer))
    ensures !IsBlank(playerName) ==> out == (Some(Api.DetailHeaders(Trim(playerName), Trim(password))), HandleResponse(reply))
  {
    var player := Trim(playerName);
    var pass := Trim(password);
    if player == "" then (None, Thrown(MissingPlayer))
    else (Some(Api.DetailHeaders(player, pass)), HandleResponse(reply))
  }
}

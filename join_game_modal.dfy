/** The join dialog of Lobby/JoinGameModal.jsx: whether the player is the
    owner or already in the game, which password is sent, which controls
    are offered, and the messages of a failed join or start. */
module JoinGameModal {
  import opened Wrappers
  import opened Text
  import opened Json
  import opened Http
  import Api
  import GameJoinApi

  /** The dialog's state cells; `loading` is false between handlers. */
  datatype Modal = Modal(isOwner: bool, isAlreadyJoined: bool, statusChecked: bool, error: string)

  const Unchecked := Modal(false, false, false, "")

  /** `checkUserStatus`, with the answer to the `getGame` probe given: the
      owner is taken as joined without asking; anyone else is joined when
      the probe (sent without a password) succeeds. Returns the probe's
      headers when it was sent. */
  function CheckUserStatus(game: Api.GameSummary, username: string, reply: Reply): (out: (Modal, Option<Headers>))
    ensures out.0.statusChecked && out.0.error == ""
    ensures out.0.isOwner <==> StrictEq(game.owner, JStr(username))
    ensures out.0.isOwner ==> out.0.isAlreadyJoined && out.1.None?
    ensures !out.0.isOwner ==>
              out.1 == GameJoinApi.GetGame(username, "", reply).0
              && (out.0.isAlreadyJoined <==> GameJoinApi.GetGame(username, "", reply).1.Ok?)
  {
    var owner := StrictEq(game.owner, JStr(username));
    if owner then (Modal(true, true, true, ""), None)
    else
      var probe := GameJoinApi.GetGame(username, "", reply);
      (Modal(false, probe.1.Ok?, true, ""), probe.0)
  }

  /** The password sent by a join or a start: the typed one only for a
      game that requires a password. */
  function ChosenPassword(game: Api.GameSummary, typed: string): (p: string)
    ensures Truthy(game.requiresPassword) ==> p == typed
    ensures !Truthy(game.requiresPassword) ==> p == ""
  {
    if Truthy(game.requiresPassword) then typed else ""
  }

  predicate CanStartGame(m: Modal, game: Api.GameSummary) {
    m.isOwner && m.isAlreadyJoined && AtLeast(game.players, 5)
  }

  predicate ShowPasswordField(m: Modal, game: Api.GameSummary) {
    Truthy(game.requiresPassword) && !m.isAlreadyJoined
  }

  predicate ShowJoinButton(m: Modal) {
    !m.isOwner && !m.isAlreadyJoined
  }

  /** After the status check the owner is offered the start (with at
      least five players) and never the join button, nor the password
      field; the join button and the start never show together. */
  lemma OwnerControls(game: Api.GameSummary, username: string, reply: Reply)
    requires StrictEq(game.owner, JStr(username))
    ensures var m := CheckUserStatus(game, username, reply).0;
            !ShowJoinButton(m) && !ShowPasswordField(m, game)
            && (CanStartGame(m, game) <==> AtLeast(game.players, 5))
  {
  }

  lemma JoinAndStartExclusive(m: Modal, game: Api.GameSummary)
    ensures !(ShowJoinButton(m) && CanStartGame(m, game))
    ensures ShowPasswordField(m, game) ==> !CanStartGame(m, game)
  {
  }

  const BadPasswordShown := "Credenciales inválidas. Verifica la contraseña."
  const ConnectionShown := "Error de conexión. Verifica tu conexión a internet."
  const AlreadyInShown := "Ya estás en esta partida."
  const JoinFailedShown := "Error al unirse a la partida"

  /** The message of a failed join and whether it marks the player as
      joined. */
  datatype JoinFailure = JoinFailure(message: string, marksJoined: bool)

  /** The `catch` of `handleJoin`: 403 and credentials, then the
      connection, then "already" (which marks the player as joined), then
      the error's own message. */
  function JoinErrorText(msg: string): (f: JoinFailure)
    ensures Contains(msg, "403") || Contains(msg, "Invalid credentials") ==> f == JoinFailure(BadPasswordShown, false)
    ensures !(Contains(msg, "403") || Contains(msg, "Invalid credentials")) && Contains(msg, "Failed to fetch")
            ==> f == JoinFailure(ConnectionShown, false)
    ensures f.marksJoined <==> !(Contains(msg, "403") || Contains(msg, "Invalid credentials"))
                               && !Contains(msg, "Failed to fetch")
                               && (Contains(msg, "already") || Contains(msg, "Already"))
    ensures f.marksJoined ==> f.message == AlreadyInShown
    ensures !(Contains(msg, "403") || Contains(msg, "Invalid credentials") || Contains(msg, "Failed to fetch")
              || Contains(msg, "already") || Contains(msg, "Already"))
            ==> f == JoinFailure(if msg != "" then msg else JoinFailedShown, false)
  {
    if Contains(msg, "403") || Contains(msg, "Invalid credentials") then JoinFailure(BadPasswordShown, false)
    else if Contains(msg, "Failed to fetch") then JoinFailure(ConnectionShown, false)
    else if Contains(msg, "already") || Contains(msg, "Already") then JoinFailure(AlreadyInShown, true)
    else JoinFailure(if msg != "" then msg else JoinFailedShown, false)
  }

  /** What `onGameJoined` receives: the game's data and the password. */
  datatype Handoff = Handoff(data: Json, password: string)

  /** `handleJoin` with the answer to the join request given: the new
      dialog state, the hand-off on success and whether the stored
      credentials of the game are removed (on every failure). */
  function HandleJoin(m: Modal, game: Api.GameSummary, username: string, typed: string, reply: Reply)
    : (out: (Modal, Option<Handoff>, bool))
    ensures var r := GameJoinApi.JoinGame(username, ChosenPassword(game, typed), reply).1;
            r.Ok? && !IsNullish(r.value) ==>
              out == (m.(error := ""), Some(Handoff(Get(r.value, "data"), ChosenPassword(game, typed))), false)
    ensures out.1.None? <==> out.2
    ensures out.1.None? <==> !(GameJoinApi.JoinGame(username, ChosenPassword(game, typed), reply).1.Ok?
                               && !IsNullish(GameJoinApi.JoinGame(username, ChosenPassword(game, typed), reply).1.value))
    // a failure shows the classified text of the error the catch sees
    ensures out.2 ==> out.0.isOwner == m.isOwner && out.0.error != ""
                      && out.0.error == JoinErrorText(JoinMessage(game, username, typed, reply)).message
                      && out.0.isAlreadyJoined == (m.isAlreadyJoined || JoinErrorText(JoinMessage(game, username, typed, reply)).marksJoined)
    ensures out.1.Some? ==> out.1.value.password == ChosenPassword(game, typed)
  {
    var r := GameJoinApi.JoinGame(username, ChosenPassword(game, typed), reply).1;
    if r.Ok? && !IsNullish(r.value) then
      (m.(error := ""), Some(Handoff(Get(r.value, "data"), ChosenPassword(game, typed))), false)
    else
      var f := JoinErrorText(JoinMessage(game, username, typed, reply));
      (m.(error := f.message, isAlreadyJoined := m.isAlreadyJoined || f.marksJoined), None, true)
  }

  /** The message the `catch` of `handleJoin` sees: the failed request's,
      or the TypeError of `result.data` on an empty answer. */
  function JoinMessage(game: Api.GameSummary, username: string, typed: string, reply: Reply): string {
    var r := GameJoinApi.JoinGame(username, ChosenPassword(game, typed), reply).1;
    if r.Err? then r.error.message
    else if r.value.JNull? then Api.NullDataAccess
    else "Cannot read properties of undefined (reading 'data')"
  }

  /** A join refused because the player is already in the game removes the
      join button. */
  lemma AlreadyJoinedHidesJoin(m: Modal, game: Api.GameSummary, username: string, typed: string, reply: Reply)
    requires reply.Received? && !IsOk(reply.res) && reply.res.body.Some? && reply.res.body.value.JObj?
    requires Get(reply.res.body.value, "msg") == JStr("Player already joined")
    ensures !ShowJoinButton(HandleJoin(m, game, username, typed, reply).0)
  {
    var r := GameJoinApi.JoinGame(username, ChosenPassword(game, typed), reply).1;
    assert r == HandleResponse(reply);
    assert r.Err? && r.error.message == "Player already joined";
    AlreadyMessageMarksJoined();
  }

  lemma AlreadyMessageMarksJoined()
    ensures JoinErrorText("Player already joined").marksJoined
  {
    var msg := "Player already joined";
    assert msg[7..][..7] == "already";
    ContainsShift(msg, "already", 7);
    PlayerAlreadyJoinedChars(msg);
    MissingCharNotContained(msg, "403", '4');
    MissingCharNotContained(msg, "Invalid credentials", 'I');
    MissingCharNotContained(msg, "Failed to fetch", 'F');
  }

  lemma PlayerAlreadyJoinedChars(s: string)
    requires s == "Player already joined"
    ensures '4' !in s && 'I' !in s && 'F' !in s
  {
    var c0, c1 := "Player al", "ready joined";
    assert s == c0 + c1;
  }

  /** `sub` occurring at index `i` means `s.includes(sub)`. */
  lemma ContainsShift(s: string, sub: string, i: nat)
    requires i <= |s| && StartsWith(s[i..], sub)
    ensures Contains(s, sub)
  {
    assert OccursAt(s, sub, i) by {
      assert s[i..][..|sub|] == s[i..i + |sub|];
    }
    ContainsAt(s, sub);
  }

  const ServiceNotAllowedShown := "No autorizado para iniciar la partida."
  const NeedFiveShown := "Se necesitan al menos 5 jugadores para iniciar."
  const AlreadyStartedShown := "La partida ya ha sido iniciada."
  const StartFailedShown := "Error al iniciar la partida"

  /** The `catch` of `handleStartGame`: the connection first, then 403
      and credentials, then 428, then 409, then the error's own message. */
  function StartErrorText(msg: string): (m: string)
    ensures Contains(msg, "Failed to fetch") ==> m == ConnectionShown
    ensures !Contains(msg, "Failed to fetch") && (Contains(msg, "403") || Contains(msg, "Invalid credentials"))
            ==> m == ServiceNotAllowedShown
    ensures (!Contains(msg, "Failed to fetch") && !(Contains(msg, "403") || Contains(msg, "Invalid credentials"))
             && Contains(msg, "428")) ==> m == NeedFiveShown
    ensures (!Contains(msg, "Failed to fetch") && !(Contains(msg, "403") || Contains(msg, "Invalid credentials"))
             && !Contains(msg, "428") && Contains(msg, "409")) ==> m == AlreadyStartedShown
    ensures !(Contains(msg, "Failed to fetch") || Contains(msg, "403") || Contains(msg, "Invalid credentials")
              || Contains(msg, "428") || Contains(msg, "409"))
            ==> m == (if msg != "" then msg else StartFailedShown)
  {
    if Contains(msg, "Failed to fetch") then ConnectionShown
    else if Contains(msg, "403") || Contains(msg, "Invalid credentials") then ServiceNotAllowedShown
    else if Contains(msg, "428") then NeedFiveShown
    else if Contains(msg, "409") then AlreadyStartedShown
    else if msg != "" then msg else StartFailedShown
  }

  /** The service words refused starts itself, so for a 428, 409, 403 or
      401 without an `X-Msg` header the dialog shows its message as is. */
  lemma ServiceStartErrorsShownAsSent(res: Response)
    requires Header(res, XMsgHeader).None?
    requires res.status in {428, 409, 403, 401}
    ensures StartErrorText(GameJoinApi.StartErrorMessage(res)) == GameJoinApi.StartErrorMessage(res)
  {
    var m := GameJoinApi.StartErrorMessage(res);
    GameJoinApi.StartMessagesLackKeywords();
    assert m in {GameJoinApi.NeedFivePlayers, GameJoinApi.AlreadyStarted,
                 GameJoinApi.NotAllowedToStart, GameJoinApi.BadCredentials};
    MissingCharNotContained(m, "Failed to fetch", 'F');
    MissingCharNotContained(m, "Invalid credentials", 'I');
    assert "403"[0] == '4' && "428"[0] == '4' && "409"[0] == '4';
    MissingCharNotContained(m, "403", '4');
    MissingCharNotContained(m, "428", '4');
    MissingCharNotContained(m, "409", '4');
  }

  /** `handleStartGame` with the answer to the start request given: on
      success the game is handed on with status `rounds` and the chosen
      password; on failure the dialog shows the classified message. */
  function HandleStart(m: Modal, game: Api.GameSummary, typed: string, reply: Reply): (out: (Modal, Option<(Api.GameSummary, string)>))
    ensures out.0.isOwner == m.isOwner && out.0.isAlreadyJoined == m.isAlreadyJoined
    ensures out.1.Some? <==> GameJoinApi.StartGame(reply).Ok?
    ensures out.1.Some? ==> out.0.error == "" && out.1.value.1 == ChosenPassword(game, typed)
                            && out.1.value.0 == game.(status := JStr("rounds"))
    ensures out.1.None? ==> out.0.error == StartErrorText(GameJoinApi.StartGame(reply).error.message)
                            && out.0.error != ""
  {
    var r := GameJoinApi.StartGame(reply);
    if r.Ok? then (m.(error := ""), Some((game.(status := JStr("rounds")), ChosenPassword(game, typed))))
    else (m.(error := StartErrorText(r.error.message)), None)
  }
}

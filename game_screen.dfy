/** The waiting room of GameScreen.jsx: where the player name and game
    password come from, the checks made before anything is loaded, the
    polled details with their one-shot redirect into the game, who may
    start the game, and the messages shown for failed loads and starts. */
module GameScreen {
  import opened Wrappers
  import opened Text
  import opened Json
  import opened Http
  import Api
  import GameJoinApi

  /** `c0 ?? c1 ?? ... ?? ""`. */
  function FirstPresent(cands: seq<Json>): (v: Json)
    ensures !IsNullish(v)
    ensures v == JStr("") || v in cands
  {
    if cands == [] then JStr("") else Coalesce(cands[0], FirstPresent(cands[1..]))
  }

  /** The chain yields the first candidate that is neither null nor
      undefined. */
  lemma {:induction false} FirstPresentPicksFirst(cands: seq<Json>, k: nat)
    requires k < |cands| && !IsNullish(cands[k])
    requires forall j :: 0 <= j < k ==> IsNullish(cands[j])
    ensures FirstPresent(cands) == cands[k]
  {
    if k > 0 {
      assert IsNullish(cands[0]);
      FirstPresentPicksFirst(cands[1..], k - 1);
    }
  }

  /** When every candidate is missing the chain yields "". */
  lemma {:induction false} FirstPresentAllMissing(cands: seq<Json>)
    requires forall j :: 0 <= j < |cands| ==> IsNullish(cands[j])
    ensures FirstPresent(cands) == JStr("")
  {
    if cands != [] {
      FirstPresentAllMissing(cands[1..]);
    }
  }

  /** `sessionStorage.getItem(key)`: the stored string or null. */
  function Stored(session: map<string, string>, key: string): (v: Json)
    ensures v.JNull? <==> key !in session
    ensures key in session ==> v == JStr(session[key])
  {
    if key in session then JStr(session[key]) else JNull
  }

  /** `game?.id ?? gameId`, as the string the storage keys embed. */
  function GameKey(game: Json, routeId: Json): string {
    ToStr(Coalesce(OptGet(game, "id"), routeId))
  }

  function PlayerKey(key: string): string { "playerName:" + key }
  function PasswordKey(key: string): string { "gamePassword:" + key }

  datatype Credentials = Credentials(username: Json, password: Json)

  /** The name: prop, `location.state.username`, the per-game entry, the
      global entry. */
  function UsernameFor(usernameProp: Json, routeState: Json, session: map<string, string>, key: string): Json {
    FirstPresent([usernameProp, OptGet(routeState, "username"),
                  Stored(session, PlayerKey(key)), Stored(session, "username")])
  }

  /** The password prop as the component receives it: its default `""`
      replaces an omitted (undefined) prop. */
  function PasswordPropAsWritten(passwordProp: Json): (v: Json)
    ensures !v.JUndefined?
  {
    if passwordProp.JUndefined? then JStr("") else passwordProp
  }

  /** The password chain as written: behind the defaulted prop. */
  function PasswordAsWritten(passwordProp: Json, routeState: Json, session: map<string, string>, key: string): Json {
    FirstPresent([PasswordPropAsWritten(passwordProp), OptGet(routeState, "gamePassword"),
                  Stored(session, PasswordKey(key)), Stored(session, "gamePassword")])
  }

  /** As written, the fallbacks are reached only for an explicit `null`
      prop: an omitted prop (the `/room/:gameId` route renders the screen
      without props) never reads the password passed in the navigation
      state or stored for the game. */
  lemma OmittedPasswordPropHidesFallbacks(routeState: Json, session: map<string, string>, key: string)
    ensures PasswordAsWritten(JUndefined, routeState, session, key) == JStr("")
  {
  }

  /** The evidently intended chain: the prop, when given, then the same
      fallbacks. */
  function PasswordFor(passwordProp: Json, routeState: Json, session: map<string, string>, key: string): Json {
    FirstPresent([passwordProp, OptGet(routeState, "gamePassword"),
                  Stored(session, PasswordKey(key)), Stored(session, "gamePassword")])
  }

  /** A concrete case: opened by route with the game's password stored,
      the model as written sends no password, the corrected chain sends
      the stored one. */
  lemma RoutePasswordLost()
    ensures var session := map[PasswordKey("g1") := "secret"];
            PasswordAsWritten(JUndefined, JUndefined, session, "g1") == JStr("")
            && PasswordFor(JUndefined, JUndefined, session, "g1") == JStr("secret")
  {
    var session := map[PasswordKey("g1") := "secret"];
    var cands := [JUndefined, OptGet(JUndefined, "gamePassword"),
                  Stored(session, PasswordKey("g1")), Stored(session, "gamePassword")];
    FirstPresentPicksFirst(cands, 2);
  }

  /** `getCredentials`, with the corrected password chain. */
  function GetCredentials(usernameProp: Json, passwordProp: Json, routeState: Json,
                          session: map<string, string>, key: string): (c: Credentials)
    ensures !IsNullish(c.username) && !IsNullish(c.password)
    // a given prop wins, even the empty string
    ensures !IsNullish(usernameProp) ==> c.username == usernameProp
    ensures !IsNullish(passwordProp) ==> c.password == passwordProp
  {
    Credentials(UsernameFor(usernameProp, routeState, session, key),
                PasswordFor(passwordProp, routeState, session, key))
  }

  /** With neither prop nor navigation state, the corrected chain uses the
      credentials stored for the game, ahead of the global ones. */
  lemma StoredCredentialsUsed(routeState: Json, session: map<string, string>, key: string)
    requires IsNullish(OptGet(routeState, "username")) && IsNullish(OptGet(routeState, "gamePassword"))
    requires PlayerKey(key) in session && PasswordKey(key) in session
    ensures GetCredentials(JUndefined, JUndefined, routeState, session, key)
            == Credentials(JStr(session[PlayerKey(key)]), JStr(session[PasswordKey(key)]))
    // where the chain as written finds no password at all
    ensures PasswordAsWritten(JUndefined, routeState, session, key) == JStr("")
  {
    OmittedPasswordPropHidesFallbacks(routeState, session, key);
    FirstPresentPicksFirst([JUndefined, OptGet(routeState, "username"),
                            Stored(session, PlayerKey(key)), Stored(session, "username")], 2);
    FirstPresentPicksFirst([JUndefined, OptGet(routeState, "gamePassword"),
                            Stored(session, PasswordKey(key)), Stored(session, "gamePassword")], 2);
  }

  const NoPlayerError := "No se pudo identificar al jugador. Vuelva al lobby."
  const NoPasswordError := "Esta partida es privada y no se encontró la contraseña. Vuelva a unirse."

  datatype AuthCheck = NoPlayer | PrivateWithoutPassword | Proceed {
    function Message(): string {
      match this
      case NoPlayer => NoPlayerError
      case PrivateWithoutPassword => NoPasswordError
      case Proceed => ""
    }
  }

  /** The checks of the mount effect: a name is needed, and a password for
      a game marked private. */
  function CheckAuth(creds: Credentials, game: Json): (a: AuthCheck)
    ensures a == NoPlayer <==> !Truthy(creds.username)
    ensures a == PrivateWithoutPassword <==>
              Truthy(creds.username) && Truthy(OptGet(game, "requiresPassword")) && !Truthy(creds.password)
  {
    if !Truthy(creds.username) then NoPlayer
    else if Truthy(OptGet(game, "requiresPassword")) && !Truthy(creds.password) then PrivateWithoutPassword
    else Proceed
  }

  /** The session entries the mount effect writes once the checks pass:
      the name always, the password when there is one. */
  function CredentialWrites(creds: Credentials, key: string): (w: map<string, string>)
    ensures PlayerKey(key) in w && w[PlayerKey(key)] == ToStr(creds.username)
    ensures (PasswordKey(key) in w) <==> Truthy(creds.password)
    ensures Truthy(creds.password) ==> w[PasswordKey(key)] == ToStr(creds.password)
  {
    var w := map[PlayerKey(key) := ToStr(creds.username)];
    if Truthy(creds.password) then
      assert PlayerKey(key) != PasswordKey(key) by {
        assert PlayerKey(key)[0] != PasswordKey(key)[0];
      }
      w[PasswordKey(key) := ToStr(creds.password)]
    else w
  }

  /** A screen remounted without props or navigation state finds the
      string credentials that passed the checks in what was written. */
  lemma WrittenCredentialsReread(creds: Credentials, key: string, session: map<string, string>)
    requires creds.username.JStr? && creds.password.JStr?
    requires Truthy(creds.password)
    ensures var after := session + CredentialWrites(creds, key);
            GetCredentials(JUndefined, JUndefined, JUndefined, after, key) == creds
  {
    var after := session + CredentialWrites(creds, key);
    StoredCredentialsUsed(JUndefined, after, key);
    FirstPresentPicksFirst([JUndefined, OptGet(JUndefined, "gamePassword"),
                            Stored(after, PasswordKey(key)), Stored(after, "gamePassword")], 2);
  }

  const InvalidCredentialsShown := "Credenciales inválidas. No tienes acceso a esta partida."
  const ConnectionShown := "Error de conexión. Verifica tu internet."
  const LoadFailedShown := "Error al cargar la partida"

  /** The message of a failed load, and whether the stored credentials of
      the game are removed. */
  datatype LoadFailure = LoadFailure(message: string, forgetStored: bool)

  /** The `catch` of `loadGameDetails`: credentials and 403 first (which
      also forgets the stored credentials), then the connection, then the
      error's own message. */
  function LoadErrorText(msg: string): (f: LoadFailure)
    ensures f.forgetStored <==> Contains(msg, "Invalid credentials") || Contains(msg, "403")
    ensures f.forgetStored ==> f.message == InvalidCredentialsShown
    ensures !f.forgetStored && Contains(msg, "Failed to fetch") ==> f.message == ConnectionShown
    ensures !f.forgetStored && !Contains(msg, "Failed to fetch")
            ==> f.message == (if msg != "" then msg else LoadFailedShown)
    ensures f.message != ""
  {
    if Contains(msg, "Invalid credentials") || Contains(msg, "403") then LoadFailure(InvalidCredentialsShown, true)
    else if Contains(msg, "Failed to fetch") then LoadFailure(ConnectionShown, false)
    else LoadFailure(if msg != "" then msg else LoadFailedShown, false)
  }

  const NoPermissionShown := "No tienes permisos para iniciar esta partida."
  const NeedFiveShown := "Se necesitan al menos 5 jugadores para iniciar."
  const AlreadyStartedShown := "La partida ya ha sido iniciada."
  const StartFailedShown := "Error desconocido al iniciar partida"

  /** The `catch` of `handleStartGame`: credentials and 403, then 428,
      then 409, then the error's own message. */
  function StartErrorText(msg: string): (m: string)
    ensures Contains(msg, "Invalid credentials") || Contains(msg, "403") ==> m == NoPermissionShown
    ensures !(Contains(msg, "Invalid credentials") || Contains(msg, "403")) && Contains(msg, "428") ==> m == NeedFiveShown
    ensures (!(Contains(msg, "Invalid credentials") || Contains(msg, "403")) && !Contains(msg, "428")
             && Contains(msg, "409")) ==> m == AlreadyStartedShown
    ensures !(Contains(msg, "Invalid credentials") || Contains(msg, "403") || Contains(msg, "428") || Contains(msg, "409"))
            ==> m == (if msg != "" then msg else StartFailedShown)
  {
    if Contains(msg, "Invalid credentials") || Contains(msg, "403") then NoPermissionShown
    else if Contains(msg, "428") then NeedFiveShown
    else if Contains(msg, "409") then AlreadyStartedShown
    else if msg != "" then msg else StartFailedShown
  }

  /** The service already words refused starts in Spanish, so for a 428,
      409, 403 or 401 without an `X-Msg` header the screen's keyword
      branches never fire and the service's message is shown as is. */
  lemma ServiceStartErrorsShownAsSent(res: Response)
    requires Header(res, XMsgHeader).None?
    requires res.status in {428, 409, 403, 401}
    ensures StartErrorText(GameJoinApi.StartErrorMessage(res)) == GameJoinApi.StartErrorMessage(res)
  {
    var m := GameJoinApi.StartErrorMessage(res);
    GameJoinApi.StartMessagesLackKeywords();
    assert m in {GameJoinApi.NeedFivePlayers, GameJoinApi.AlreadyStarted,
                 GameJoinApi.NotAllowedToStart, GameJoinApi.BadCredentials};
    NoKeywordShownAsIs(m);
  }

  /** A non-empty message with neither `4` nor `I` is shown as it is. */
  lemma NoKeywordShownAsIs(m: string)
    requires m != "" && '4' !in m && 'I' !in m
    ensures StartErrorText(m) == m
  {
    MissingCharNotContained(m, "Invalid credentials", 'I');
    assert "403"[0] == '4' && "428"[0] == '4' && "409"[0] == '4';
    MissingCharNotContained(m, "403", '4');
    MissingCharNotContained(m, "428", '4');
    MissingCharNotContained(m, "409", '4');
  }

  /** The route and state of a navigation into the game. */
  datatype Navigation = Navigation(
    path: string,
    username: Json,
    roomName: Json,
    players: Json,
    playersCount: Json,
    password: Json)

  function GamePath(id: string): string { "/game/" + id }

  /** `canStartGame` on the displayed game: its owner is the player, it
      has at least five players and it is still in the lobby. */
  predicate CanStart(displayGame: Json, username: Json) {
    StrictEq(OptGet(displayGame, "owner"), username)
    && AtLeast(Or(OptGet(OptGet(displayGame, "players"), "length"), JNum(0)), 5)
    && OptGet(displayGame, "status") == JStr("lobby")
  }

  /** For a record with a string owner, a players array and a string
      status, the rule reads as the lobby states it. */
  lemma CanStartOnRecord(fields: map<string, Json>, owner: string, players: seq<Json>, status: string, username: string)
    requires "owner" in fields && fields["owner"] == JStr(owner)
    requires "players" in fields && fields["players"] == JArr(players)
    requires "status" in fields && fields["status"] == JStr(status)
    ensures CanStart(JObj(fields), JStr(username)) <==> owner == username && |players| >= 5 && status == "lobby"
  {
  }

  /** Without a players list a game can never be started from here. */
  lemma NoPlayersNoStart(displayGame: Json, username: Json)
    requires !Truthy(OptGet(displayGame, "players"))
    ensures !CanStart(displayGame, username)
  {
  }

  /** The screen's state cells and its `hasRedirectedRef`. */
  class WaitingRoom {
    /** `game?.id ?? gameId`, the `game` prop and `location.state`. */
    const gameKey: string
    const game: Json
    const routeState: Json

    var credentials: Credentials
    var gameDetails: Json
    var loading: bool
    var authError: string
    /** `hasRedirectedRef.current`. */
    var hasRedirected: bool

    constructor (gameKey: string, game: Json, routeState: Json)
      ensures this.gameKey == gameKey && this.game == game && this.routeState == routeState
      ensures credentials == Credentials(JStr(""), JStr("")) && gameDetails == JNull
      ensures loading && authError == "" && !hasRedirected
    {
      this.gameKey := gameKey;
      this.game := game;
      this.routeState := routeState;
      credentials := Credentials(JStr(""), JStr(""));
      gameDetails := JNull;
      loading := true;
      authError := "";
      hasRedirected := false;
    }

    /** The game the page shows: the loaded details, else the prop. */
    function DisplayGame(): Json
      reads this
    {
      Or(gameDetails, game)
    }

    predicate CanStartGame()
      reads this
    {
      CanStart(DisplayGame(), credentials.username)
    }

    /** The five-second poll runs while a player is known and no redirect
        has happened. */
    predicate Polling()
      reads this
    {
      Truthy(credentials.username) && !hasRedirected
    }

    /** The mount effect, given what `getCredentials` returned. A failed
        check shows its message and stops loading; otherwise the
        credentials are kept and the session entries are returned as
        `writes`. The `loadGameDetails` it then calls still sees the
        credentials of the first render, so it only clears the error: the
        first request is the poll's. */
    method Mount(creds: Credentials) returns (check: AuthCheck, writes: map<string, string>)
      modifies this
      ensures check == CheckAuth(creds, game)
      ensures check != Proceed ==> authError == check.Message() && !loading && writes == map[]
                                   && credentials == old(credentials)
      ensures check == Proceed ==> credentials == creds && writes == CredentialWrites(creds, gameKey)
                                   && authError == "" && loading == old(loading)
      ensures gameDetails == old(gameDetails) && hasRedirected == old(hasRedirected)
    {
      check := CheckAuth(creds, game);
      writes := map[];
      if check != Proceed {
        authError := check.Message();
        loading := false;
        return;
      }
      writes := CredentialWrites(creds, gameKey);
      credentials := creds;
      // loadGameDetails from the closure of the previous render; a request
      // it would make on a remount with new props is not modelled
      authError := "";
    }

    /** The navigation `loadGameDetails` makes when the game has started. */
    function Redirect(d: Json): Navigation
      reads this
    {
      var players := OptGet(d, "players");
      var arr := if players.JArr? then players else JArr([]);
      Navigation(GamePath(gameKey), credentials.username,
                 Or(OptGet(d, "name"), Or(OptGet(routeState, "roomName"), Or(OptGet(game, "name"), JStr("")))),
                 arr, JNum(|arr.items|), credentials.password)
    }

    /** `loadGameDetails` with the server's answer given: no request
        without a name; a successful one stores the details, stops
        loading and, only the first time a `rounds` status is seen, sets
        the guard and navigates; a failed one shows its message. */
    method LoadDetails(reply: Reply) returns (requested: bool, nav: Option<Navigation>, forget: bool)
      modifies this
      ensures requested <==> Truthy(old(credentials.username))
      ensures credentials == old(credentials)
      ensures !requested ==> authError == "" && nav.None? && !forget && loading == old(loading)
                             && gameDetails == old(gameDetails) && hasRedirected == old(hasRedirected)
      ensures var out := Api.GetGameDetails(ToStr(credentials.username), ToStr(credentials.password), reply).1;
              requested && out.Ok? ==>
                gameDetails == Or(Get(out.value, "data"), JNull) && !loading && authError == "" && !forget
                && (nav.Some? <==> !old(hasRedirected) && OptGet(gameDetails, "status") == JStr("rounds"))
                && (nav.Some? ==> nav.value == Redirect(gameDetails))
                && hasRedirected == (old(hasRedirected) || nav.Some?)
      ensures var out := Api.GetGameDetails(ToStr(credentials.username), ToStr(credentials.password), reply).1;
              requested && out.Err? ==>
                !loading && authError == LoadErrorText(out.error.message).message
                && forget == LoadErrorText(out.error.message).forgetStored
                && nav.None? && gameDetails == old(gameDetails) && hasRedirected == old(hasRedirected)
      // a redirect happens at most once: once set, the guard stays set
      ensures old(hasRedirected) ==> hasRedirected && nav.None?
    {
      authError := "";
      nav := None;
      forget := false;
      requested := Truthy(credentials.username);
      if !requested {
        return;
      }
      var out := Api.GetGameDetails(ToStr(credentials.username), ToStr(credentials.password), reply).1;
      nav, forget := ApplyDetails(out);
    }

    /** What `loadGameDetails` does with the details call's outcome: store
        the data and redirect once into a running game, or show the
        classified error. */
    method ApplyDetails(out: Result<Json>) returns (nav: Option<Navigation>, forget: bool)
      requires authError == ""
      modifies this
      ensures credentials == old(credentials)
      ensures out.Ok? ==>
                gameDetails == Or(Get(out.value, "data"), JNull) && !loading && authError == "" && !forget
                && (nav.Some? <==> !old(hasRedirected) && OptGet(gameDetails, "status") == JStr("rounds"))
                && (nav.Some? ==> nav.value == Redirect(gameDetails))
                && hasRedirected == (old(hasRedirected) || nav.Some?)
      ensures out.Err? ==>
                !loading && authError == LoadErrorText(out.error.message).message
                && forget == LoadErrorText(out.error.message).forgetStored
                && nav.None? && gameDetails == old(gameDetails) && hasRedirected == old(hasRedirected)
    {
      nav := None;
      forget := false;
      if out.Err? {
        loading := false;
        var f := LoadErrorText(out.error.message);
        authError := f.message;
        forget := f.forgetStored;
        return;
      }
      gameDetails := Or(Get(out.value, "data"), JNull);
      loading := false;
      if !hasRedirected && OptGet(gameDetails, "status") == JStr("rounds") {
        hasRedirected := true;
        nav := Some(Redirect(gameDetails));
      }
    }

    /** The retry button: clears the error, shows the spinner and loads. */
    method Retry(reply: Reply) returns (requested: bool, nav: Option<Navigation>, forget: bool)
      modifies this
      ensures requested <==> Truthy(old(credentials.username))
      ensures !requested ==> loading && authError == "" && nav.None?
      ensures requested ==> !loading
      ensures credentials == old(credentials)
      ensures !requested ==> !forget && gameDetails == old(gameDetails) && hasRedirected == old(hasRedirected)
      ensures var out := Api.GetGameDetails(ToStr(credentials.username), ToStr(credentials.password), reply).1;
              requested && out.Ok? ==>
                gameDetails == Or(Get(out.value, "data"), JNull) && !loading && authError == "" && !forget
                && (nav.Some? <==> !old(hasRedirected) && OptGet(gameDetails, "status") == JStr("rounds"))
                && (nav.Some? ==> nav.value == Redirect(gameDetails))
                && hasRedirected == (old(hasRedirected) || nav.Some?)
      ensures var out := Api.GetGameDetails(ToStr(credentials.username), ToStr(credentials.password), reply).1;
              requested && out.Err? ==>
                !loading && authError == LoadErrorText(out.error.message).message
                && forget == LoadErrorText(out.error.message).forgetStored
                && nav.None? && gameDetails == old(gameDetails) && hasRedirected == old(hasRedirected)
      ensures old(hasRedirected) ==> hasRedirected && nav.None?
    {
      authError := "";
      loading := true;
      requested, nav, forget := LoadDetails(reply);
    }

    /** Message of the TypeError of `game.id` when the screen's game prop
        is null or undefined, written in pieces of at most eight
        characters. */
    static function NoGameId(game: Json): string
    {
      var kind := if game.JNull? then "null" else "undefi" + "ned";
      "Cannot r" + "ead prop" + "erties o" + "f " + kind + " (rea" + "ding 'id" + "')"
    }

    /** The TypeError's message has no keyword, so `handleStartGame` shows
        it as it is. */
    static lemma NoGameIdShownAsIs(game: Json)
      ensures StartErrorText(NoGameId(game)) == NoGameId(game)
    {
      var c0, c1, c2, c3, c4, c5, c6, c7 := "Cannot r", "ead prop", "erties o", "f ", " (rea", "ding 'id", "')", "null";
      var c8, c9 := "undefi", "ned";
      assert '4' !in c0 && 'I' !in c0;
      assert '4' !in c1 && 'I' !in c1;
      assert '4' !in c2 && 'I' !in c2;
      assert '4' !in c3 && 'I' !in c3;
      assert '4' !in c4 && 'I' !in c4;
      assert '4' !in c5 && 'I' !in c5;
      assert '4' !in c6 && 'I' !in c6;
      assert '4' !in c7 && 'I' !in c7;
      assert '4' !in c8 && 'I' !in c8;
      assert '4' !in c9 && 'I' !in c9;
      NoKeywordShownAsIs(NoGameId(game));
    }

    /** `handleStartGame` with both answers given: start, reload the
        details and navigate into the game; any failure on the way is
        shown through the start classification. */
    method StartGame(startReply: Reply, detailsReply: Reply) returns (nav: Option<Navigation>)
      modifies this
      ensures credentials == old(credentials) && loading == old(loading) && hasRedirected == old(hasRedirected)
      // the TypeError of `game.id`, shown as it is (NoGameIdShownAsIs)
      ensures IsNullish(game) ==> nav.None? && authError == NoGameId(game) && gameDetails == old(gameDetails)
      ensures var started := GameJoinApi.StartGame(startReply);
              !IsNullish(game) && started.Err? ==>
                nav.None? && authError == StartErrorText(started.error.message) && gameDetails == old(gameDetails)
      ensures var started := GameJoinApi.StartGame(startReply);
              var out := Api.GetGameDetails(ToStr(credentials.username), ToStr(credentials.password), detailsReply).1;
              !IsNullish(game) && started.Ok? && out.Err? ==>
                nav.None? && authError == StartErrorText(out.error.message) && gameDetails == old(gameDetails)
      ensures var started := GameJoinApi.StartGame(startReply);
              var out := Api.GetGameDetails(ToStr(credentials.username), ToStr(credentials.password), detailsReply).1;
              !IsNullish(game) && started.Ok? && out.Ok? ==>
                authError == "" && gameDetails == Get(out.value, "data")
                && nav == Some(Navigation(GamePath(ToStr(Get(game, "id"))), credentials.username,
                                          Or(OptGet(gameDetails, "name"), Or(Get(game, "name"), JStr(""))),
                                          Or(OptGet(gameDetails, "players"), JArr([])),
                                          Or(OptGet(OptGet(gameDetails, "players"), "length"), JNum(0)),
                                          credentials.password))
    {
      authError := "";
      nav := None;
      if IsNullish(game) {
        authError := NoGameId(game);
        return;
      }
      var started := GameJoinApi.StartGame(startReply);
      if started.Err? {
        authError := StartErrorText(started.error.message);
        return;
      }
      var out := Api.GetGameDetails(ToStr(credentials.username), ToStr(credentials.password), detailsReply).1;
      if out.Err? {
        authError := StartErrorText(out.error.message);
        return;
      }
      gameDetails := Get(out.value, "data");
      nav := Some(Navigation(GamePath(ToStr(Get(game, "id"))), credentials.username,
                             Or(OptGet(gameDetails, "name"), Or(Get(game, "name"), JStr(""))),
                             Or(OptGet(gameDetails, "players"), JArr([])),
                             Or(OptGet(OptGet(gameDetails, "players"), "length"), JNum(0)),
                             credentials.password));
    }
  }

  /** After a redirect the poll is off for good: further loads never
      clear the guard. */
  method PollStopsAfterRedirect(room: WaitingRoom, reply: Reply) returns (nav: Option<Navigation>)
    requires room.hasRedirected
    modifies room
    ensures !room.Polling() && nav.None?
  {
    var requested, forget;
    requested, nav, forget := room.LoadDetails(reply);
  }
}

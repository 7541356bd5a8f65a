/** The create-game dialog of CreateGameModal.jsx: the checks `handleCreate`
    runs before calling `createGame`, the per-field validity flags, when
    the button and the Enter key may create, and the game handed back to
    the lobby. */
module CreateGameModal {
  import opened Wrappers
  import opened Text
  import opened Json
  import opened Http
  import GameCreateApi

  const CreateFailed := "Error al crear la partida"

  /** The checks of `handleCreate`, in source order, on trimmed lengths;
      on success the trimmed values `createGame` is called with (a blank
      password is passed as `undefined`). */
  function ModalValidate(name: string, owner: string, password: string): (r: Result<GameCreateApi.CreateRequest>)
    ensures r.Ok? <==> !IsBlank(name) && GameCreateApi.InLengthRange(Trim(name))
                       && !IsBlank(owner) && GameCreateApi.InLengthRange(Trim(owner))
                       && (IsBlank(password) || GameCreateApi.InLengthRange(Trim(password)))
    ensures IsBlank(name) ==> r == Thrown(GameCreateApi.NameRequired)
    ensures !IsBlank(name) && !GameCreateApi.InLengthRange(Trim(name)) ==> r == Thrown(GameCreateApi.NameLength)
    ensures !IsBlank(name) && GameCreateApi.InLengthRange(Trim(name)) && IsBlank(owner)
            ==> r == Thrown(GameCreateApi.OwnerRequired)
    ensures !IsBlank(name) && GameCreateApi.InLengthRange(Trim(name))
            && !IsBlank(owner) && !GameCreateApi.InLengthRange(Trim(owner))
            ==> r == Thrown(GameCreateApi.OwnerLength)
    ensures !IsBlank(name) && GameCreateApi.InLengthRange(Trim(name))
            && !IsBlank(owner) && GameCreateApi.InLengthRange(Trim(owner))
            && !IsBlank(password) && !GameCreateApi.InLengthRange(Trim(password))
            ==> r == Thrown(GameCreateApi.PasswordLength)
    ensures r.Ok? ==> r.value.name == Trim(name) && r.value.owner == Trim(owner)
                      && r.value.password == (if IsBlank(password) then None else Some(Trim(password)))
  {
    if IsBlank(name) then Thrown(GameCreateApi.NameRequired)
    else if !GameCreateApi.InLengthRange(Trim(name)) then Thrown(GameCreateApi.NameLength)
    else if IsBlank(owner) then Thrown(GameCreateApi.OwnerRequired)
    else if !GameCreateApi.InLengthRange(Trim(owner)) then Thrown(GameCreateApi.OwnerLength)
    else if !IsBlank(password) && !GameCreateApi.InLengthRange(Trim(password)) then Thrown(GameCreateApi.PasswordLength)
    else Ok(GameCreateApi.CreateRequest(Trim(name), Trim(owner), if IsBlank(password) then None else Some(Trim(password))))
  }

  lemma BlankTrim(s: string)
    ensures IsBlank(Trim(s)) <==> IsBlank(s)
    ensures Trim(Trim(s)) == Trim(s)
  {
    TrimIdempotent(s);
  }

  /** The dialog checks exactly what the service checks on the trimmed
      values it receives, with the same messages, so `createGame` never
      rejects what the dialog lets through. */
  lemma ModalAgreesWithService(name: string, owner: string, password: string)
    ensures ModalValidate(name, owner, password)
            == GameCreateApi.ValidateCreate(Trim(name), Trim(owner), Trim(password))
  {
    BlankTrim(name);
    BlankTrim(owner);
    BlankTrim(password);
  }

  /** `isGameNameValid`, `isOwnerValid`, `isPasswordValid`: an empty field
      counts as valid, any other needs 3 to 20 characters as typed. */
  predicate FieldValid(s: string) {
    s == "" || GameCreateApi.InLengthRange(s)
  }

  /** The create button is enabled. */
  predicate ButtonEnabled(name: string, owner: string, password: string, loading: bool) {
    !IsBlank(name) && !IsBlank(owner) && !loading
    && FieldValid(name) && FieldValid(owner) && FieldValid(password)
  }

  /** `handleKeyPress` calls `handleCreate`. */
  predicate EnterCreates(key: string, name: string, owner: string, loading: bool) {
    key == "Enter" && !IsBlank(name) && !IsBlank(owner) && !loading
  }

  /** Enter is the looser trigger: whenever the button is enabled, Enter
      creates too. */
  lemma ButtonImpliesEnter(name: string, owner: string, password: string, loading: bool)
    ensures ButtonEnabled(name, owner, password, loading) ==> EnterCreates("Enter", name, owner, loading)
  {
  }

  /** For fields typed without surrounding white space the button is
      enabled exactly when the checks of `handleCreate` pass (and nothing
      is loading). */
  lemma UnpaddedButtonAgreesWithChecks(name: string, owner: string, password: string, loading: bool)
    requires Trim(name) == name && Trim(owner) == owner && Trim(password) == password
    ensures ButtonEnabled(name, owner, password, loading) <==> ModalValidate(name, owner, password).Ok? && !loading
  {
  }

  /** The game passed to `onGameCreated`. */
  datatype CreatedGame = CreatedGame(
    id: Json,
    name: Json,
    owner: Json,
    status: string,
    players: seq<string>,
    password: string,
    requiresPassword: bool)

  /** What one `handleCreate` ends with: a check's message (no request), a
      failed request's message, or the new game. `loading` is false again
      in every case. */
  datatype CreateOutcome = Invalid(message: string) | Failed(message: string) | Created(game: CreatedGame)

  /** `err.message || 'Error al crear la partida'`. */
  function FailureText(e: Error): (m: string)
    ensures m != ""
    ensures e.message != "" ==> m == e.message
  {
    if e.message != "" then e.message else CreateFailed
  }

  /** `handleCreate`, with the server's answer to the POST given. */
  function HandleCreate(username: string, name: string, owner: string, password: string, reply: Reply): (o: CreateOutcome)
    ensures o.Invalid? <==> ModalValidate(name, owner, password).Err?
    ensures o.Invalid? ==> o.message == ModalValidate(name, owner, password).error.message
    ensures o.Failed? ==> o.message != ""
    ensures o.Created? ==> reply.Received? && IsOk(reply.res)
    ensures o.Created? ==> o.game.status == "lobby" && o.game.players == [username]
                           && o.game.password == Trim(password)
                           && o.game.requiresPassword == (o.game.password != "")
                           && o.game.owner == JStr(Trim(owner))
    // once the checks pass: created iff createGame resolves, with its id, name and owner;
    // otherwise its error's text
    ensures ModalValidate(name, owner, password).Ok? ==>
              var call := GameCreateApi.CreateGame(Trim(name), Trim(owner), Trim(password), reply).1;
              && (o.Created? <==> call.Ok?)
              && (call.Err? ==> o == Failed(FailureText(call.error)))
              && (call.Ok? ==> o.game.id == call.value.id && o.game.name == call.value.name
                               && o.game.owner == call.value.owner)
  {
    var checked := ModalValidate(name, owner, password);
    if checked.Err? then Invalid(checked.error.message)
    else
      var call := GameCreateApi.CreateGame(Trim(name), Trim(owner), Trim(password), reply);
      match call.1
      case Err(e) => Failed(FailureText(e))
      case Ok(newGame) =>
        Created(CreatedGame(newGame.id, newGame.name, newGame.owner, "lobby", [username],
                            Trim(password), Trim(password) != ""))
  }

  /** Once the dialog's checks pass, the request reaches the network: the
      service sends the trimmed values and the only failures left are the
      server's or the connection's. */
  lemma ValidDialogSendsRequest(username: string, name: string, owner: string, password: string, reply: Reply)
    requires ModalValidate(name, owner, password).Ok?
    ensures GameCreateApi.CreateGame(Trim(name), Trim(owner), Trim(password), reply).0
            == Some(ModalValidate(name, owner, password).value)
    ensures reply.Received? && !IsOk(reply.res)
            ==> HandleCreate(username, name, owner, password, reply)
                == Failed(FailureText(Error(GameCreateApi.CreateError(reply.res), None)))
  {
    ModalAgreesWithService(name, owner, password);
  }
}

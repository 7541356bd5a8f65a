/** The game lobby of Lobby.jsx: the login form that fixes the player name
    and the server URL, the search-term checks in front of the game list,
    the choice between a filtered search and the paged full listing, and
    the status badge of each listed game. */
module Lobby {
  import opened Text
  import opened Json
  import Api
  import ApiConfig

  const UrlSchemeAlert := "La URL debe comenzar con http:// o https://"
  const SearchTooShort := "La busqueda requiere al menos 3 caracteres"
  const SearchTooLong := "La busqueda no puede exceder 20 caracteres"

  /** What submitting the login form does: nothing, the scheme alert, or
      a login that stores the trimmed name and URL (and hands the URL to
      `setBaseUrl`). */
  datatype LoginOutcome = Ignored | SchemeAlert | LoggedIn(username: string, url: string)

  /** `handleUserSubmit`. The form is acted on only for a non-blank name of
      at least 3 characters (counted before trimming) and a non-blank URL;
      the scheme is checked on the URL as typed. */
  function UserSubmit(username: string, userUrl: string): (o: LoginOutcome)
    ensures o.LoggedIn? <==> !IsBlank(username) && |username| >= 3 && !IsBlank(userUrl) && ApiConfig.HasScheme(userUrl)
    ensures o.SchemeAlert? <==> !IsBlank(username) && |username| >= 3 && !IsBlank(userUrl) && !ApiConfig.HasScheme(userUrl)
    ensures o.LoggedIn? ==> o.username == Trim(username) && o.url == Trim(userUrl)
  {
    if !IsBlank(username) && |username| >= 3 && !IsBlank(userUrl) then
      if !ApiConfig.HasScheme(userUrl) then SchemeAlert
      else LoggedIn(Trim(username), Trim(userUrl))
    else Ignored
  }

  /** Trimming a URL that starts with a scheme keeps the scheme. */
  lemma LoggedInUrlHasScheme(username: string, userUrl: string)
    requires UserSubmit(username, userUrl).LoggedIn?
    ensures ApiConfig.HasScheme(UserSubmit(username, userUrl).url)
  {
    SchemeSurvivesTrim(userUrl);
  }

  lemma SchemeSurvivesTrim(u: string)
    requires ApiConfig.HasScheme(u)
    ensures ApiConfig.HasScheme(Trim(u))
  {
    var k := if StartsWith(u, "https://") then 8 else 7;
    assert u[..k][0] == 'h' && u[..k][k - 1] == '/';
    assert u[0] == 'h' && u[k - 1] == '/';
    assert TrimStart(u) == u;
    var t := TrimEnd(u);
    assert !IsSpace(u[k - 1]);
    assert |t| >= k;
    assert t[..k] == u[..k];
  }

  /** A bare scheme passes the form's check, but `setBaseUrl` strips its
      slashes and refuses it: the modal closes while the base URL stays. */
  lemma BareSchemeLogsInButIsRefused(username: string, scheme: string)
    requires scheme == "http://" || scheme == "https://"
    requires !IsBlank(username) && |username| >= 3
    ensures UserSubmit(username, scheme) == LoggedIn(Trim(username), scheme)
    ensures !ApiConfig.HasScheme(ApiConfig.CleanUrl(UserSubmit(username, scheme).url))
  {
    assert Trim(scheme) == scheme by {
      assert scheme[0] == 'h' && scheme[|scheme| - 1] == '/';
      TrimUnpadded(scheme);
    }
    assert ApiConfig.HasScheme(scheme) by {
      if scheme == "http://" {
        assert scheme[..7] == "http://";
      } else {
        assert scheme[..8] == "https://";
      }
    }
    var o := UserSubmit(username, scheme);
    assert o.LoggedIn? && o.url == scheme;
    ApiConfig.BareSchemeRejected();
  }


  /** Any login URL not ending in a slash is taken by `setBaseUrl` as it
      was stored. */
  lemma LoginUrlBecomesBase(username: string, userUrl: string)
    requires UserSubmit(username, userUrl).LoggedIn?
    requires var u := UserSubmit(username, userUrl).url; u[|u| - 1] != '/'
    ensures var u := UserSubmit(username, userUrl).url;
            !IsBlank(u) && ApiConfig.CleanUrl(u) == u && ApiConfig.UsableBase(u)
  {
    var u := UserSubmit(username, userUrl).url;
    LoggedInUrlHasScheme(username, userUrl);
    TrimIdempotent(userUrl);
  }

  /** The outcome of one debounced search check: the new validation
      message and whether the list is reloaded with the term. */
  datatype SearchCheck = SearchCheck(message: string, load: bool)

  /** The debounced effect on `searchTerm` (while the login modal is
      closed): an empty term clears the message and lists everything, a
      term of 1 or 2 characters or of more than 20 shows its message and
      loads nothing, any other term clears the message and loads. */
  function DebouncedSearch(term: string): (c: SearchCheck)
    ensures c.load <==> term == "" || 3 <= |term| <= 20
    ensures c.load <==> c.message == ""
    ensures 0 < |term| < 3 ==> c.message == SearchTooShort
    ensures |term| > 20 ==> c.message == SearchTooLong
  {
    if term != "" && |term| > 0 then
      if |term| < 3 then SearchCheck(SearchTooShort, false)
      else if |term| > 20 then SearchCheck(SearchTooLong, false)
      else SearchCheck("", true)
    else SearchCheck("", true)
  }

  /** `handleRefresh`: the same bounds, written as one test. */
  function Refresh(term: string): (c: SearchCheck)
    ensures c.load <==> !(term != "" && (|term| < 3 || |term| > 20))
  {
    if term != "" && (|term| < 3 || |term| > 20) then
      SearchCheck(if |term| < 3 then SearchTooShort else SearchTooLong, false)
    else SearchCheck("", true)
  }

  /** The refresh button and the debounced search decide alike. */
  lemma RefreshAgreesWithSearch(term: string)
    ensures Refresh(term) == DebouncedSearch(term)
  {
  }

  /** Which service call `loadGames(search)` makes. */
  datatype GamesSource = Search(term: string) | AllPages(term: string)

  /** `loadGames`: `searchGames(search, "", 0, 100)` for a term of at least
      3 characters, `getAllGames(search)` otherwise. */
  function LoadSource(search: string): (src: GamesSource)
    ensures src.Search? <==> |search| >= 3
    ensures src.term == search
  {
    if search != "" && |search| >= 3 then Search(search) else AllPages(search)
  }

  /** The query a source sends for page `page`. */
  function PageQuery(src: GamesSource, page: int): seq<(string, string)> {
    match src
    case Search(t) => Api.SearchParams(t, "", 0, 100)
    case AllPages(t) => Api.SearchParams(t, "", page, 100)
  }

  predicate HasParam(ps: seq<(string, string)>, key: string) {
    exists i :: 0 <= i < |ps| && ps[i].0 == key
  }

  /** Every reload the checks allow either filters by the term or lists
      all games without a name filter: the short-term fallback never
      narrows the list. */
  lemma LoadedListMatchesTerm(term: string, page: int)
    requires DebouncedSearch(term).load
    ensures var src := LoadSource(term);
            HasParam(PageQuery(src, page), "name") <==> term != ""
    ensures term != "" ==> LoadSource(term) == Search(term)
  {
  }

  /** The fallback also covers a short term reaching `loadGames` without
      the checks (the clear-search button passes ""): no page of it is
      filtered by name. */
  lemma ShortTermListsAll(search: string, page: int)
    requires |search| < 3
    ensures LoadSource(search).AllPages? && !HasParam(PageQuery(LoadSource(search), page), "name")
  {
  }

  predicate InProgress(game: Api.GameSummary) {
    game.status == JStr("playing") || game.status == JStr("rounds")
  }

  predicate IsFull(game: Api.GameSummary) {
    AtLeast(game.players, game.maxPlayers)
  }

  const InProgressText := "En progresso"
  const FullText := "Llena"
  const WaitingText := "Esperando jugadores"

  /** `getStatusText`: a running game first, then a full one. */
  function StatusText(game: Api.GameSummary): (t: string)
    ensures t == InProgressText <==> InProgress(game)
    ensures t == FullText <==> !InProgress(game) && IsFull(game)
    ensures t == WaitingText <==> !InProgress(game) && !IsFull(game)
  {
    if InProgress(game) then InProgressText
    else if IsFull(game) then FullText
    else WaitingText
  }

  /** `getStatusColor`, tested in the same order. */
  function StatusColor(game: Api.GameSummary): (c: string)
    ensures c == "#FF9800" <==> InProgress(game)
    ensures c == "#f44336" <==> !InProgress(game) && IsFull(game)
    ensures c == "#4CAF50" <==> !InProgress(game) && !IsFull(game)
  {
    if InProgress(game) then "#FF9800"
    else if IsFull(game) then "#f44336"
    else "#4CAF50"
  }

  /** The colour that goes with each badge text. */
  function BadgeColor(text: string): string {
    if text == InProgressText then "#FF9800"
    else if text == FullText then "#f44336"
    else "#4CAF50"
  }

  /** Text and colour always come as a matching pair. */
  lemma StatusPairsMatch(game: Api.GameSummary)
    ensures StatusColor(game) == BadgeColor(StatusText(game))
  {
  }

  /** A listed game with its ten seats taken but not started shows as
      full; one whose players list was missing (length 0) shows as
      waiting. */
  lemma SummaryBadges(record: Json)
    requires !IsNullish(record) && !InProgress(Api.Summarize(record))
    ensures Get(record, "players").JArr? ==>
              (StatusText(Api.Summarize(record)) == FullText <==> |Get(record, "players").items| >= 10)
    ensures !Truthy(Get(record, "players")) ==> StatusText(Api.Summarize(record)) == WaitingText
  {
  }
}

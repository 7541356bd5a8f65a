# contaminaDOS client, modelled in Dafny

contaminaDOS is a browser client for a round-based hidden-role game. Players log in to a lobby with a name and a server URL. They search, create and join games, wait in a waiting room until the owner starts the game, and then play rounds. In each round a leader proposes a group, everyone votes on it, and the group members secretly collaborate or sabotage. The citizens or the psychopaths (enemies) win at three points.

This project models the logic behind those screens:

- **Round reconciler** (`In-Game.jsx`)
  - `InGameRules` holds the pure rules:
    - the group-size table and the vote tally;
    - the game-finished test, the decade and the scores;
    - the status → UI-phase mapping and the voting sub-phase;
    - active-round selection;
    - role display, the draft toggle and the submit check;
    - the polling interval.
  - `InGame` holds the stateful part:
    - the class `InGameScreen`, whose view is an immutable `Screen` value;
    - one reconciliation pass (`Update` = `BeginUpdate` + `FinishUpdate`);
    - the three reset effects;
    - the leader's selection and submit, the vote and the action.
- **Round service** (`gameRoundsAPI.js`, module `RoundsApi`)
  - the round-record filter, normalisation and first-occurrence dedupe;
  - the five-round history;
  - the snapshot lookup;
  - `proposeGroup`: its checks, normalisation loop, phase pre-check and cache blanking;
  - the argument checks of votes and actions.
- **Lobby services**
  - `api.js` (module `Api`): the error priority chain, the search query rules, the game summary, the page loop and the game-details call.
  - `cache.js` (module `MemCache`): the TTL cache.
  - `apiConfig.js` (module `ApiConfig`): URL cleaning and the current base URL.
  - `gameCreateAPI.js` (module `GameCreateApi`): validation, request building, the error message and the created-game mapping.
  - `gameJoinAPI.js` (module `GameJoinApi`): join, start and get.
  - `Http`: the ETag cache and `fetchJSON` shared by `api.js` and `gameRoundsAPI.js`, plus `handleResponse` and `buildHeaders`.
- **UI forms and flags**
  - `Lobby.jsx`: login, search checks, list loading and status badges.
  - `CreateGameModal.jsx`: the check chain, the field flags and the payload.
  - `GameScreen.jsx`: the credential fallback chain, the auth pre-checks, the one-shot redirect, `canStartGame` and error classification. The class `WaitingRoom` does this.
  - `JoinGameModal.jsx`: the owner shortcut, the password choice, the display flags and join/start error classification.

## How the model is built

- **JavaScript values.** A `Json` datatype stands for the values involved (`Json`). The module gives JavaScript truthiness, property access, `||`, `??`, `?.`, `String(v)` and `===` on freshly parsed values.
- **Responses.** A server response is a `Response` record: status, status text, headers, parsed JSON body (None when the body is not JSON) and raw text. A network attempt is a `Reply`: a response, or a network failure with its message.
- **Clock.** The time is a `now` parameter.
- **Browser storage.** `sessionStorage` reads are a `map<string, string>` parameter. Writes are returned as maps or flags (`CredentialWrites`, `forget`).
- **React components.** State cells are fields of a class, or of an immutable record held in a field. A callback reads the previous render's values. An effect runs after the pass and compares against what it last saw.

### Where the code differs from the game's written description

The model follows the code in each case:

- `calculateVotes` does not clamp the pending count at 0.
- `requiredGroupSize` never yields 0: the decade is clamped to at least 1.
- A derived decade never exceeds 5, so `isGameFinished`'s `decade > 5` branch never fires.
- The round history keeps the first five rounds after dedupe, not the five most recent.
- `proposeGroup` does not delete the player's cache entries. It overwrites them with `{etag: null, body: null}`.
- The lobby counts the length of the username before trimming it.

## Model

| member | source | states |
|---|---|---|
| InGameRules.Clamp | src/components/In-Game.jsx:20 | the result lies in [lo, hi], equals n inside it and the nearer bound outside |
| InGameRules.RequiredGroupSize | src/components/In-Game.jsx:11-24 | the group size is always 2..5, and at most the clamped player count minus 2 |
| InGameRules.RequiredGroupSizeClamps | src/components/In-Game.jsx:21-24 | the size depends only on players clamped to [5,10] and decade clamped to [1,5] |
| InGameRules.RequiredGroupSizeTable | src/components/In-Game.jsx:11-18 | the full table, row by row, for every decade 1..5 |
| InGameRules.CalculateVotes | src/components/In-Game.jsx:194-206 | non-array: zeros, allVoted false, pending = playersCount; otherwise yes = #true, no = #false, total = length, pending = playersCount − total unclamped, allVoted iff pending ≤ 0 |
| InGameRules.BooleanVotesSplit | src/components/In-Game.jsx:199-203 | for boolean-only lists yes + no = total |
| InGameRules.VotesJson | src/components/In-Game.jsx:299-300 | the normalised boolean votes as the array handed to calculateVotes, element by element |
| InGameRules.TallyOfRound | src/components/In-Game.jsx:299-306 | the tally of a normalised round counts its true and false votes, which sum to its length |
| InGameRules.Decade | src/components/In-Game.jsx:332-336 | the decade lies in 1..5 and is #completed + 1 unless capped at 5 |
| InGameRules.ScoresOf | src/components/In-Game.jsx:338-340 | citizens + enemies never exceed the number of rounds |
| InGameRules.FinishedOnlyByScore | src/components/In-Game.jsx:150-160 | for a derived decade the game is finished iff a score reaches 3; the decade > 5 branch never fires |
| InGameRules.CompletedAreWins | src/components/In-Game.jsx:332-340 | with results from the known set, every completed round is a win for one side |
| InGameRules.DecadeBoundedByScores | src/components/In-Game.jsx:332-340 | the decade is at most the total score plus one |
| InGameRules.SubPhase | src/components/In-Game.jsx:253-256 | the voting sub-phase is 2 iff phase vote2, 3 iff vote3, otherwise 1 |
| InGameRules.DerivePhase | src/components/In-Game.jsx:266-294 | finished gives 'ended'; otherwise choose-group iff waiting-on-leader and leader; voting, waiting-on-group and between-rounds map from their statuses; anything else waiting-on-leader |
| InGameRules.PollingInterval | src/components/In-Game.jsx:368-378 | min(2000, base) while voting or waiting on the group, 3000 for the choosing leader, else 3000 + 500·decade |
| InGameRules.PollingForDerivedDecade | src/components/In-Game.jsx:368-378 | for decades 1..5 the interval is exactly 2000 while voting, otherwise within 3000..5500 |
| InGameRules.ServerRole | src/components/In-Game.jsx:452-455 | "psychopath" iff the enemies array lists the player, else "citizen" |
| InGameRules.DisplayRole | src/components/In-Game.jsx:954-979 | the tag is one of the three labels and the class matches it |
| InGameRules.DisplayRoleReveals | src/components/In-Game.jsx:954-979 | the player sees their real role; another player shows as psychopath only if both are enemies; the leader shows as leader; no psychopath is shown unless the player is one |
| InGameRules.Toggle | src/components/In-Game.jsx:587-599 | toggles membership of the player only, never adds beyond requiredTotal, and leaves others untouched |
| InGameRules.ToggleTwice | src/components/In-Game.jsx:592-597 | adding a player and then toggling it again restores the draft |
| InGameRules.GroupToSubmit | src/components/In-Game.jsx:493-497 | a group is sent iff the deduped draft reaches requiredTotal; it is then the first requiredTotal distinct names in the order they were picked |
| InGameRules.SubmitDraftOfRequiredLength | src/components/In-Game.jsx:493-497 | a draft already of required length is sent unchanged iff it has no duplicates |
| InGameRules.LastOpen | src/components/In-Game.jsx:178-183 | the backward scan finds the last non-ended round below n, or reports all ended |
| InGameRules.ActiveRound | src/components/In-Game.jsx:176-186 | None iff empty; the last non-ended round if any, else the last round |
| InGameRules.FindActiveRound | src/components/In-Game.jsx:176-186 | the backward loop returns exactly ActiveRound |
| InGame.ReportedError | src/components/In-Game.jsx:345-349 | a 'Failed to fetch' error leaves the shown error; any other shows its message, and an empty one "Error de conexión" |
| InGame.AfterDetails | src/components/In-Game.jsx:225-235 | truthy data is stored with its name (or '') and its players array when it is one; nothing else changes |
| InGame.RoundTally | src/components/In-Game.jsx:299-306 | the tally of a normalised round: yes + no = total = its votes, pending from the previous render's players |
| InGame.AfterHistory | src/components/In-Game.jsx:328-340 | decade within 1..5 and total score bounded by the history length |
| InGame.Settle | src/components/In-Game.jsx:350-352 | every pass ends with loading false |
| InGame.PassShape | src/components/In-Game.jsx:208-354 | a failed details call changes only the error; with an active round: it becomes current, phase = DerivePhase from the previous scores, failed votes = sub-phase − 1 while voting, history stored with its decade and scores |
| InGame.PassSettles | src/components/In-Game.jsx:208-354 | repeating a pass on the same server answers reaches a fixed point after two passes |
| InGame.ReportedErrorSettles | src/components/In-Game.jsx:345-349 | reporting the same error again changes nothing |
| InGame.DetailsSettle | src/components/In-Game.jsx:225-235 | storing the same details twice is the same as once |
| InGame.DetailsStored | src/components/In-Game.jsx:228-235 | a screen already holding the data is left as is |
| InGame.RoundPassSettles | src/components/In-Game.jsx:237-341 | the round part of the pass is idempotent after two passes |
| InGame.FinishLagsOnePass | src/components/In-Game.jsx:150-160 | a winning history shows 'ended' only on the pass after it arrived, since isGameFinished reads the previous scores |
| InGame.CountVote | src/components/In-Game.jsx:536-546 | an accepted vote records it, adds one to total and to its side, removes one from pending, nothing else |
| InGame.InGameScreen.constructor | src/components/In-Game.jsx:39-140 | initial view for the room, refs cleared, decade 1 |
| InGame.InGameScreen.BeginUpdate | src/components/In-Game.jsx:209-215 | starts iff not already updating and game and player are set; nothing else changes |
| InGame.InGameScreen.FinishUpdate | src/components/In-Game.jsx:217-354 | the view and failed-vote counter become what the pass computed; the flag is cleared; the refs are untouched |
| InGame.InGameScreen.Update | src/components/In-Game.jsx:208-354 | a re-entrant or unidentified call is a no-op; otherwise one Pass |
| InGame.InGameScreen.DecadeEffect | src/components/In-Game.jsx:407-424 | on a decade change: remembered decade updated, votes/action/draft/tallies reset, failed votes 0, `rounds-list:<game>` removed; otherwise nothing |
| InGame.InGameScreen.RoundEffect | src/components/In-Game.jsx:427-440 | on a new non-empty round id: remembered, votes/action/tallies reset, pending = players, draft cleared only for non-leaders; otherwise nothing |
| InGame.InGameScreen.VotingEffect | src/components/In-Game.jsx:443-450 | when phase or sub-phase changed and the phase is voting, only yourVote is cleared |
| InGame.InGameScreen.RunEffects | src/components/In-Game.jsx:407-450 | after the effects the screen is settled; a settled screen is unchanged; only reset fields change |
| InGame.InGameScreen.RequiredTotal | src/components/In-Game.jsx:460-461 | the required group size is within 2..5 |
| InGame.InGameScreen.SelectPlayer | src/components/In-Game.jsx:587-599 | no-op unless choosing leader and not submitting; otherwise marks dirty and toggles; never exceeds requiredTotal |
| InGame.InGameScreen.SubmitPlan | src/components/In-Game.jsx:487-497 | not allowed unless canPropose with a round id; sends a distinct group of requiredTotal; rejects with the exact alert text otherwise |
| InGame.InGameScreen.SubmitGroup | src/components/In-Game.jsx:487-517 | no request and no cache change unless the plan is sent; a plan proposeGroup refuses throws its message with the cache untouched; the PATCH carries the normalised submitted group; past the checks: the pre-check read's failure is the answer, a body without data gives the round-state error, a round not waiting on its leader the phase error, and the PATCH goes out iff it waits; a failed PATCH is the answer; the cache is what the pre-check read stored, and after a good PATCH the answer and the cache are the re-read's over the blanked entries |
| InGame.InGameScreen.Vote | src/components/In-Game.jsx:519-558 | no request unless canVote; an accepted vote is counted and disables voting; body {vote} |
| InGame.InGameScreen.Act | src/components/In-Game.jsx:560-585 | no request unless canAct; an accepted action is recorded and disables acting; body {action} |
| InGame.InGameScreen.PollInterval | src/components/In-Game.jsx:368-378 | 2000 ms while voting or waiting on the group |
| InGame.JsonNames | src/components/In-Game.jsx:499-505 | the draft as the array proposeGroup receives, one entry per member |
| InGame.CleanNamesSurvive | src/services/gameRoundsAPI.js:238-244 | clean names pass proposeGroup's trimming unchanged |
| InGame.CleanDraftSentAsIs | src/services/gameRoundsAPI.js:236-244 | a clean distinct draft is sent exactly as chosen |
| RoundsApi.RoundLikeIsObject | src/services/gameRoundsAPI.js:89-98 | a round-like record is a plain object with all seven fields |
| RoundsApi.GroupMembers | src/services/gameRoundsAPI.js:106 | members trimmed and non-empty, each taken from an entry, in the entries' order; every non-empty input name kept; exactly one member per entry whose trimmed name is non-empty |
| RoundsApi.BoolVotes | src/services/gameRoundsAPI.js:107 | only boolean votes kept, with the counts of true and false preserved |
| RoundsApi.NormalizeRound | src/services/gameRoundsAPI.js:100-110 | well formed; id and leader trimmed; status, result and phase kept; group members come from the raw group entries in their order, one per non-empty trimmed entry; votes are the boolean entries, with as many true and false votes as the raw array |
| RoundsApi.NormalizeAll | src/services/gameRoundsAPI.js:160-162 | exactly the round-like records, each normalised by NormalizeRound, in their order; every round well formed |
| RoundsApi.DedupeById | src/services/gameRoundsAPI.js:112-122 | first occurrence of each id in order: a subsequence with distinct ids and the same id set |
| RoundsApi.HistoryShape | src/services/gameRoundsAPI.js:160-175 | at most five well-formed rounds with distinct ids, being the first five after dedupe |
| RoundsApi.ParseRoundsBody | src/services/gameRoundsAPI.js:160-181 | a bare array is wrapped with 200 / 'Rounds found'; an object with a data array keeps its status and msg; any other shape is malformed |
| RoundsApi.GetRounds | src/services/gameRoundsAPI.js:143-182 | blank game or player throws before any request; otherwise the answer fetchJSON gives for the reply under `rounds-list:<game>:<player>`, with its cache write, and that body parsed |
| RoundsApi.ParsedRoundsShape | src/services/gameRoundsAPI.js:160-181 | every resolved history has at most five well-formed distinct rounds |
| RoundsApi.FindById | src/services/gameRoundsAPI.js:130-137 | the first truthy list entry with that id, or none |
| RoundsApi.ReadRoundSnapshot | src/services/gameRoundsAPI.js:124-140 | the cached single-round body wins when it matches; otherwise the first truthy entry with that id in the cached round list, wrapped as `{status: 200, msg: "From list cache", data}`; nothing iff neither has one |
| RoundsApi.ShowRound | src/services/gameRoundsAPI.js:184-217 | blank game, round or player throws first; a preferred cached snapshot is returned without a request; otherwise the answer fetchJSON gives for the reply under `round:<game>:<round>:<player>`, with its cache write |
| RoundsApi.NormalizeGroup | src/services/gameRoundsAPI.js:236-244 | the loop yields the trimmed, non-empty, first-occurrence names: clean, distinct, none lost |
| RoundsApi.ProposedGroupShape | src/services/gameRoundsAPI.js:236-248 | the normalised group is clean and distinct and keeps every non-empty name |
| RoundsApi.PatchErrorMessage | src/services/gameRoundsAPI.js:279-287 | msg, then message when msg is falsy, then the status line |
| RoundsApi.ProposeGroup | src/services/gameRoundsAPI.js:220-297 | argument errors and an empty group throw with no request and no cache change; then the pre-check read of `round:<game>:<round>`: its failure is thrown, a body without data throws, else its data is the current round; PATCH iff that round waits on its leader, with the normalised group; a failed PATCH is thrown; the cache is what the pre-check read stored, and after a good PATCH the player's entries are blanked and the answer and the cache are those of the round read again over them (a 304 answered from the cache, a failure thrown) |
| RoundsApi.CheckPhaseAndPatch | src/services/gameRoundsAPI.js:261-296 | the pre-check read's failure is thrown, a body without data throws, else its data is the current round; the PATCH goes out iff that round waits on its leader, carrying the player header and If-Match when given; otherwise the phase error; a failed PATCH is thrown; the cache is what the pre-check read stored, and after a good PATCH the answer and the cache are the re-read's over the blanked entries |
| RoundsApi.PatchGroup | src/services/gameRoundsAPI.js:270-296 | If-Match added when given; a failed PATCH throws with its status and leaves the cache; success blanks the two player-specific entries, and the answer and the new cache are the re-read's (fetchJSON) over the blanked entries |
| RoundsApi.Blanked | src/services/gameRoundsAPI.js:289-290 | the player's round and round-list entries hold no ETag and a null body; every other entry is as it was |
| RoundsApi.ChoiceValidation | src/services/gameRoundsAPI.js:323-326 | accepts iff game, round and player are non-blank and the choice is boolean; the game, round, player and boolean messages each for the first failing check |
| RoundsApi.ChoiceHeaders | src/services/gameRoundsAPI.js:331-345 | Accept and Content-Type are JSON; trimmed player, password only when non-blank, If-Match and Idempotency-Key only when given and then with their values; no other header |
| RoundsApi.VoteForGroup | src/services/gameRoundsAPI.js:299-361 | the {vote} request is sent iff the checks pass, with JSON Accept and Content-Type, the trimmed player and no header beyond the six named; otherwise the first check's message and no request; the answer through handleResponse |
| RoundsApi.SubmitAction | src/services/gameRoundsAPI.js:363-409 | the {action} request is sent iff the checks pass, with JSON Accept and Content-Type, the trimmed player and no header beyond the six named; otherwise the first check's message and no request; the answer through handleResponse |
| Http.HandleResponse | src/services/gameJoinAPI.js:5-12 | a failed response throws body.msg, or "Error: status statusText" for a non-JSON body, an object without truthy msg or any other non-null JSON value; a null body throws the TypeError of reading its msg; a good one yields its JSON body, and a non-JSON good body throws the syntax error |
| Http.BuildHeaders | src/services/gameRoundsAPI.js:17-33 | Accept always; each optional header exactly when its value is non-empty; no other header |
| Http.FetchErrorMessage | src/services/gameRoundsAPI.js:61-69 | body.msg, then body.message, then the status line |
| Http.FetchOutcome | src/services/api.js:68-103 | a network failure throws its message; a 304 with a truthy cached body gives that body; any other failed status throws with its status; a good status gives its body, null when not JSON |
| Http.FetchStore | src/services/api.js:97-100 | only a good status under a non-empty key stores its body and ETag; every other key is unchanged |
| Http.EtagCache.constructor | src/services/api.js:57 | the cache starts empty |
| Http.EtagCache.Get | src/services/api.js:59-61 | null for an empty or missing key, else the stored entry |
| Http.EtagCache.Set | src/services/api.js:63-66 | an empty key is ignored; otherwise the entry is replaced |
| Http.EtagCache.Invalidate | src/services/api.js:22-25 | removes exactly that key; an empty key does nothing |
| Http.EtagCache.FetchJson | src/services/api.js:68-103 | If-None-Match from the cached ETag only when the caller set none; the answer is FetchOutcome and the new entries FetchStore of the old ones: 304 with a cached body returns it; failures throw with their status; success stores body and ETag; other keys untouched |
| Api.ParseError | src/services/api.js:27-47 | X-Msg header, then body msg, then the fixed texts for 401/403/404/409/428, then "Error: status statusText" |
| Api.HeaderMessageWins | src/services/api.js:29-31 | two responses with the same non-empty X-Msg give the same message |
| Api.HandleJson | src/services/api.js:49-55 | failures throw parseError's message; success yields the parsed body |
| Api.SearchFilters | src/services/api.js:109-123 | name iff 3..20 chars, status iff non-empty, page iff > 0, each with its value, in that order and nothing else |
| Api.SearchParams | src/services/api.js:109-127 | the filters of SearchFilters, with their values and in their order, then exactly one limit, last: the caller's if 1..200 else 100 |
| Api.Summarize | src/services/api.js:153-163 | id, name and current round copied; players = array length or 0; maxPlayers 10; owner = first player, or 'Unknown' for a missing or empty list; status, enemies and password flag from the record, else 'lobby', [] and false |
| Api.SummarizeAll | src/services/api.js:152-164 | every record summarised in order; a null record makes the whole map throw |
| Api.SearchGames | src/services/api.js:106-172 | [] on a failed response, a missing or nullish body, a non-array data or an exception; otherwise one summary per record in order, or [] when a record is nullish |
| Api.GetAllGames | src/services/api.js:174-204 | the loop returns AllGamesFrom(pages, 0): pages in order, stopping after an empty or short page |
| Api.AllGamesFromPages | src/services/api.js:181-196 | every listed game comes from one of the fetched pages |
| Api.DetailHeaders | src/services/api.js:209-217 | player always, password only when non-empty |
| Api.DetailErrorMessage | src/services/api.js:229-238 | a JSON object's msg, else the status line; any other non-null JSON value gives the status line; a non-JSON body's text, else the status line; a null body gives the TypeError of reading its msg |
| Api.GetGameDetails | src/services/api.js:206-249 | failures throw DetailErrorMessage; a good reply yields its JSON body, a non-JSON one throws the SyntaxError and a null one the TypeError of `data.data` |
| MemCache.Lookup | src/services/cache.js:3-11 | an entry is found iff present and not expired |
| MemCache.WithoutPrefix | src/services/cache.js:20-24 | exactly the keys without the prefix remain, unchanged |
| MemCache.TtlCache.constructor | src/services/cache.js:1 | the cache starts empty |
| MemCache.TtlCache.Get | src/services/cache.js:3-11 | returns Lookup; an expired entry is deleted, nothing else changes |
| MemCache.TtlCache.Set | src/services/cache.js:13-18 | stores the body with expiry now + ttl, or 0 when ttl ≤ 0 |
| MemCache.TtlCache.InvalidatePrefix | src/services/cache.js:20-24 | the loop deletes exactly the keys starting with the prefix |
| MemCache.StoredLifetime | src/services/cache.js:6-17 | a stored body is served until now + ttl, or for ever when ttl ≤ 0 |
| MemCache.StoredOthers | src/services/cache.js:13-18 | a set leaves every other key's lookup unchanged |
| MemCache.WithoutPrefixSettles | src/services/cache.js:20-24 | invalidation is idempotent and no key under the prefix is found afterwards |
| ApiConfig.CleanUrl | src/services/apiConfig.js:6 | a cleaned URL never ends in '/' |
| ApiConfig.CleanUrlAccepted | src/services/apiConfig.js:6-10 | a cleaned URL with a scheme is a usable base (no trailing slash) |
| ApiConfig.BareSchemeRejected | src/services/apiConfig.js:6-9 | "http://" and "https://" lose their slashes and are refused |
| ApiConfig.BareSchemeStripped | src/services/apiConfig.js:6 | any bare "x://" is shortened by the cleaning |
| ApiConfig.Config.constructor | src/services/apiConfig.js:1 | the base starts at the default URL |
| ApiConfig.Config.SetBaseUrl | src/services/apiConfig.js:4-24 | accepted iff a non-blank string whose cleaned form has an http(s) scheme; then the base is that cleaned form; otherwise unchanged |
| ApiConfig.Config.GetBaseUrl | src/services/apiConfig.js:26-43 | the stored URL (local first, then session) replaces the base only if its cleaned form has a scheme; returns the base |
| GameCreateApi.ValidateCreate | src/services/gameCreateAPI.js:11-37 | accepts iff name and owner non-blank with untrimmed length 3..20 and any non-blank password too; the body holds the trimmed values |
| GameCreateApi.ValidatedRequestBounds | src/services/gameCreateAPI.js:27-37 | every value sent is 1..20 characters |
| GameCreateApi.CreateErrorAsWritten | src/services/gameCreateAPI.js:57-69 | as written, a non-JSON error body gives the body-already-read TypeError text |
| GameCreateApi.CreateError | src/services/gameCreateAPI.js:57-69 | message wins over msg, which wins over "Error status: statusText"; a non-JSON or null body gives its text |
| GameCreateApi.PlainTextErrorLost | src/services/gameCreateAPI.js:60-67 | a plain-text 502 loses its text as written but keeps it when corrected |
| GameCreateApi.CreateErrorAgreesOnJson | src/services/gameCreateAPI.js:60-63 | for JSON error bodies both versions give the same message |
| GameCreateApi.NewGame | src/services/gameCreateAPI.js:75-90 | id, currentRound, name, status and enemies from the body's truthy data (else the body); players = array length, the value itself, or 1; maxPlayers 10; owner from the request; password flag from the server, else from the request |
| GameCreateApi.CreateGame | src/services/gameCreateAPI.js:6-99 | validation errors throw with no request; a network failure throws its message; a failed response throws the corrected CreateError; a good JSON body yields NewGame of it; a non-JSON or null body throws |
| GameCreateApi.CreatedGameListsAlike | src/services/gameCreateAPI.js:75-90 | a created game agrees with the search summary of the same server record on id, name, players, owner, status, enemies, current round and a set password flag |
| GameJoinApi.JoinGame | src/services/gameJoinAPI.js:15-35 | body {player}, player header, password header only when non-empty, reply handled by handleResponse |
| GameJoinApi.StartErrorMessage | src/services/gameJoinAPI.js:55-74 | x-msg, else the fixed texts for 428/409/403/401, else "Error: status text" |
| GameJoinApi.StartMessagesLackKeywords | src/services/gameJoinAPI.js:59-70 | the four fixed messages contain none of '4', 'I', 'F' |
| GameJoinApi.StartGame | src/services/gameJoinAPI.js:37-79 | success returns status and headers; a failure throws StartErrorMessage |
| GameJoinApi.StartHeaders | src/services/gameJoinAPI.js:39-45 | player always, password only when non-empty, nothing else |
| GameJoinApi.GetGame | src/services/gameJoinAPI.js:81-101 | a blank player throws with no request; otherwise trimmed headers and handleResponse |
| Lobby.UserSubmit | src/components/Lobby.jsx:29-48 | logs in iff name non-blank, ≥ 3 chars untrimmed, URL non-blank with a scheme; alerts on a missing scheme; stores trimmed values |
| Lobby.LoggedInUrlHasScheme | src/components/Lobby.jsx:33-42 | the stored trimmed URL still has its scheme |
| Lobby.BareSchemeLogsInButIsRefused | src/components/Lobby.jsx:33-47 | with an acceptable name, a bare "http://" or "https://" passes the form and is stored as typed, but setBaseUrl refuses it |
| Lobby.LoginUrlBecomesBase | src/components/Lobby.jsx:41-45 | a login URL not ending in '/' becomes the base as stored |
| Lobby.DebouncedSearch | src/components/Lobby.jsx:105-119 | loads iff the term is empty or 3..20 chars, exactly when the message is cleared; too short or too long shows its message |
| Lobby.Refresh | src/components/Lobby.jsx:125-136 | loads unless a non-empty term is under 3 or over 20 |
| Lobby.RefreshAgreesWithSearch | src/components/Lobby.jsx:125-136 | the refresh button and the debounced search decide the same |
| Lobby.LoadSource | src/components/Lobby.jsx:59-63 | searchGames iff the term has ≥ 3 chars, else getAllGames |
| Lobby.LoadedListMatchesTerm | src/components/Lobby.jsx:51-73 | after the checks, the list is filtered by name iff the term is non-empty |
| Lobby.ShortTermListsAll | src/components/Lobby.jsx:59-63 | a short term lists every page unfiltered |
| Lobby.StatusText | src/components/Lobby.jsx:210-214 | running first, else full (players ≥ max), else waiting |
| Lobby.StatusColor | src/components/Lobby.jsx:204-208 | the same tests in the same order, giving the three colours |
| Lobby.StatusPairsMatch | src/components/Lobby.jsx:204-214 | text and colour always match |
| Lobby.SummaryBadges | src/components/Lobby.jsx:204-214 | a listed game is full iff its players array has ≥ 10; a missing list shows waiting |
| CreateGameModal.ModalValidate | src/components/CreateGameModal.jsx:18-42 | the checks in order on trimmed lengths, each message stated for the first failing check (name required, name length, owner required, owner length, password length); else the trimmed request |
| CreateGameModal.ModalAgreesWithService | src/components/CreateGameModal.jsx:18-54 | the dialog accepts exactly what createGame accepts on the trimmed values |
| CreateGameModal.ButtonImpliesEnter | src/components/CreateGameModal.jsx:77-81 | whenever the button is enabled, Enter creates too |
| CreateGameModal.UnpaddedButtonAgreesWithChecks | src/components/CreateGameModal.jsx:83-85 | for unpadded fields the button is enabled iff the checks pass and nothing loads |
| CreateGameModal.FailureText | src/components/CreateGameModal.jsx:69-71 | the error's message, or the default when empty |
| CreateGameModal.HandleCreate | src/components/CreateGameModal.jsx:18-75 | invalid iff a check fails, with its message; once the checks pass, created iff createGame resolves, with its id, name and owner, status 'lobby', players [username], trimmed password and requiresPassword iff it is non-empty; otherwise FailureText of createGame's error (the corrected CreateError message) |
| CreateGameModal.ValidDialogSendsRequest | src/components/CreateGameModal.jsx:50-54 | a valid dialog sends its trimmed request, and server failures surface as their corrected CreateError messages |
| GameScreen.FirstPresent | src/components/GameScreen.jsx:29-41 | the `??` chain yields a non-nullish candidate or "" |
| GameScreen.FirstPresentPicksFirst | src/components/GameScreen.jsx:29-41 | it is the first non-nullish candidate |
| GameScreen.FirstPresentAllMissing | src/components/GameScreen.jsx:29-41 | with all candidates missing it is "" |
| GameScreen.Stored | src/components/GameScreen.jsx:33-35 | sessionStorage.getItem: null iff the key is missing |
| GameScreen.PasswordPropAsWritten | src/components/GameScreen.jsx:11 | the default parameter turns an omitted prop into "" |
| GameScreen.OmittedPasswordPropHidesFallbacks | src/components/GameScreen.jsx:36-41 | as written, an omitted password prop always yields "" |
| GameScreen.RoutePasswordLost | src/App.jsx:13 | on the `/room/:gameId` route a stored password is lost as written and found when corrected |
| GameScreen.GetCredentials | src/components/GameScreen.jsx:23-52 | never nullish, and a given prop wins, even ""; the password uses the corrected chain (see Left out) |
| GameScreen.StoredCredentialsUsed | src/components/GameScreen.jsx:29-41 | with the password prop omitted and no route state, the corrected chain uses the per-game stored entries, where the chain as written finds no password |
| GameScreen.CheckAuth | src/components/GameScreen.jsx:65-77 | no player iff the name is falsy; private without password iff the game needs one and none is present |
| GameScreen.CredentialWrites | src/components/GameScreen.jsx:79-85 | the name is always written; the password iff truthy |
| GameScreen.WrittenCredentialsReread | src/components/GameScreen.jsx:79-85 | what the screen writes is what it reads back next time |
| GameScreen.LoadErrorText | src/components/GameScreen.jsx:143-156 | credentials/403 shows the credentials text and forgets; Failed to fetch shows the connection text; otherwise the message or the default |
| GameScreen.StartErrorText | src/components/GameScreen.jsx:189-200 | credentials/403, then 428, then 409, then the raw message or the default |
| GameScreen.ServiceStartErrorsShownAsSent | src/components/GameScreen.jsx:189-200 | the service's own start messages fall through every keyword branch |
| GameScreen.NoKeywordShownAsIs | src/components/GameScreen.jsx:189-200 | a message without '4' or 'I' is shown as it is |
| GameScreen.CanStartOnRecord | src/components/GameScreen.jsx:246-251 | canStartGame iff owner is the user, ≥ 5 players and status 'lobby' |
| GameScreen.NoPlayersNoStart | src/components/GameScreen.jsx:246-251 | no players list, no start |
| GameScreen.WaitingRoom.constructor | src/components/GameScreen.jsx:13-21 | empty credentials, no details, loading, no error, not redirected |
| GameScreen.WaitingRoom.Mount | src/components/GameScreen.jsx:56-88 | a failed check sets its message and stops loading; otherwise the credentials are kept and written |
| GameScreen.WaitingRoom.LoadDetails | src/components/GameScreen.jsx:100-155 | no request without a name; details stored; redirect iff not yet redirected and status 'rounds', and at most once; errors classified |
| GameScreen.WaitingRoom.ApplyDetails | src/components/GameScreen.jsx:117-153 | a resolved call stores `details?.data || null`, stops loading and redirects iff not yet redirected and the status is 'rounds'; a thrown one shows LoadErrorText and forgets the stored credentials iff it says so |
| GameScreen.WaitingRoom.Retry | src/components/GameScreen.jsx:232-237 | clears the error and reloads: without a username no request and the spinner stays; otherwise, as for the details load, a good answer stores the data and redirects once into a running game, a failure shows the classified message; never redirects twice |
| GameScreen.WaitingRoom.StartGame | src/components/GameScreen.jsx:157-201 | a null or undefined game shows the TypeError of `game.id` naming it; a failed start or reload shows the classified error; success navigates with name, players and count |
| GameScreen.WaitingRoom.NoGameIdShownAsIs | src/components/GameScreen.jsx:189-198 | the TypeError message of a missing game passes the classification unchanged |
| GameScreen.PollStopsAfterRedirect | src/components/GameScreen.jsx:90-98 | after the redirect the poll is stopped and no further navigation happens |
| JoinGameModal.CheckUserStatus | src/components/Lobby/JoinGameModal.jsx:17-40 | an owner is joined with no request; others are probed with getGame and joined iff it succeeds |
| JoinGameModal.ChosenPassword | src/components/Lobby/JoinGameModal.jsx:47 | the typed password iff the game requires one, else "" |
| JoinGameModal.OwnerControls | src/components/Lobby/JoinGameModal.jsx:121-123 | an owner sees no join button or password field, and can start iff ≥ 5 players |
| JoinGameModal.JoinAndStartExclusive | src/components/Lobby/JoinGameModal.jsx:121-123 | join and start never show together; the password field excludes start |
| JoinGameModal.JoinErrorText | src/components/Lobby/JoinGameModal.jsx:60-74 | 403/credentials, then Failed to fetch, then already/Already (which marks joined), then the raw message |
| JoinGameModal.HandleJoin | src/components/Lobby/JoinGameModal.jsx:42-79 | success hands over the data and the chosen password; every failure forgets the stored credentials and shows JoinErrorText of the error the catch sees |
| JoinGameModal.AlreadyJoinedHidesJoin | src/components/Lobby/JoinGameModal.jsx:67-69 | a "Player already joined" refusal hides the join button |
| JoinGameModal.StartErrorText | src/components/Lobby/JoinGameModal.jsx:104-115 | Failed to fetch, then 403/credentials, then 428, then 409, then the raw message or the default |
| JoinGameModal.ServiceStartErrorsShownAsSent | src/components/Lobby/JoinGameModal.jsx:104-115 | the service's own start messages are shown as sent |
| JoinGameModal.HandleStart | src/components/Lobby/JoinGameModal.jsx:81-120 | success hands over the game with status 'rounds' and the chosen password; failure shows the classified message |

## Left out

- Network and browser APIs are left out: `fetch`, `Headers`, `AbortController`, `response.json()`/`text()`, `sessionStorage`/`localStorage`, `window._cache`, `window.gameAPIs`, `alert`, `console`. Replies, stored values and the clock are inputs, and storage writes are returned values.
- JSX rendering, CSS, navigation and routing are left out. Navigation is a returned `Navigation` record.
- Timers are not modelled (`setInterval`, `setTimeout`, the debounce delay). Only the interval value and what one tick does are modelled.
- React scheduling is not modelled: effects run when the model calls them, in source order, once per pass. The transient `submitting`/`loading`/`starting` flags are false between interactions.
- The `JSON.stringify` comparison and the fire-and-forget refreshes in `showRound` and `proposeGroup` are left out. They are background side effects with no stated outcome.
- The `?as=` URL override and the session lookup of the player in `voteForGroup` are left out. They read browser globals, and the checks use the `playerName` argument anyway.
- URL building and `encodeURIComponent` are not modelled. Requests are identified by the cache keys and headers they carry.
- Object identity is approximated: `===` on arrays or objects is always false, as for freshly parsed JSON.
- Json.AtLeast: a JavaScript `>=` on a string, array or object player count is taken as false (NaN), not coerced.
- GameScreen.WaitingRoom.Mount: the load the mount effect starts reads the previous render's credentials, which are still empty, so it makes no request. The first real load is the poll's, which `LoadDetails` models.
- InGame.InGameScreen.DecadeEffect: the effect removes `rounds-list:<game>` from the api.js cache. The round lists live in the separate cache of gameRoundsAPI.js, so in the client the removal reaches none of them. The model states the removal on the cache it is written against and does not show the lists as refreshed.
- String lengths are counted in characters, not UTF-16 code units: JavaScript's `.length` counts a character outside the Basic Multilingual Plane twice. This affects the length checks of CreateGameModal.ModalValidate, CreateGameModal.FieldValid, GameCreateApi.ValidateCreate, Lobby.UserSubmit, Api.SearchFilters, Api.SearchParams and the lobby search (Lobby.DebouncedSearch, Lobby.Refresh, Lobby.LoadSource).
- Json numbers are integers (`JNum(int)`). Fractions, NaN and infinities are not modelled.
- CreateGame (GameCreateApi.CreateGame): a refused request throws the corrected CreateError message. As written the code throws the body-already-used TypeError text instead when the error body is not JSON or is null; see Findings and CreateErrorAsWritten.
- HandleCreate (CreateGameModal.HandleCreate): shows the corrected CreateError message, which differs from the as-written one only for a non-JSON or null error body.
- ValidDialogSendsRequest (CreateGameModal.ValidDialogSendsRequest): the surfaced message is the corrected CreateError one, with the same exception as HandleCreate.
- GetCredentials (GameScreen.GetCredentials): builds the password with the corrected chain, PasswordFor. As written, an omitted password prop defaults to "" and the password is always "", so the navigation-state and stored passwords are never read; see Findings and PasswordAsWritten. The waiting room's loads (LoadDetails, Retry, Mount) inherit the corrected password.

## Findings

| source | as written | input that shows it | evidently intended | confidence | as-written member | corrected member |
|---|---|---|---|---|---|---|
| src/services/gameCreateAPI.js:60-67 | after `response.json()` fails, the catch calls `response.text()` on the already-read body, which throws a "body already used" TypeError, so the server's text is lost | a 502 response with the plain-text body "upstream down" | the error shows the server's plain text ("upstream down") | not executed | GameCreateApi.PlainTextErrorLost | GameCreateApi.CreateError |
| src/components/GameScreen.jsx:11 | the default `passwordProp = ""` is never nullish, so `??` skips `location.state.gamePassword` and the stored per-game password whenever the prop is omitted, as on the `/room/:gameId` route (src/App.jsx:13) | no password prop and session entry `gamePassword:g1` = "secret" | the stored password "secret" is used | not executed | GameScreen.RoutePasswordLost | GameScreen.StoredCredentialsUsed |

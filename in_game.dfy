/** The in-game screen of In-Game.jsx as a state machine: the `useState`
    cells form one `Screen` value that each pass replaces, the refs are
    fields updated in place, and the methods are the polling pass
    `updateFullGameState`, the three reset effects and the player's
    handlers. Server answers are inputs. */
module InGame {
  import opened Wrappers
  import opened Text
  import opened Json
  import opened Seqs
  import opened Http
  import opened RoundsApi
  import opened InGameRules

  /** The vote counters the screen shows. */
  datatype Tally = Tally(yes: int, no: int, total: int, pending: int)

  /** The component's state cells. `currentRound` also stands for
      `roundDetail`: every pass sets both to the same round. */
  datatype Screen = Screen(
    details: Json,
    roomName: Json,
    players: seq<Json>,
    loading: bool,
    apiError: string,
    rounds: seq<Round>,
    currentRound: Option<Round>,
    roundStatus: string,
    groupMembers: seq<string>,
    leaderName: string,
    isLeader: bool,
    tally: Tally,
    proposedGroup: seq<string>,
    selectionDirty: bool,
    submitting: bool,
    scores: Scores,
    decade: int,
    phase: string,
    votingPhase: int,
    yourVote: Option<bool>,
    yourAction: Option<bool>)

  /** Two screens agree on everything but the player's own choices, the
      draft and the counters: what the reset effects may clear. */
  predicate SameBoard(a: Screen, b: Screen) {
    && a.details == b.details && a.roomName == b.roomName && a.players == b.players
    && a.loading == b.loading && a.apiError == b.apiError && a.rounds == b.rounds
    && a.currentRound == b.currentRound && a.roundStatus == b.roundStatus
    && a.groupMembers == b.groupMembers && a.leaderName == b.leaderName && a.isLeader == b.isLeader
    && a.submitting == b.submitting && a.scores == b.scores && a.decade == b.decade
    && a.phase == b.phase && a.votingPhase == b.votingPhase
  }

  /** The cells as the component mounts, `roomName` taken from the route
      state or storage. */
  function InitialScreen(roomName: string): Screen {
    Screen(JNull, JStr(roomName), [], true, "", [], None, "waiting-on-leader", [], "", false,
           Tally(0, 0, 0, 0), [], false, false, Scores(0, 0), 1, "waiting-on-leader", 1, None, None)
  }

  const ConnectionError := "Error de conexión"
  const FailedToFetch := "Failed to fetch"

  /** The catch of a pass: a network failure leaves the shown error as it
      was, any other error shows its message, or a generic one when the
      message is empty. */
  function ReportedError(shown: string, e: Error): (m: string)
    ensures Contains(e.message, FailedToFetch) ==> m == shown
    ensures !Contains(e.message, FailedToFetch) ==> m != "" && (e.message != "" ==> m == e.message)
    ensures !Contains(e.message, FailedToFetch) && e.message == "" ==> m == ConnectionError
  {
    if Contains(e.message, FailedToFetch) then shown
    else if e.message != "" then e.message
    else ConnectionError
  }

  /** `v?.data`. */
  function DataOf(v: Json): Json {
    if IsNullish(v) then JUndefined else Get(v, "data")
  }

  /** Lines 226-235: a truthy `data` in the details answer replaces the
      details and the room name, and the players when it holds an array. */
  function AfterDetails(s: Screen, body: Json): (t: Screen)
    ensures !Truthy(DataOf(body)) ==> t == s
    ensures Truthy(DataOf(body)) ==> t.details == DataOf(body) && t.roomName == Or(Get(DataOf(body), "name"), JStr(""))
    ensures t.players == (if Truthy(DataOf(body)) && Get(DataOf(body), "players").JArr?
                          then Get(DataOf(body), "players").items else s.players)
    ensures t.(details := s.details, roomName := s.roomName, players := s.players) == s
  {
    var gameData := DataOf(body);
    if !Truthy(gameData) then s
    else
      var t := s.(details := gameData, roomName := Or(Get(gameData, "name"), JStr("")));
      if Get(gameData, "players").JArr? then t.(players := Get(gameData, "players").items) else t
  }

  /** The tally the pass computes for the active round, against the
      player count of the previous render. */
  function RoundTally(prev: Screen, round: Round): (v: VoteInfo)
    ensures v.yes + v.no == v.total == |round.votes|
    ensures v.pending == |prev.players| - |round.votes|
  {
    TallyOfRound(round.votes, |prev.players|);
    CalculateVotes(JArr(VotesJson(round.votes)), |prev.players|)
  }

  /** Lines 242-326 for the active round: every read (`votingPhase`, the
      scores and decade behind `isGameFinished`, the counters, the player
      count, the draft length) sees the previous render `prev`; the writes
      go onto `into`. Returns the new failed-vote counter too. */
  function AfterRound(prev: Screen, into: Screen, failed: int, player: string, round: Round): (Screen, int) {
    var amLeader := AmLeader(round.leader, player);
    var subPhase := SubPhase(round.phase);
    var finished := IsGameFinished(prev.scores, prev.decade);
    var newPhase := DerivePhase(finished, round.status, amLeader);
    var v := RoundTally(prev, round);
    var tally := if v.yes != prev.tally.yes || v.no != prev.tally.no || v.total != prev.tally.total
                 then Tally(v.yes, v.no, v.total, v.pending) else into.tally;
    var draft := if amLeader && newPhase == "choose-group"
                 then (if |prev.proposedGroup| == 0 && |round.group| > 0 then round.group else into.proposedGroup)
                 else round.group;
    (into.(currentRound := Some(round), isLeader := amLeader, leaderName := round.leader,
           groupMembers := round.group,
           yourVote := if prev.votingPhase != subPhase && round.status == "voting" then None else into.yourVote,
           votingPhase := subPhase, phase := newPhase, roundStatus := round.status,
           tally := tally, proposedGroup := draft),
     if !finished && round.status == "voting" then subPhase - 1 else failed)
  }

  /** Lines 328-340: the history, its decade and its scores. */
  function AfterHistory(s: Screen, rounds: seq<Round>): (t: Screen)
    ensures 1 <= t.decade <= MaxDecades
    ensures t.scores.citizens + t.scores.enemies <= |rounds|
  {
    s.(rounds := rounds, decade := Decade(rounds), scores := ScoresOf(rounds))
  }

  /** Lines 328-353 after a round was applied: the history and a cleared
      error, or the catch when the history request failed; loading ends. */
  function Settle(a: Screen, historyRes: Result<RoundsEnvelope>): (t: Screen)
    ensures !t.loading
  {
    if historyRes.Err? then a.(apiError := ReportedError(a.apiError, historyRes.error), loading := false)
    else AfterHistory(a, historyRes.value.data).(apiError := "", loading := false)
  }

  /** A pass that found an active round. */
  function RoundPass(s: Screen, failed: int, player: string, body: Json, round: Round,
                     historyRes: Result<RoundsEnvelope>): (Screen, int)
  {
    var next := AfterRound(s, AfterDetails(s, body), failed, player, round);
    (Settle(next.0, historyRes), next.1)
  }

  /** One whole pass of `updateFullGameState` that got past its guards,
      from the screen `s` and failed-vote counter `failed`, given what
      `getGameDetails` and the two `getRounds` calls settled with. */
  function Pass(s: Screen, failed: int, player: string, gameRes: Result<Json>,
                activeRes: Result<RoundsEnvelope>, historyRes: Result<RoundsEnvelope>): (Screen, int)
  {
    if gameRes.Err? then (s.(apiError := ReportedError(s.apiError, gameRes.error), loading := false), failed)
    else
      // getActiveRound turns its own errors into "no round"
      var active := if activeRes.Err? then None else ActiveRound(activeRes.value.data);
      if active.None? then (AfterDetails(s, gameRes.value).(apiError := "", loading := false), failed)
      else RoundPass(s, failed, player, gameRes.value, active.value, historyRes)
  }

  /** What a pass establishes: loading is over, the screen phase follows
      the round status unless the previous scores finished the game, the
      failed-vote counter follows the voting sub-phase, and a resolved
      history yields a decade in 1..5 and its scores. */
  lemma PassShape(s: Screen, failed: int, player: string, gameRes: Result<Json>,
                  activeRes: Result<RoundsEnvelope>, historyRes: Result<RoundsEnvelope>)
    ensures var (t, f) := Pass(s, failed, player, gameRes, activeRes, historyRes);
            && !t.loading
            && (gameRes.Err? ==> t == s.(apiError := t.apiError, loading := false) && f == failed)
            && (gameRes.Ok? && activeRes.Err? ==> t.apiError == "" && t.currentRound == s.currentRound)
            && (gameRes.Ok? && activeRes.Ok? && activeRes.value.data != [] ==>
                  var r := ActiveRound(activeRes.value.data).value;
                  && t.currentRound == Some(r)
                  && t.phase == DerivePhase(IsGameFinished(s.scores, s.decade), r.status, AmLeader(r.leader, player))
                  && (t.phase == "ended" <==> IsGameFinished(s.scores, s.decade))
                  && (r.status == "voting" && !IsGameFinished(s.scores, s.decade) ==> f == SubPhase(r.phase) - 1)
                  && (historyRes.Ok? ==> (&& t.apiError == "" && t.rounds == historyRes.value.data
                                          && 1 <= t.decade <= MaxDecades
                                          && t.scores == ScoresOf(historyRes.value.data))))
  {
  }

  /** Repeating a pass on unchanged answers settles after two passes: the
      second pass already sees the scores the first one stored, so the
      third changes nothing. */
  lemma PassSettles(s: Screen, failed: int, player: string, gameRes: Result<Json>,
                    activeRes: Result<RoundsEnvelope>, historyRes: Result<RoundsEnvelope>)
    ensures var (s1, f1) := Pass(s, failed, player, gameRes, activeRes, historyRes);
            var (s2, f2) := Pass(s1, f1, player, gameRes, activeRes, historyRes);
            Pass(s2, f2, player, gameRes, activeRes, historyRes) == (s2, f2)
  {
    if gameRes.Err? {
      ReportedErrorSettles(s.apiError, gameRes.error);
    } else if activeRes.Ok? && activeRes.value.data != [] {
      RoundPassSettles(s, failed, player, gameRes.value, ActiveRound(activeRes.value.data).value, historyRes);
    } else {
      DetailsSettle(s, gameRes.value);
    }
  }

  lemma ReportedErrorSettles(shown: string, e: Error)
    ensures ReportedError(ReportedError(shown, e), e) == ReportedError(shown, e)
  {
  }

  /** The details step stores what it reads, so a second one changes
      nothing. */
  lemma DetailsSettle(s: Screen, body: Json)
    ensures AfterDetails(AfterDetails(s, body), body) == AfterDetails(s, body)
    ensures AfterDetails(AfterDetails(s, body).(apiError := "", loading := false), body)
            == AfterDetails(s, body).(apiError := "", loading := false)
  {
  }

  /** The details step on a screen that already holds what it stores. */
  lemma DetailsStored(t: Screen, body: Json)
    requires Truthy(DataOf(body)) ==> t.details == DataOf(body) && t.roomName == Or(Get(DataOf(body), "name"), JStr(""))
    requires Truthy(DataOf(body)) && Get(DataOf(body), "players").JArr? ==> t.players == Get(DataOf(body), "players").items
    ensures AfterDetails(t, body) == t
  {
  }

  lemma RoundPassSettles(s: Screen, failed: int, player: string, body: Json, round: Round,
                         historyRes: Result<RoundsEnvelope>)
    ensures var (s1, f1) := RoundPass(s, failed, player, body, round, historyRes);
            var (s2, f2) := RoundPass(s1, f1, player, body, round, historyRes);
            RoundPass(s2, f2, player, body, round, historyRes) == (s2, f2)
  {
    var (s1, f1) := RoundPass(s, failed, player, body, round, historyRes);
    var (s2, f2) := RoundPass(s1, f1, player, body, round, historyRes);
    DetailsStored(s1, body);
    DetailsStored(s2, body);
    assert s2.scores == s1.scores && s2.decade == s1.decade;
    var (a3, f3) := AfterRound(s2, s2, f2, player, round);
    assert a3 == s2 && f3 == f2;
    if historyRes.Err? {
      ReportedErrorSettles(s1.apiError, historyRes.error);
    }
  }

  /** The finish test lags one pass: a pass whose history first reaches
      three wins still shows the round's own phase, and the next pass with a
      round shows 'ended'. */
  lemma FinishLagsOnePass(s: Screen, failed: int, player: string, gameRes: Result<Json>,
                          activeRes: Result<RoundsEnvelope>, historyRes: Result<RoundsEnvelope>)
    requires gameRes.Ok? && activeRes.Ok? && activeRes.value.data != [] && historyRes.Ok?
    requires !IsGameFinished(s.scores, s.decade)
    requires ScoresOf(historyRes.value.data).citizens >= WinTarget
    ensures var (s1, f1) := Pass(s, failed, player, gameRes, activeRes, historyRes);
            && s1.phase != "ended"
            && Pass(s1, f1, player, gameRes, activeRes, historyRes).0.phase == "ended"
  {
  }

  /** `res?.data` after a request that was sent and settled. */
  predicate Accepted(out: (Option<RoundRequest>, Result<Json>)) {
    out.0.Some? && out.1.Ok? && Truthy(DataOf(out.1.value))
  }

  /** The local count of an accepted vote (lines 536-546): the vote is
      remembered, one more vote is counted on its side and one fewer is
      pending. */
  function CountVote(s: Screen, approve: bool): (t: Screen)
    ensures t.yourVote == Some(approve)
    ensures t.tally.total == s.tally.total + 1 && t.tally.pending == s.tally.pending - 1
    ensures t.tally.yes + t.tally.no - t.tally.total == s.tally.yes + s.tally.no - s.tally.total
    ensures approve ==> t.tally.yes == s.tally.yes + 1 && t.tally.no == s.tally.no
    ensures !approve ==> t.tally.no == s.tally.no + 1 && t.tally.yes == s.tally.yes
    ensures t.(yourVote := s.yourVote, tally := s.tally) == s
  {
    var v := s.tally;
    s.(yourVote := Some(approve),
       tally := Tally(v.yes + (if approve then 1 else 0), v.no + (if approve then 0 else 1), v.total + 1, v.pending - 1))
  }

  /** What `handleSubmitGroup` does with the draft. */
  datatype SubmitOutcome = NotAllowed | Rejected(alert: string) | Send(roundId: string, group: seq<string>)

  /** The screen of one player in one game. */
  class InGameScreen {
    const gameId: string
    const player: string
    const password: string
    var view: Screen
    // refs
    var lastRoundId: Option<string>
    var lastDecade: int
    var isUpdating: bool
    var failedVotes: int
    // the dependencies the voting effect last ran with
    var effectPhase: string
    var effectVotingPhase: int

    /** The mount: initial cells and refs, the effects' first run already
        done (none of them fires on the initial cells). */
    constructor (gameId: string, player: string, password: string, roomName: string)
      ensures this.gameId == gameId && this.player == player && this.password == password
      ensures view == InitialScreen(roomName)
      ensures lastRoundId == None && lastDecade == 1 && !isUpdating && failedVotes == 0
      ensures effectPhase == "waiting-on-leader" && effectVotingPhase == 1
    {
      this.gameId := gameId;
      this.player := player;
      this.password := password;
      view := InitialScreen(roomName);
      lastRoundId := None;
      lastDecade := 1;
      isUpdating := false;
      failedVotes := 0;
      effectPhase := "waiting-on-leader";
      effectVotingPhase := 1;
    }

    /** Lines 209-215: a pass does not start while another is in flight or
        without a game id and player; otherwise it raises the flag. */
    method BeginUpdate() returns (started: bool)
      modifies this
      ensures started <==> !old(isUpdating) && gameId != "" && player != ""
      ensures isUpdating == (old(isUpdating) || started)
      ensures view == old(view) && failedVotes == old(failedVotes)
      ensures lastRoundId == old(lastRoundId) && lastDecade == old(lastDecade)
      ensures effectPhase == old(effectPhase) && effectVotingPhase == old(effectVotingPhase)
    {
      if isUpdating || gameId == "" || player == "" {
        return false;
      }
      isUpdating := true;
      started := true;
    }

    /** Lines 217-353: the end of a started pass, given the screen and
        failed-vote counter it computed; the flag drops in the `finally`. */
    method FinishUpdate(next: (Screen, int))
      requires isUpdating
      modifies this
      ensures lastRoundId == old(lastRoundId) && lastDecade == old(lastDecade)
      ensures effectPhase == old(effectPhase) && effectVotingPhase == old(effectVotingPhase)
      ensures !isUpdating && view == next.0 && failedVotes == next.1
    {
      // every setter of the pass writes into the one Screen value
      view, failedVotes, isUpdating := next.0, next.1, false;
    }

    /** `updateFullGameState()` run to completion, as the poll timer and
        `forceRefresh` call it. */
    method Update(gameRes: Result<Json>, activeRes: Result<RoundsEnvelope>, historyRes: Result<RoundsEnvelope>)
      modifies this
      ensures old(isUpdating) || gameId == "" || player == "" ==> view == old(view) && failedVotes == old(failedVotes)
      ensures !old(isUpdating) && gameId != "" && player != ""
              ==> (view, failedVotes) == Pass(old(view), old(failedVotes), player, gameRes, activeRes, historyRes)
                  && !isUpdating
      ensures lastRoundId == old(lastRoundId) && lastDecade == old(lastDecade)
      ensures effectPhase == old(effectPhase) && effectVotingPhase == old(effectVotingPhase)
    {
      var started := BeginUpdate();
      if started {
        var next := Pass(view, failedVotes, player, gameRes, activeRes, historyRes);
        FinishUpdate(next);
      }
    }

    /** The effects have nothing left to react to. */
    predicate Settled()
      reads this
    {
      && lastDecade == view.decade
      && (view.currentRound.None? || view.currentRound.value.id == "" || lastRoundId == Some(view.currentRound.value.id))
      && effectPhase == view.phase && effectVotingPhase == view.votingPhase
    }

    /** Lines 407-424: a new decade clears the personal choices, the draft
        and the counters, zeroes the failed-vote counter and drops the
        `rounds-list:<gameId>` entry of the api.js cache. */
    method DecadeEffect(apiCache: EtagCache)
      modifies this, apiCache
      ensures old(view.decade) == old(lastDecade)
              ==> view == old(view) && failedVotes == old(failedVotes) && lastDecade == old(lastDecade)
                  && apiCache.entries == old(apiCache.entries)
      ensures old(view.decade) != old(lastDecade)
              ==> lastDecade == view.decade && failedVotes == 0
                  && view == old(view).(yourVote := None, yourAction := None, selectionDirty := false,
                                        proposedGroup := [], tally := Tally(0, 0, 0, |old(view).players|))
                  && apiCache.entries == old(apiCache.entries) - {"rounds-list:" + gameId}
      ensures lastRoundId == old(lastRoundId) && isUpdating == old(isUpdating)
      ensures effectPhase == old(effectPhase) && effectVotingPhase == old(effectVotingPhase)
    {
      if view.decade != lastDecade {
        lastDecade := view.decade;
        view := view.(yourVote := None, yourAction := None, selectionDirty := false,
                      proposedGroup := [], tally := Tally(0, 0, 0, |view.players|));
        failedVotes := 0;
        apiCache.Invalidate("rounds-list:" + gameId);
      }
    }

    /** Lines 427-440: a round with a new, non-empty id clears the personal
        choices and the counters; the draft is cleared only for a player who
        is not the leader. */
    method RoundEffect()
      modifies this
      ensures var r := old(view.currentRound);
              r.Some? && r.value.id != "" && old(lastRoundId) != Some(r.value.id)
              ==> lastRoundId == Some(r.value.id)
                  && view == old(view).(yourVote := None, yourAction := None, selectionDirty := false,
                                        tally := Tally(0, 0, 0, |old(view).players|),
                                        proposedGroup := if old(view).isLeader then old(view).proposedGroup else [])
      ensures var r := old(view.currentRound);
              !(r.Some? && r.value.id != "" && old(lastRoundId) != Some(r.value.id))
              ==> view == old(view) && lastRoundId == old(lastRoundId)
      ensures lastDecade == old(lastDecade) && failedVotes == old(failedVotes) && isUpdating == old(isUpdating)
      ensures effectPhase == old(effectPhase) && effectVotingPhase == old(effectVotingPhase)
    {
      if view.currentRound.Some? && view.currentRound.value.id != "" && lastRoundId != Some(view.currentRound.value.id) {
        lastRoundId := Some(view.currentRound.value.id);
        var draft := if view.isLeader then view.proposedGroup else [];
        view := view.(yourVote := None, yourAction := None, selectionDirty := false,
                      tally := Tally(0, 0, 0, |view.players|), proposedGroup := draft);
      }
    }

    /** Lines 443-450: when the phase or the voting sub-phase changed, the
        personal vote is cleared if the phase is 'voting'. */
    method VotingEffect()
      modifies this
      ensures effectPhase == view.phase && effectVotingPhase == view.votingPhase
      ensures (old(view.phase) != old(effectPhase) || old(view.votingPhase) != old(effectVotingPhase)) && old(view.phase) == "voting"
              ==> view == old(view).(yourVote := None)
      ensures !((old(view.phase) != old(effectPhase) || old(view.votingPhase) != old(effectVotingPhase)) && old(view.phase) == "voting")
              ==> view == old(view)
      ensures lastRoundId == old(lastRoundId) && lastDecade == old(lastDecade)
      ensures failedVotes == old(failedVotes) && isUpdating == old(isUpdating)
    {
      if view.phase != effectPhase || view.votingPhase != effectVotingPhase {
        effectPhase, effectVotingPhase := view.phase, view.votingPhase;
        if view.phase == "voting" {
          view := view.(yourVote := None);
        }
      }
    }

    /** The three effects after a render, in declaration order. Afterwards
        they are settled, and on a settled screen they change nothing: a
        second identical render fires no reset. */
    method RunEffects(apiCache: EtagCache)
      modifies this, apiCache
      ensures Settled()
      ensures old(Settled()) ==> view == old(view) && failedVotes == old(failedVotes)
                                 && apiCache.entries == old(apiCache.entries)
      ensures SameBoard(view, old(view))
      ensures lastRoundId == old(lastRoundId) || (old(view).currentRound.Some? && lastRoundId == Some(old(view).currentRound.value.id))
      ensures isUpdating == old(isUpdating)
    {
      DecadeEffect(apiCache);
      RoundEffect();
      VotingEffect();
    }

    /** `playersCount` and `requiredTotal`. */
    function RequiredTotal(): (k: nat)
      reads this
      ensures 2 <= k <= 5
    {
      RequiredGroupSize(|view.players|, view.decade)
    }

    predicate CanPropose()
      reads this
    {
      view.isLeader && view.phase == "choose-group" && !view.submitting && |view.proposedGroup| == RequiredTotal()
    }

    /** `(roundDetail?.group || groupMembers || []).includes(player)`: a
        round's group is always an array, so it wins when there is a round. */
    predicate YouAreInGroup()
      reads this
    {
      if view.currentRound.Some? then player in view.currentRound.value.group else player in view.groupMembers
    }

    predicate CanVote()
      reads this
    {
      view.phase == "voting" && view.currentRound.Some? && |view.currentRound.value.group| > 0
      && view.yourVote.None? && !view.submitting
    }

    predicate CanAct()
      reads this
    {
      YouAreInGroup() && view.phase == "waiting-on-group" && view.yourAction.None? && !view.submitting
    }

    /** `handlePlayerSelection(p)`: outside the leader's choose-group phase,
        or while a request is in flight, nothing happens; otherwise the
        selection is marked dirty and `p` toggled in the draft. */
    method SelectPlayer(p: string)
      modifies this
      ensures !(old(view).isLeader && old(view).phase == "choose-group" && !old(view).submitting) ==> view == old(view)
      ensures old(view).isLeader && old(view).phase == "choose-group" && !old(view).submitting
              ==> view == old(view).(selectionDirty := true,
                                     proposedGroup := Toggle(old(view).proposedGroup, p, old(RequiredTotal())))
      ensures |old(view).proposedGroup| <= old(RequiredTotal()) ==> |view.proposedGroup| <= RequiredTotal()
      ensures lastRoundId == old(lastRoundId) && lastDecade == old(lastDecade) && failedVotes == old(failedVotes)
      ensures isUpdating == old(isUpdating) && effectPhase == old(effectPhase) && effectVotingPhase == old(effectVotingPhase)
    {
      if !view.isLeader || view.phase != "choose-group" || view.submitting {
        return;
      }
      var k := RequiredTotal();
      view := view.(selectionDirty := true, proposedGroup := Toggle(view.proposedGroup, p, k));
    }

    /** What `handleSubmitGroup` sends, or why it stops: it needs
        `canPropose` and a round id, then de-duplicates the draft, keeps
        `requiredTotal` names and alerts when fewer remain. */
    function SubmitPlan(): (o: SubmitOutcome)
      reads this
      ensures o.NotAllowed? <==> !CanPropose() || view.currentRound.None? || view.currentRound.value.id == ""
      ensures o.Send? ==> o.roundId == view.currentRound.value.id && o.group == view.proposedGroup
                          && |o.group| == RequiredTotal() && DistinctKeys(o.group, Id)
      ensures o.Rejected? ==> !DistinctKeys(view.proposedGroup, Id)
                              && o.alert == "El grupo debe tener exactamente " + IntToString(RequiredTotal()) + " miembros"
    {
      if !CanPropose() || view.currentRound.None? || view.currentRound.value.id == "" then NotAllowed
      else
        var k := RequiredTotal();
        SubmitDraftOfRequiredLength(view.proposedGroup, k);
        match GroupToSubmit(view.proposedGroup, k)
        case None => Rejected("El grupo debe tener exactamente " + IntToString(k) + " miembros")
        case Some(g) => Send(view.currentRound.value.id, g)
    }

    /** `handleSubmitGroup`: the PATCH goes through `proposeGroup` with the
        group of `SubmitPlan`; the screen's cells are as before once
        `submitting` drops again. */
    method SubmitGroup(roundsCache: EtagCache, preReply: Reply, patchReply: Reply, postReply: Reply, now: int)
      returns (patch: Option<PatchRequest>, r: Option<Result<Json>>)
      modifies roundsCache
      ensures !SubmitPlan().Send? ==> patch == None && r == None && roundsCache.entries == old(roundsCache.entries)
      ensures SubmitPlan().Send? ==> r.Some?
      ensures patch.Some? ==> patch.value.group == DedupBy(ProposedNames(JsonNames(SubmitPlan().group)), Id, {})
      // a plan that passes proposeGroup's checks reaches the pre-check read: its failure
      // is the answer, and a round read with data gets the PATCH iff it waits on its leader
      ensures var plan := SubmitPlan();
              plan.Send? && ProposeValidation(gameId, plan.roundId, JArr(JsonNames(plan.group)), player).None?
              && DedupBy(ProposedNames(JsonNames(plan.group)), Id, {}) != []
              ==> var pre := FetchOutcome(old(roundsCache.entries), "round:" + gameId + ":" + plan.roundId, preReply);
                  && (pre.Err? ==> patch == None && r == Some(Err(pre.error)))
                  && (pre.Ok? && Truthy(pre.value) && Truthy(Get(pre.value, "data"))
                      ==> (patch.Some? <==> Get(Get(pre.value, "data"), "status") == JStr("waiting-on-leader")))
                  && (pre.Ok? && !(Truthy(pre.value) && Truthy(Get(pre.value, "data")))
                      ==> patch == None && r == Some(Thrown(RoundStateUnavailable)))
                  && (pre.Ok? && Truthy(pre.value) && Truthy(Get(pre.value, "data"))
                      && Get(Get(pre.value, "data"), "status") != JStr("waiting-on-leader")
                      ==> r == Some(Thrown(InvalidPhase)))
    // a plan proposeGroup refuses throws before any request
    ensures var plan := SubmitPlan();
            plan.Send? && ProposeValidation(gameId, plan.roundId, JArr(JsonNames(plan.group)), player).Some?
            ==> patch == None && roundsCache.entries == old(roundsCache.entries)
                && r == Some(Thrown(ProposeValidation(gameId, plan.roundId, JArr(JsonNames(plan.group)), player).value))
    ensures var plan := SubmitPlan();
            plan.Send? && ProposeValidation(gameId, plan.roundId, JArr(JsonNames(plan.group)), player).None?
            && DedupBy(ProposedNames(JsonNames(plan.group)), Id, {}) == []
            ==> patch == None && roundsCache.entries == old(roundsCache.entries) && r == Some(Thrown(GroupEmpty))
    // the PATCH's own failure is the answer
    ensures patch.Some? && patchReply.NetworkFailure? ==> r == Some(Thrown(patchReply.message))
    ensures patch.Some? && patchReply.Received? && !IsOk(patchReply.res)
            ==> r == Some(Err(Error(PatchErrorMessage(patchReply.res), Some(patchReply.res.status))))
    // the cache: what the pre-check read stored, and after a good PATCH the
    // blanked entries with what the re-read stored; its outcome is the answer
    ensures var plan := SubmitPlan();
            plan.Send? && ProposeValidation(gameId, plan.roundId, JArr(JsonNames(plan.group)), player).None?
            && DedupBy(ProposedNames(JsonNames(plan.group)), Id, {}) != []
            && !(patch.Some? && patchReply.Received? && IsOk(patchReply.res))
            ==> roundsCache.entries == FetchStore(old(roundsCache.entries), "round:" + gameId + ":" + plan.roundId, preReply, now)
    ensures var plan := SubmitPlan();
            plan.Send? && patch.Some? && patchReply.Received? && IsOk(patchReply.res)
            ==> var key := "round:" + gameId + ":" + plan.roundId;
                var blanked := Blanked(FetchStore(old(roundsCache.entries), key, preReply, now), gameId, plan.roundId, player, now);
                && r == Some(FetchOutcome(blanked, key, postReply))
                && roundsCache.entries == FetchStore(blanked, key, postReply, now)
    {
      var plan := SubmitPlan();
      if !plan.Send? {
        return None, None;
      }
      var groupArray := JArr(JsonNames(plan.group));
      var current, res;
      current, patch, res := ProposeGroup(roundsCache, gameId, plan.roundId, groupArray, player, password,
                                          "", "", preReply, patchReply, postReply, now);
      r := Some(res);
    }

    /** What `voteForGroup` sends and settles with for the current round. */
    function VoteCall(approve: bool, reply: Reply): (Option<RoundRequest>, Result<Json>)
      reads this
      requires view.currentRound.Some?
    {
      VoteForGroup(gameId, view.currentRound.value.id, JBool(approve), player, password, "", "", reply)
    }

    /** What `submitAction` sends and settles with for the current round. */
    function ActionCall(collaborate: bool, reply: Reply): (Option<RoundRequest>, Result<Json>)
      reads this
      requires view.currentRound.Some?
    {
      SubmitAction(gameId, view.currentRound.value.id, JBool(collaborate), player, password, "", "", reply)
    }

    /** `handleVote(approve)`: allowed by `canVote` and a round id, the
        vote goes through `voteForGroup`; an answer with `data` records the
        vote and counts it locally. Returns the request sent. */
    method Vote(approve: bool, reply: Reply) returns (sent: Option<RoundRequest>)
      modifies this
      ensures !old(CanVote()) || old(view).currentRound.value.id == "" ==> sent == None && view == old(view)
      ensures old(CanVote()) && old(view).currentRound.value.id != ""
              ==> sent == old(VoteCall(approve, reply)).0
                  && (if Accepted(old(VoteCall(approve, reply))) then view == CountVote(old(view), approve) && !CanVote()
                      else view == old(view))
      ensures sent.Some? ==> sent.value.body == JObj(map["vote" := JBool(approve)])
      ensures lastRoundId == old(lastRoundId) && lastDecade == old(lastDecade) && failedVotes == old(failedVotes)
      ensures isUpdating == old(isUpdating) && effectPhase == old(effectPhase) && effectVotingPhase == old(effectVotingPhase)
    {
      if !CanVote() || view.currentRound.value.id == "" {
        return None;
      }
      var out := VoteCall(approve, reply);
      sent := out.0;
      if Accepted(out) {
        view := CountVote(view, approve);
      }
    }

    /** `handleAction(collaborate)`: allowed by `canAct` and a round id,
        the action goes through `submitAction`; an answer with `data`
        records it. Returns the request sent. */
    method Act(collaborate: bool, reply: Reply) returns (sent: Option<RoundRequest>)
      modifies this
      ensures !old(CanAct()) || old(view).currentRound.None? || old(view).currentRound.value.id == ""
              ==> sent == None && view == old(view)
      ensures old(CanAct()) && old(view).currentRound.Some? && old(view).currentRound.value.id != ""
              ==> sent == old(ActionCall(collaborate, reply)).0
                  && (if Accepted(old(ActionCall(collaborate, reply))) then view == old(view).(yourAction := Some(collaborate)) && !CanAct()
                      else view == old(view))
      ensures sent.Some? ==> sent.value.body == JObj(map["action" := JBool(collaborate)])
      ensures lastRoundId == old(lastRoundId) && lastDecade == old(lastDecade) && failedVotes == old(failedVotes)
      ensures isUpdating == old(isUpdating) && effectPhase == old(effectPhase) && effectVotingPhase == old(effectVotingPhase)
    {
      if !CanAct() || view.currentRound.None? || view.currentRound.value.id == "" {
        return None;
      }
      var out := ActionCall(collaborate, reply);
      sent := out.0;
      if Accepted(out) {
        view := view.(yourAction := Some(collaborate));
      }
    }

    /** `getPollingInterval()` on the current cells. */
    function PollInterval(): (ms: int)
      reads this
      ensures 1 <= view.decade <= MaxDecades && (view.phase == "voting" || view.phase == "waiting-on-group") ==> ms == 2000
    {
      PollingInterval(view.decade, view.phase, view.isLeader)
    }
  }

  /** A name as a JSON string. */
  function JStrOf(m: string): Json { JStr(m) }

  /** The draft as the array `proposeGroup` receives. */
  function JsonNames(group: seq<string>): (items: seq<Json>)
    ensures |items| == |group|
  {
    Map(group, JStrOf)
  }

  /** Clean names pass through the trim-and-drop-empties of
      `proposeGroup` unchanged. */
  lemma {:induction false} CleanNamesSurvive(group: seq<string>)
    requires forall m :: m in group ==> Clean(m)
    ensures ProposedNames(JsonNames(group)) == group
  {
    if group != [] {
      assert JsonNames(group)[1..] == JsonNames(group[1..]);
      assert JsonNames(group)[0] == JStr(group[0]);
      assert Clean(group[0]);
      CleanNamesSurvive(group[1..]);
    }
  }

  /** A draft of clean, distinct names is sent exactly as drafted. */
  lemma CleanDraftSentAsIs(group: seq<string>)
    requires forall m :: m in group ==> Clean(m)
    requires DistinctKeys(group, Id)
    ensures DedupBy(ProposedNames(JsonNames(group)), Id, {}) == group
  {
    CleanNamesSurvive(group);
    DedupByDistinct(group, Id, {});
  }
}

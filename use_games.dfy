/**
 * The games hooks (hooks/use-games.ts): the games listing, a single game,
 * and the user's progress list with its upsert by game id. Each fetch keeps
 * the old data on failure, reports the message or its default, and always
 * ends with loading cleared.
 */
module UseGames {
  import opened Wrappers
  import opened Api

  const GamesFailedMessage := "Erro ao carregar jogos"
  const GameFailedMessage := "Erro ao carregar jogo"
  const ProgressFailedMessage := "Erro ao carregar progresso"

  // ---------------------------------------------------------------------------
  // The progress upsert
  // ---------------------------------------------------------------------------

  /** `prev.findIndex(p => p.gameId === gameId)`: the first match, or -1. */
  function FindIndex(prev: seq<UserProgress>, gameId: string): (i: int)
    ensures -1 <= i < |prev|
    ensures i >= 0 ==> prev[i].gameId == gameId && forall j :: 0 <= j < i ==> prev[j].gameId != gameId
    ensures i == -1 ==> forall j :: 0 <= j < |prev| ==> prev[j].gameId != gameId
  {
    if prev == [] then -1
    else if prev[0].gameId == gameId then 0
    else
      var k := FindIndex(prev[1..], gameId);
      if k == -1 then -1 else k + 1
  }

  /** Some entry of `prev` has this game id. */
  ghost predicate HasGame(prev: seq<UserProgress>, gameId: string) {
    exists j :: 0 <= j < |prev| && prev[j].gameId == gameId
  }

  /**
   * The updater passed to setProgress: replace the first entry for the game
   * with the server's record, or append the record when there is none.
   */
  function Upsert(prev: seq<UserProgress>, gameId: string, record: UserProgress): (next: seq<UserProgress>)
    ensures HasGame(prev, gameId) ==> |next| == |prev| && next[FindIndex(prev, gameId)] == record
    ensures !HasGame(prev, gameId) ==> next == prev + [record]
    ensures forall j :: 0 <= j < |prev| && j != FindIndex(prev, gameId) ==> next[j] == prev[j]
  {
    var index := FindIndex(prev, gameId);
    if index >= 0 then prev[index := record] else prev + [record]
  }

  /**
   * Applying the same server record twice is applying it once, when the
   * record belongs to the game it was requested for.
   */
  lemma UpsertIdempotent(prev: seq<UserProgress>, gameId: string, record: UserProgress)
    requires record.gameId == gameId
    ensures Upsert(Upsert(prev, gameId, record), gameId, record) == Upsert(prev, gameId, record)
  {
    var once := Upsert(prev, gameId, record);
    var i := FindIndex(prev, gameId);
    var k := if i >= 0 then i else |prev|;
    assert once[k] == record;
    assert forall j :: 0 <= j < k ==> once[j] == prev[j];
    assert FindIndex(once, gameId) == k;
    assert once[k := record] == once;
  }

  /** After an upsert the first entry for the game is the new record. */
  lemma UpsertFindsRecord(prev: seq<UserProgress>, gameId: string, record: UserProgress)
    requires record.gameId == gameId
    ensures var next := Upsert(prev, gameId, record);
      FindIndex(next, gameId) >= 0 && next[FindIndex(next, gameId)] == record
  {
    var next := Upsert(prev, gameId, record);
    var i := FindIndex(prev, gameId);
    var k := if i >= 0 then i else |prev|;
    assert next[k] == record;
    assert forall j :: 0 <= j < k ==> next[j] == prev[j];
    assert FindIndex(next, gameId) == k;
  }

  // ---------------------------------------------------------------------------
  // useGames
  // ---------------------------------------------------------------------------

  class GamesHook {
    var games: seq<Game>
    var isLoading: bool
    var error: Option<string>
    var total: int
    var totalPages: int

    constructor ()
      ensures games == [] && isLoading && error == None && total == 0 && totalPages == 0
    {
      games, isLoading, error, total, totalPages := [], true, None, 0, 0;
    }

    /**
     * fetchGames: the error is cleared first; a delivered page replaces the
     * games and both counts; otherwise the old data stays and the error is
     * the message or "Erro ao carregar jogos".
     */
    method FetchGames(outcome: CallOutcome<GamesPage>)
      modifies this
      ensures !isLoading
      ensures Delivered(outcome) ==>
        var page := outcome.response.data.value;
        games == page.games && total == page.total && totalPages == page.totalPages && error == None
      ensures !Delivered(outcome) ==>
        games == old(games) && total == old(total) && totalPages == old(totalPages)
        && error == Some(FailureMessage(outcome, GamesFailedMessage))
    {
      isLoading := true;
      error := None;
      if Delivered(outcome) {
        var page := outcome.response.data.value;
        games := page.games;
        total := page.total;
        totalPages := page.totalPages;
      } else {
        error := Some(FailureMessage(outcome, GamesFailedMessage));
      }
      isLoading := false;
    }
  }

  // ---------------------------------------------------------------------------
  // useGame
  // ---------------------------------------------------------------------------

  class GameHook {
    var game: Option<Game>
    var isLoading: bool
    var error: Option<string>

    constructor ()
      ensures game == None && isLoading && error == None
    {
      game, isLoading, error := None, true, None;
    }

    /** fetchGame: as fetchGames, for one game, with default "Erro ao carregar jogo". */
    method FetchGame(outcome: CallOutcome<Game>)
      modifies this
      ensures !isLoading
      ensures Delivered(outcome) ==> game == outcome.response.data && error == None
      ensures !Delivered(outcome) ==> game == old(game) && error == Some(FailureMessage(outcome, GameFailedMessage))
    {
      isLoading := true;
      error := None;
      if Delivered(outcome) {
        game := outcome.response.data;
      } else {
        error := Some(FailureMessage(outcome, GameFailedMessage));
      }
      isLoading := false;
    }

    /**
     * The effect run when the game id changes: it fetches only for a
     * non-empty id, and an empty id leaves the hook exactly as it was.
     */
    method OnGameId(gameId: string, outcome: CallOutcome<Game>) returns (fetched: bool)
      modifies this
      ensures fetched <==> gameId != ""
      ensures !fetched ==> game == old(game) && isLoading == old(isLoading) && error == old(error)
      ensures fetched ==> !isLoading
      ensures fetched && Delivered(outcome) ==> game == outcome.response.data && error == None
      ensures fetched && !Delivered(outcome) ==> game == old(game) && error == Some(FailureMessage(outcome, GameFailedMessage))
    {
      fetched := gameId != "";
      if fetched {
        FetchGame(outcome);
      }
    }
  }

  // ---------------------------------------------------------------------------
  // useUserProgress
  // ---------------------------------------------------------------------------

  class ProgressHook {
    var progress: seq<UserProgress>
    var isLoading: bool
    var error: Option<string>

    constructor ()
      ensures progress == [] && isLoading && error == None
    {
      progress, isLoading, error := [], true, None;
    }

    /** fetchProgress: as fetchGames, with default "Erro ao carregar progresso". */
    method FetchProgress(outcome: CallOutcome<seq<UserProgress>>)
      modifies this
      ensures !isLoading
      ensures Delivered(outcome) ==> progress == outcome.response.data.value && error == None
      ensures !Delivered(outcome) ==> progress == old(progress) && error == Some(FailureMessage(outcome, ProgressFailedMessage))
    {
      isLoading := true;
      error := None;
      if Delivered(outcome) {
        progress := outcome.response.data.value;
      } else {
        error := Some(FailureMessage(outcome, ProgressFailedMessage));
      }
      isLoading := false;
    }

    /**
     * updateProgress: true exactly when the call delivers a record, which is
     * then upserted by the requested game id; otherwise nothing changes.
     */
    method UpdateProgress(gameId: string, outcome: CallOutcome<UserProgress>) returns (ok: bool)
      modifies this`progress
      ensures ok <==> Delivered(outcome)
      ensures progress == if ok then Upsert(old(progress), gameId, outcome.response.data.value) else old(progress)
    {
      ok := Delivered(outcome);
      if ok {
        progress := Upsert(progress, gameId, outcome.response.data.value);
      }
    }

    /** completeGame: the same bookkeeping as updateProgress for the completion call. */
    method CompleteGame(gameId: string, outcome: CallOutcome<UserProgress>) returns (ok: bool)
      modifies this`progress
      ensures ok <==> Delivered(outcome)
      ensures progress == if ok then Upsert(old(progress), gameId, outcome.response.data.value) else old(progress)
    {
      ok := Delivered(outcome);
      if ok {
        progress := Upsert(progress, gameId, outcome.response.data.value);
      }
    }
  }
}

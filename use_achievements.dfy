/**
 * The achievements hook (hooks/use-achievements.ts): the catalogue and the
 * user's unlocked list, refreshed together, and an unlock that appends the
 * server's record to the user's list.
 */
module UseAchievements {
  import opened Wrappers
  import opened Api

  const AchievementsFailedMessage := "Erro ao carregar conquistas"

  /**
   * What awaiting both requests together gives: both responses, or the
   * value one of them threw (then neither response is seen).
   */
  datatype PairOutcome =
    | BothReturned(all: ApiResponse<seq<Achievement>>, mine: ApiResponse<seq<Achievement>>)
    | EitherThrew(error: ErrorValue)

  class AchievementsHook {
    var achievements: seq<Achievement>
    var userAchievements: seq<Achievement>
    var isLoading: bool
    var error: Option<string>

    constructor ()
      ensures achievements == [] && userAchievements == [] && isLoading && error == None
    {
      achievements, userAchievements, isLoading, error := [], [], true, None;
    }

    /**
     * fetchAchievements: each list is replaced only by its own response
     * succeeding with data; only a failed catalogue response sets the error;
     * a throw updates neither list and reports handleApiError.
     */
    method FetchAchievements(outcome: PairOutcome)
      modifies this
      ensures !isLoading
      ensures outcome.EitherThrew? ==>
        achievements == old(achievements) && userAchievements == old(userAchievements)
        && error == Some(HandleApiError(outcome.error))
      ensures outcome.BothReturned? ==>
        achievements == (if Carries(outcome.all) then outcome.all.data.value else old(achievements))
        && userAchievements == (if Carries(outcome.mine) then outcome.mine.data.value else old(userAchievements))
        && error == (if outcome.all.success then None else Some(OrElse(outcome.all.message, AchievementsFailedMessage)))
    {
      isLoading := true;
      error := None;
      match outcome {
        case BothReturned(all, mine) =>
          if Carries(all) {
            achievements := all.data.value;
          }
          if Carries(mine) {
            userAchievements := mine.data.value;
          }
          if !all.success {
            error := Some(OrElse(all.message, AchievementsFailedMessage));
          }
        case EitherThrew(e) =>
          error := Some(HandleApiError(e));
      }
      isLoading := false;
    }

    /**
     * unlockAchievement: true exactly when the call delivers a record, which
     * is appended to the user's list without removing duplicates.
     */
    method UnlockAchievement(outcome: CallOutcome<Achievement>) returns (ok: bool)
      modifies this`userAchievements
      ensures ok <==> Delivered(outcome)
      ensures userAchievements == if ok then old(userAchievements) + [outcome.response.data.value] else old(userAchievements)
      ensures |userAchievements| == |old(userAchievements)| + (if ok then 1 else 0)
    {
      ok := Delivered(outcome);
      if ok {
        userAchievements := userAchievements + [outcome.response.data.value];
      }
    }
  }
}

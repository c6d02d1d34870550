/** The running game's status: refresh and sensitivity flags, the phase of
    play, and the history being recorded for the current attempt. */
module Status {
  import opened Integers
  import opened Leaderboard

  datatype StatusMode = Setup | Deploying | Running | Paused | Done

  class GameStatus {
    var isRefreshRequired: bool
    var inModifiedSensitivity: bool
    var mode: StatusMode
    var currentHistory: LevelHistory

    /** `GameStatus::default()`. */
    constructor ()
      ensures !isRefreshRequired && !inModifiedSensitivity && mode == Setup
      ensures currentHistory == DEFAULT_HISTORY
    {
      isRefreshRequired := false;
      inModifiedSensitivity := false;
      mode := Setup;
      currentHistory := LevelHistory(false, 0, [], [], [], [], "");
    }

    /** Starts a fresh history: not clear, no time, no controls, no
        timestamp. */
    method ResetHistory()
      modifies this
      ensures currentHistory == DEFAULT_HISTORY
      ensures currentHistory.time == 0 && !currentHistory.isClear && currentHistory.createdAt == ""
      ensures currentHistory.x == [] && currentHistory.y == [] && currentHistory.force == [] && currentHistory.angle == []
      ensures isRefreshRequired == old(isRefreshRequired) && inModifiedSensitivity == old(inModifiedSensitivity)
      ensures mode == old(mode)
    {
      currentHistory := LevelHistory(false, 0, [], [], [], [], "");
    }

    /** Counts one tick of the current attempt. */
    method Tick()
      requires currentHistory.time + 1 < U32_LIMIT
      modifies this
      ensures currentHistory == old(currentHistory).(time := old(currentHistory.time) + 1)
      ensures isRefreshRequired == old(isRefreshRequired) && inModifiedSensitivity == old(inModifiedSensitivity)
      ensures mode == old(mode)
    {
      currentHistory := currentHistory.(time := currentHistory.time + 1);
    }

    /** Closes the current attempt: records whether it cleared and the
        moment (`createdAt`, already formatted) it was submitted. */
    method SumbitHistory(isClear: bool, createdAt: string)
      modifies this
      ensures currentHistory == old(currentHistory).(isClear := isClear, createdAt := createdAt)
      ensures currentHistory.time == old(currentHistory.time) && currentHistory.x == old(currentHistory.x)
      ensures currentHistory.y == old(currentHistory.y) && currentHistory.force == old(currentHistory.force)
      ensures currentHistory.angle == old(currentHistory.angle)
      ensures isRefreshRequired == old(isRefreshRequired) && inModifiedSensitivity == old(inModifiedSensitivity)
      ensures mode == old(mode)
    {
      currentHistory := currentHistory.(isClear := isClear);
      currentHistory := currentHistory.(createdAt := createdAt);
    }
  }
}

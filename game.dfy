/**
 * The game object of rock_paper_scissors.py (`RockPaperScissorsGame`): it owns
 * the statistics record, updates it in place during a match, zeroes it on a
 * confirmed reset, and writes it to the statistics file after either.
 */
module Game {
  import opened Options
  import opened Rules
  import opened Text
  import opened Input
  import opened Statistics
  import opened Match

  /**
   * How one attempt to write the statistics file ends. `open(..., 'w')` empties
   * the file before `json.dump` runs, so an I/O error raised after the file was
   * opened leaves it empty or half written; only a failed `open` leaves it alone.
   */
  datatype WriteOutcome = Written | OpenFailed | FailedAfterOpen

  /** What the statistics file holds as far as this game's own writes go. */
  datatype SavedFile =
    | NotWritten          // no write of this game has touched the file yet
    | Holds(record: Stats) // the last write completed with this record
    | Truncated           // the last write failed after the file was opened

  /** The file after one write of `record` that ended in `outcome`. */
  function AfterSave(file: SavedFile, record: Stats, outcome: WriteOutcome): SavedFile {
    match outcome
    case Written => Holds(record)
    case OpenFailed => file
    case FailedAfterOpen => Truncated
  }

  class RockPaperScissorsGame {
    /** The all-time statistics, `self.stats`. */
    var stats: Stats
    /** What the statistics file holds from this game's own writes. */
    var saved: SavedFile

    /** A game starting from the record read at start-up, or from the default record when there was none. */
    constructor (loaded: Option<Stats>)
      ensures stats == (if loaded.Some? then loaded.value else DefaultStats())
      ensures saved == NotWritten
    {
      stats := if loaded.Some? then loaded.value else DefaultStats();
      saved := NotWritten;
    }

    /**
     * `_save_all_time_stats`: writes the whole record. An I/O error is reported
     * and ignored; the record in memory is never touched.
     */
    method SaveAllTimeStats(outcome: WriteOutcome)
      modifies this`saved
      ensures outcome == Written ==> saved == Holds(stats)
      ensures outcome == OpenFailed ==> saved == old(saved)
      ensures outcome == FailedAfterOpen ==> saved == Truncated
    {
      match outcome
      case Written => saved := Holds(stats);
      case OpenFailed =>
      case FailedAfterOpen => saved := Truncated;
    }

    /**
     * `reset_statistics`: zeroes the record and writes it exactly when both
     * confirmations pass; otherwise it answers false and changes nothing.
     */
    method ResetStatistics(first: string, second: string, outcome: WriteOutcome) returns (done: bool)
      modifies this
      ensures done == ResetConfirmed(first, second)
      ensures stats == (if done then DefaultStats() else old(stats))
      ensures saved == (if done then AfterSave(old(saved), DefaultStats(), outcome) else old(saved))
    {
      var answer := Strip(Lower(first));
      if answer != "yes" && answer != "y" {
        return false;
      }
      if Strip(second) != "RESET" {
        return false;
      }
      stats := DefaultStats();
      SaveAllTimeStats(outcome);
      return true;
    }

    /**
     * `play_best_of_three`, fed with the moves of each round. Returns the final
     * loop state and whether the match was decided before the rounds ran out.
     * Every round played is added to the round counters at once; a decided match
     * is then added to the match counters and the record is written.
     */
    method PlayBestOfThree(rounds: seq<Round>, outcome: WriteOutcome) returns (m: MatchState, finished: bool)
      modifies this
      ensures m == PlayMatch(rounds)
      ensures finished == m.Over()
      ensures finished ==> stats == RecordMatch(RecordRounds(old(stats), Results(m.history)), m.userWins == 2)
      ensures !finished ==> stats == RecordRounds(old(stats), Results(m.history))
      ensures saved == (if finished then AfterSave(old(saved), stats, outcome) else old(saved))
    {
      var userWins: nat, computerWins: nat := 0, 0;
      var roundsHistory: seq<RoundRecord> := [];
      var i := 0;
      while userWins < 2 && computerWins < 2 && i < |rounds|
        invariant i == |roundsHistory| <= |rounds|
        invariant PlayRounds(MatchState(userWins, computerWins, roundsHistory), rounds[i..]) == PlayMatch(rounds)
        invariant stats == RecordRounds(old(stats), Results(roundsHistory))
        invariant saved == old(saved)
        decreases |rounds| - i
      {
        var (userChoice, computerChoice) := rounds[i];
        var result := Winner(userChoice, computerChoice);
        ghost var before := stats;
        ResultsAppend(roundsHistory, RoundRecord(userChoice, computerChoice, result));
        assert rounds[i..][1..] == rounds[i + 1..];
        roundsHistory := roundsHistory + [RoundRecord(userChoice, computerChoice, result)];

        stats := stats.(totalRounds := stats.totalRounds + 1);
        if result == User {
          stats := stats.(roundsWon := stats.roundsWon + 1);
        } else if result == Computer {
          stats := stats.(roundsLost := stats.roundsLost + 1);
        } else {
          stats := stats.(roundsTied := stats.roundsTied + 1);
        }
        assert stats == RecordRound(before, result);

        if result == User {
          userWins := userWins + 1;
        } else if result == Computer {
          computerWins := computerWins + 1;
        }
        i := i + 1;
      }
      m := MatchState(userWins, computerWins, roundsHistory);
      finished := m.Over();
      if !finished {
        return;
      }

      stats := stats.(totalMatches := stats.totalMatches + 1);
      if userWins == 2 {
        stats := stats.(matchesWon := stats.matchesWon + 1);
      } else {
        stats := stats.(matchesLost := stats.matchesLost + 1);
      }
      SaveAllTimeStats(outcome);
    }
  }
}

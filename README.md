# Rock, paper, scissors: the match engine and its statistics

This project models the game logic of `rock_paper_scissors.py`, a terminal
best-of-three rock-paper-scissors game that keeps all-time statistics. It proves
properties of the model in Dafny. The model covers:

- **the round rule** (`determine_winner`): a tie when both moves are equal, a
  user win for rock on scissors, paper on rock and scissors on paper, and a
  computer win otherwise;
- **the match loop** (`play_best_of_three`): rounds are played until one side
  has two round wins. Each round appends a `(user, computer, result)` record to
  the history, adds one to the round counters, and credits the winner of a
  decisive round. A decided match adds one to the match counters and writes the
  record to the statistics file;
- **the statistics record** (`_get_default_stats` and the in-place updates):
  seven integer counters. Every update keeps
  `total_rounds == rounds_won + rounds_lost + rounds_tied` and
  `total_matches == matches_won + matches_lost`;
- **the input handling**: the move prompt of `get_user_choice` lower-cases and
  strips the line, then accepts `r`/`p`/`s` or the full word and asks again
  otherwise. `reset_statistics` zeroes the record only after two confirmations:
  "yes"/"y" in any case, then the exact token "RESET".

Modules, one file each:

- `Options` (options.dfy): an optional value.
- `Text` (text.dfy): Python's `str.lower()` and `str.strip()`. `IsSpace` is
  exactly Python's white-space set.
- `Rules` (rules.dfy): moves, outcomes, `Winner`, and counting outcomes.
- `Input` (input.dfy): move parsing, the re-prompting loop and the reset
  confirmations.
- `Statistics` (statistics.dfy): the record and its round and match updates.
- `Match` (match.dfy): the match loop as a state machine over
  `(user_wins, computer_wins, rounds_history)`, with the lemmas about matches.
- `Game` (game.dfy): the class `RockPaperScissorsGame`. Its fields are the
  statistics record and the last snapshot written to the file. It has the
  imperative loop of `play_best_of_three` and the reset. Both are proved
  against the `Match` and `Statistics` functions.

The two external sources become parameters:

- The player's moves and the computer's random choices come in as a sequence of
  `(user move, computer move)` pairs.
- Each typed line comes in as a string.
- How a file write ends comes in as a `WriteOutcome`: written, `open` failed, or failed after the file was opened.

Points where the code behaves differently from what a reader might expect:

- A match has no cap on its number of rounds. The loop at
  `rock_paper_scissors.py:328` runs until one side has two wins, and a tie
  credits neither side (lines 349-350). Only the number of *decisive* rounds is
  bounded (2 or 3). Ties are unbounded, as `Match.TiesDoNotEndMatch` shows.
- A loaded statistics file is never validated. The code falls back on the
  default record when the file does not exist (lines 84, 87-88), or on a JSON
  syntax error or an I/O error (lines 89-91). It does not check
  the shape or the values of what `json.load` returns (line 86). So every update
  preserves the counter identities, but a loaded record need not satisfy them.
- The record is written only at two points: after a confirmed reset (line 131)
  and at the end of a decided match (line 380). If the input ends in the middle
  of a match, the rounds already added in memory are never written.
  `Game.RockPaperScissorsGame.PlayBestOfThree` models this: when the rounds run
  out first, the match counters are not bumped and nothing is written.
- Writing opens the file with mode `'w'` (line 96), which empties it before
  `json.dump` runs (line 97). An I/O error in `json.dump` or in closing the
  file is caught at line 98 and leaves the file empty or half written. Only a
  failed `open` leaves the previous contents in place.

The functions that carry the behaviour are characterised by lemmas, which the
table below lists: `Match.PlayRound`, `PlayRounds` and `PlayMatch` (lines
328-359) by `Match.PlayRoundsFacts` and the `Match*` lemmas;
`Input.ParseWord` and `ParseMove` (lines 163-168) by `Input.ParseWordSelects`,
`ParseMoveAccepts` and `ParseMoveRejects`; `Input.ResetConfirmed` (lines
119-127) by `Input.ResetConfirmedIff`; `Statistics.DefaultStats` (lines 69-79)
by `Statistics.DefaultIsConsistent` and `Statistics.DefaultIsLeast`; `Statistics.RecordRounds` by
`Statistics.RecordRoundsCounts`; `Text.Strip` (line 163) by
`Text.StripIsPadded`; and `Game.AfterSave` (lines 93-99) by
`Game.RockPaperScissorsGame.SaveAllTimeStats`.

## Model

| member | source | states |
|---|---|---|
| `Rules.Winner` | rock_paper_scissors.py:176-185 | the result is a tie exactly when the moves are equal; it is a user win exactly when the user's move is one step ahead on the cycle rock, paper, scissors (index difference 1 mod 3), and a computer win exactly when the computer's is |
| `Rules.UserWinsExactly` | rock_paper_scissors.py:180-183 | the user wins for exactly the pairs (rock, scissors), (paper, rock), (scissors, paper) |
| `Rules.WinnerAntisymmetric` | rock_paper_scissors.py:176-185 | swapping the two moves swaps "user" and "computer", and a tie stays a tie |
| `Rules.EachMoveBeatsOneAndLosesToOne` | rock_paper_scissors.py:180-185 | each move beats exactly one move (its prey) and loses to exactly one move |
| `Rules.CountsPartition` | rock_paper_scissors.py:339-345 | every round outcome is exactly one of user win, computer win or tie, so the three counts add up to the number of rounds |
| `Rules.DecisiveKeepsWins` | rock_paper_scissors.py:349-356 | dropping the ties from a list of outcomes keeps every win of each side and nothing else |
| `Text.LowerChar` | rock_paper_scissors.py:163 | an ASCII capital maps to its small letter (code point plus 32), the Kelvin sign maps to `k`, and every other character is kept. Lower-casing keeps white space white space, and yields an ASCII small letter exactly for ASCII letters and the Kelvin sign |
| `Text.LeadingSpacesAre` | rock_paper_scissors.py:163 | the leading white space that `strip()` removes is all white space and stops at the first character that is not |
| `Text.TrailingSpacesAre` | rock_paper_scissors.py:163 | the trailing white space that `strip()` removes is all white space and stops at the last character that is not |
| `Text.LeadingSpacesAt` | rock_paper_scissors.py:163 | the leading white space is determined uniquely: it is any prefix of white space followed by a character that is not white space |
| `Text.TrailingSpacesAt` | rock_paper_scissors.py:163 | the trailing white space is determined uniquely: it is any suffix of white space preceded by a character that is not white space |
| `Text.StripIsPadded` | rock_paper_scissors.py:163 | stripping a line gives a word without outer white space exactly when the line is that word with only white space around it |
| `Input.ParseWordSelects` | rock_paper_scissors.py:33-34 | a normalised answer selects a move exactly when it is the move's name or its one-letter shortcut |
| `Input.ParseMoveAccepts` | rock_paper_scissors.py:163-168 | a line selects move m exactly when, lower-cased, it is m's name or first letter with only white space around it |
| `Input.ParseMoveRejects` | rock_paper_scissors.py:163-170 | a line is refused exactly when its lower-cased, stripped form is none of r, p, s, rock, paper, scissors |
| `Input.ParseMoveCaseInsensitive` | rock_paper_scissors.py:163-168 | any capitalisation of a name or shortcut, padded with any white space, selects that move |
| `Input.GetUserChoice` | rock_paper_scissors.py:160-170 | the prompt returns the move of the first line that parses, after refusing every line before it; when the lines run out first, every line was refused |
| `Input.ResetConfirmedIff` | rock_paper_scissors.py:119-127 | a reset is confirmed exactly when the first answer, lower-cased, is "yes" or "y" padded with white space, and the second is exactly "RESET" padded with white space |
| `Input.ResetTokenIsCaseSensitive` | rock_paper_scissors.py:124-125 | a confirming second answer holds the capital R of "RESET", so no all-lower-case answer confirms |
| `Statistics.DefaultIsConsistent` | rock_paper_scissors.py:69-79 | the default record satisfies both identities, total_rounds = won + lost + tied and total_matches = won + lost, with no assumption about any other record |
| `Statistics.DefaultIsLeast` | rock_paper_scissors.py:69-79 | the default record is consistent and no consistent record has any counter below it, so all seven counters are zero |
| `Statistics.RecordRound` | rock_paper_scissors.py:339-345 | a round adds one to total_rounds and one to exactly the counter its outcome names (won, lost or tied), leaving the other two as they were. It changes no match counter, decreases nothing and keeps both identities |
| `Statistics.RecordRoundsCounts` | rock_paper_scissors.py:328-345 | after a run of rounds, each round counter has grown by the number of its outcomes and total_rounds by the number of rounds. The match counters are unchanged and the identities still hold |
| `Statistics.RecordMatch` | rock_paper_scissors.py:362-366 | a match adds one to total_matches, adds one to matches_won when the user won and one to matches_lost when not, and leaves the other match counter as it was. It keeps both identities and touches no round counter |
| `Match.PlayRoundsFacts` | rock_paper_scissors.py:328-359 | the loop keeps its invariant (wins count the history, no round follows a second win), appends one record per round consumed, and consumes every round unless a side reaches two wins |
| `Match.MatchFollowsRounds` | rock_paper_scissors.py:332-336 | the k-th history record holds the k-th pair of moves and the outcome `determine_winner` gives them; an unfinished match consumed all rounds |
| `Match.MatchWinsCountRounds` | rock_paper_scissors.py:349-356 | each side's win count is the number of rounds it took; ties credit nobody; wins plus ties is the number of rounds |
| `Match.MatchEndsAtTwoWins` | rock_paper_scissors.py:328 | no round is played after a side has two wins. A decided match has exactly one side at 2 and the other at 0 or 1, with 2 or 3 decisive rounds, and its last round was won by the match winner |
| `Match.MatchIgnoresLaterRounds` | rock_paper_scissors.py:328 | once the match is decided, any further rounds supplied are never played |
| `Match.ThirdDecisiveRoundIffSplit` | rock_paper_scissors.py:328-356 | a decided match has a third decisive round exactly when its first two decisive rounds went to different sides |
| `Match.TiesDoNotEndMatch` | rock_paper_scissors.py:328-359 | for every n, n ties followed by two user wins make a decided match of n + 2 rounds: the number of rounds is not capped |
| `Match.TwoStraightWins` | rock_paper_scissors.py:328-356 | rock against scissors twice ends the match 2-0 after exactly two rounds |
| `Match.SplitGoesToThirdRound` | rock_paper_scissors.py:328-356 | a 1-1 split after two rounds leaves the match open, and a third round decides it 2-1 |
| `Match.MatchBookkeeping` | rock_paper_scissors.py:339-366 | after a decided match the record has one more match (won exactly when the user had two wins, lost exactly when the computer did). Rounds won and lost grew by the two win counts and total_rounds by the match length. Both identities hold and no counter went down |
| `Game.RockPaperScissorsGame.constructor` | rock_paper_scissors.py:25-36 | a new game holds the record loaded at start-up, or the default record when there was none |
| `Game.RockPaperScissorsGame.SaveAllTimeStats` | rock_paper_scissors.py:93-99 | a completed write makes the file hold the current record. A failed `open` leaves the file as it was. A failure after the file was opened leaves it truncated. The record in memory is never touched |
| `Game.RockPaperScissorsGame.ResetStatistics` | rock_paper_scissors.py:101-136 | returns true exactly when both confirmations pass. Only then does the record become the default record and get written, with the file ending as that write's outcome gives. Otherwise neither the record nor the file changes |
| `Game.RockPaperScissorsGame.PlayBestOfThree` | rock_paper_scissors.py:318-380 | the loop ends in the state the match specification gives for these rounds. The record gets each played round's bookkeeping, then, if the match was decided, one match's bookkeeping, and is written |

## Left out

- Reading the statistics file (`_load_all_time_stats`, lines 81-91): JSON and file access are library calls. The constructor takes the loaded record, or None when the file is missing or unreadable. The model assumes the file holds a JSON object with exactly these seven keys and integer values. Otherwise the program fails later with `KeyError` or `TypeError`, at the first line that reads the bad entry or does arithmetic with it, or it carries a float along. The program also keeps any extra keys and writes them back at line 97 until a reset replaces the dictionary (line 130); the seven-field `Stats` drops them. A loaded record is not checked (line 86), so no identity is assumed of it.
- Writing the file (`_save_all_time_stats`): only the effect is modelled: the file holds this record, is unchanged (a failed `open`), or is truncated (a failure after the open). What a half-written file holds and the JSON layout are not modelled.
- `get_computer_choice` and its randomness: the computer's moves are part of the supplied round sequence. No claim is made about their distribution.
- `get_computer_taunt`, `get_final_taunt`, `display_game_history`, `display_all_time_stats`, `display_victory_trophy`, `show_main_menu`, `run`, `main`: printing and menu dispatch, with no state beyond what is modelled.
- The win-rate percentages (lines 257, 268): floating-point division used only for display.
- `round_num` in `play_best_of_three`: it is only printed.
- Game.RockPaperScissorsGame.PlayBestOfThree: it takes moves rather than raw lines. `Input.GetUserChoice` models the prompt that turns lines into a move. When the supplied rounds run out before a side has two wins, the method stops and reports the match as unfinished. The program would instead block waiting for input, or end on end-of-input without saving.
- Input.GetUserChoice: when the supplied lines run out before one parses, it answers None. The program would instead block waiting for input, or stop with `EOFError` at end of input.
- Text.LowerChar: maps only ASCII capitals and the Kelvin sign. These are the only characters whose lower case is a letter of the accepted words. Any other character is kept as it is. So the model accepts and refuses exactly the lines Python's `lower()` would, though the lowered text itself differs for other scripts.
- The statistics dictionary is modelled as a value held in the `stats` field and reassigned. Nothing else refers to it, so there is no aliasing to model.

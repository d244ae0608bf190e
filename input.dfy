/**
 * What the game makes of the lines the player types: the move prompt with its
 * one-letter shortcuts (`get_user_choice`) and the two reset confirmations
 * (`reset_statistics`).
 */
module Input {
  import opened Options
  import opened Text
  import opened Rules

  /** The one-letter shortcuts the move prompt accepts. */
  const Shortcuts: map<string, Move> := map["r" := Rock, "p" := Paper, "s" := Scissors]

  /** The shortcut of a move is the first letter of its name. */
  function Shortcut(m: Move): string {
    Name(m)[..1]
  }

  /** The move named by a full word, if it is one of the three names. */
  function FromName(word: string): Option<Move> {
    if word == Name(Rock) then Some(Rock)
    else if word == Name(Paper) then Some(Paper)
    else if word == Name(Scissors) then Some(Scissors)
    else None
  }

  /** A lower-cased, stripped answer: a shortcut, else a full name, else nothing. */
  function ParseWord(choice: string): Option<Move> {
    if choice in Shortcuts then Some(Shortcuts[choice]) else FromName(choice)
  }

  /** One answer to the move prompt. */
  function ParseMove(line: string): Option<Move> {
    ParseWord(Strip(Lower(line)))
  }

  /** The six accepted words, two per move, and what each selects. */
  lemma ParseWordSelects(choice: string, m: Move)
    ensures ParseWord(choice) == Some(m) <==> choice == Name(m) || choice == Shortcut(m)
  {
    assert Shortcut(Rock) == "r" && Shortcut(Paper) == "p" && Shortcut(Scissors) == "s";
  }

  /**
   * A line selects move `m` exactly when, lower-cased, it is the name of `m` or
   * its first letter with only white space around it.
   */
  lemma ParseMoveAccepts(line: string, m: Move)
    ensures ParseMove(line) == Some(m)
        <==> PaddedBy(Lower(line), Name(m)) || PaddedBy(Lower(line), Shortcut(m))
  {
    var low := Lower(line);
    ParseWordSelects(Strip(low), m);
    assert Shortcut(m) == [Name(m)[0]];
    StripIsPadded(low, Name(m));
    StripIsPadded(low, Shortcut(m));
  }

  /** Every line that is not one of the six accepted words is refused. */
  lemma ParseMoveRejects(line: string)
    ensures ParseMove(line) == None
        <==> Strip(Lower(line)) !in {"r", "p", "s", "rock", "paper", "scissors"}
  {
  }

  /** Lower-casing keeps white space, so a padded word stays padded, now in lower case. */
  lemma LowerKeepsPadding(before: string, word: string, after: string)
    requires AllSpace(before) && AllSpace(after)
    ensures PaddedBy(Lower(before + word + after), Lower(word))
  {
    var line := before + word + after;
    var low := Lower(line);
    var i := |before|;
    var j := i + |word|;
    assert low[i..j] == Lower(word) by {
      forall k | 0 <= k < |word| ensures low[i..j][k] == Lower(word)[k] { assert line[i + k] == word[k]; }
    }
    assert AllSpace(low[..i]) by {
      forall k | 0 <= k < i ensures IsSpace(low[..i][k]) { assert line[k] == before[k]; }
    }
    assert AllSpace(low[j..]) by {
      forall k | 0 <= k < |after| ensures IsSpace(low[j..][k]) { assert line[j + k] == after[k]; }
    }
  }

  /** Any capitalisation of a move's name, or of its shortcut, padded with white space, selects that move. */
  lemma ParseMoveCaseInsensitive(before: string, word: string, after: string, m: Move)
    requires AllSpace(before) && AllSpace(after)
    requires Lower(word) == Name(m) || Lower(word) == Shortcut(m)
    ensures ParseMove(before + word + after) == Some(m)
  {
    LowerKeepsPadding(before, word, after);
    ParseMoveAccepts(before + word + after, m);
  }

  /**
   * The move prompt: reads lines until one parses, refusing the others. Yields
   * the move and the number of lines read, or None when the lines run out first.
   */
  method GetUserChoice(lines: seq<string>) returns (choice: Option<Move>, used: nat)
    ensures used <= |lines|
    ensures choice.Some? ==> 0 < used && ParseMove(lines[used - 1]) == choice
    ensures choice.None? ==> used == |lines|
    ensures forall k :: 0 <= k < used && (choice.None? || k < used - 1) ==> ParseMove(lines[k]) == None
  {
    used := 0;
    while used < |lines|
      invariant used <= |lines|
      invariant forall k :: 0 <= k < used ==> ParseMove(lines[k]) == None
    {
      var parsed := ParseMove(lines[used]);
      used := used + 1;
      if parsed.Some? {
        return parsed, used;
      }
    }
    choice := None;
  }

  /**
   * The two confirmations of a reset: the first answer, lower-cased and stripped,
   * is "yes" or "y"; the second, stripped but not lower-cased, is "RESET".
   */
  function ResetConfirmed(first: string, second: string): bool {
    Strip(Lower(first)) in ["yes", "y"] && Strip(second) == "RESET"
  }

  /**
   * A reset goes ahead exactly when the first answer is "yes" or "y" in any case
   * and the second is the exact token "RESET", each with only white space around it.
   */
  lemma ResetConfirmedIff(first: string, second: string)
    ensures ResetConfirmed(first, second)
        <==> (PaddedBy(Lower(first), "yes") || PaddedBy(Lower(first), "y")) && PaddedBy(second, "RESET")
  {
    assert Trimmed("yes") && Trimmed("y") && Trimmed("RESET");
    var answer := Strip(Lower(first));
    assert answer in ["yes", "y"] <==> answer == "yes" || answer == "y";
    StripIsPadded(Lower(first), "yes");
    StripIsPadded(Lower(first), "y");
    StripIsPadded(second, "RESET");
  }

  /**
   * The token is case-sensitive: a confirmed second answer holds the capital 'R'
   * of "RESET", so it is never already in lower case.
   */
  lemma ResetTokenIsCaseSensitive(first: string, second: string)
    requires ResetConfirmed(first, second)
    ensures LeadingSpaces(second) < |second| && second[LeadingSpaces(second)] == 'R'
    ensures Lower(second) != second
  {
    var i := LeadingSpaces(second);
    var rest := second[i..];
    assert rest[..|rest| - TrailingSpaces(rest)] == "RESET";
    assert second[i] == rest[0] == 'R';
    assert Lower(second)[i] == 'r';
  }
}

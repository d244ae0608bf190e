/**
 * The moves of the game and the rule that decides a round
 * (`determine_winner` in rock_paper_scissors.py).
 */
module Rules {

  datatype Move = Rock | Paper | Scissors

  /** Who took a round: the strings "user", "computer" and "tie" of the source. */
  datatype Outcome = User | Computer | Tie

  /** The word the game uses for a move. */
  function Name(m: Move): string {
    match m
    case Rock => "rock"
    case Paper => "paper"
    case Scissors => "scissors"
  }

  /**
   * Position of a move on the cycle rock, paper, scissors; each move beats the
   * one just before it, cyclically. This is the reference the rule is checked against.
   */
  function Index(m: Move): int {
    match m
    case Rock => 0
    case Paper => 1
    case Scissors => 2
  }

  /** The move that `m` beats. */
  function Prey(m: Move): Move {
    match m
    case Rock => Scissors
    case Paper => Rock
    case Scissors => Paper
  }

  /** Resolves one round between the user's move and the computer's move. */
  function Winner(user: Move, computer: Move): (r: Outcome)
    ensures r == Tie <==> user == computer
    ensures r == User <==> (Index(user) - Index(computer)) % 3 == 1
    ensures r == Computer <==> (Index(computer) - Index(user)) % 3 == 1
  {
    if user == computer then Tie
    else if (user == Rock && computer == Scissors)
         || (user == Paper && computer == Rock)
         || (user == Scissors && computer == Paper) then User
    else Computer
  }

  /** The same outcome seen from the other side of the table. */
  function Swap(o: Outcome): Outcome {
    match o
    case User => Computer
    case Computer => User
    case Tie => Tie
  }

  /** The user wins for exactly the three pairs of the cyclic dominance. */
  lemma UserWinsExactly(user: Move, computer: Move)
    ensures Winner(user, computer) == User
        <==> (user, computer) in {(Rock, Scissors), (Paper, Rock), (Scissors, Paper)}
  {
  }

  /** Exchanging the two moves exchanges the winner; a tie stays a tie. */
  lemma WinnerAntisymmetric(a: Move, b: Move)
    ensures Winner(b, a) == Swap(Winner(a, b))
  {
  }

  /** Each move beats exactly one move and loses to exactly one move. */
  lemma EachMoveBeatsOneAndLosesToOne(m: Move, x: Move)
    ensures Winner(m, x) == User <==> x == Prey(m)
    ensures Winner(m, x) == Computer <==> m == Prey(x)
  {
  }

  /** How many times `o` occurs in `os`. */
  function Count(os: seq<Outcome>, o: Outcome): nat
    decreases |os|
  {
    if os == [] then 0
    else Count(os[..|os| - 1], o) + (if os[|os| - 1] == o then 1 else 0)
  }

  /** The outcomes of `os` that were won by a side, in order. */
  function Decisive(os: seq<Outcome>): seq<Outcome>
    decreases |os|
  {
    if os == [] then []
    else Decisive(os[..|os| - 1]) + (if os[|os| - 1] == Tie then [] else [os[|os| - 1]])
  }

  /** Every outcome is counted once as a user win, a computer win or a tie. */
  lemma {:induction false} CountsPartition(os: seq<Outcome>)
    ensures Count(os, User) + Count(os, Computer) + Count(os, Tie) == |os|
    decreases |os|
  {
    if os != [] {
      CountsPartition(os[..|os| - 1]);
    }
  }

  /** Dropping the ties keeps every win and nothing else. */
  lemma {:induction false} DecisiveKeepsWins(os: seq<Outcome>)
    ensures |Decisive(os)| == Count(os, User) + Count(os, Computer)
    ensures Count(Decisive(os), User) == Count(os, User)
    ensures Count(Decisive(os), Computer) == Count(os, Computer)
    ensures Count(Decisive(os), Tie) == 0
    decreases |os|
  {
    if os != [] {
      var init := os[..|os| - 1];
      DecisiveKeepsWins(init);
      var tail := if os[|os| - 1] == Tie then [] else [os[|os| - 1]];
      CountAppend(Decisive(init), tail, User);
      CountAppend(Decisive(init), tail, Computer);
      CountAppend(Decisive(init), tail, Tie);
    }
  }

  lemma {:induction false} CountAppend(xs: seq<Outcome>, ys: seq<Outcome>, o: Outcome)
    ensures Count(xs + ys, o) == Count(xs, o) + Count(ys, o)
    decreases |ys|
  {
    if ys != [] {
      var init := ys[..|ys| - 1];
      assert (xs + ys)[..|xs + ys| - 1] == xs + init;
      CountAppend(xs, init, o);
    } else {
      assert xs + ys == xs;
    }
  }
}

/**
 * The best-of-three match of `play_best_of_three`, as a state machine over
 * (user wins, computer wins, round history): the specification the game's
 * loop is proved against, and what it implies.
 */
module Match {
  import opened Rules
  import opened Statistics

  /** One entry of `rounds_history`: both moves and who took the round. */
  datatype RoundRecord = RoundRecord(user: Move, computer: Move, result: Outcome)

  /** The two moves of one round, the user's first. */
  type Round = (Move, Move)

  /** The state of the match loop. */
  datatype MatchState = MatchState(userWins: nat, computerWins: nat, history: seq<RoundRecord>) {
    /** The loop guard `user_wins < 2 and computer_wins < 2` no longer holds. */
    predicate Over() {
      !(userWins < 2 && computerWins < 2)
    }
  }

  /** A match before its first round. */
  const Start: MatchState := MatchState(0, 0, [])

  /** The record of a round played with these moves. */
  function Record(round: Round): RoundRecord {
    RoundRecord(round.0, round.1, Winner(round.0, round.1))
  }

  /** The outcomes of a history, in order. */
  function Results(h: seq<RoundRecord>): seq<Outcome> {
    seq(|h|, k requires 0 <= k < |h| => h[k].result)
  }

  /** One pass of the loop body: resolve, append to the history, credit the winner (a tie credits nobody). */
  function PlayRound(st: MatchState, round: Round): MatchState {
    var rec := Record(round);
    MatchState(
      if rec.result == User then st.userWins + 1 else st.userWins,
      if rec.result == Computer then st.computerWins + 1 else st.computerWins,
      st.history + [rec])
  }

  /** The loop: play the given rounds in order while neither side has two wins. */
  function PlayRounds(st: MatchState, rounds: seq<Round>): MatchState
    decreases |rounds|
  {
    if st.Over() || rounds == [] then st else PlayRounds(PlayRound(st, rounds[0]), rounds[1..])
  }

  /**
   * A whole match fed with these rounds. There is no cap on the number of rounds:
   * if the rounds run out before a side has two wins, the match is left unfinished.
   */
  function PlayMatch(rounds: seq<Round>): MatchState {
    PlayRounds(Start, rounds)
  }

  /** Neither side has two wins in `h`: the loop goes on after it. */
  ghost predicate Ongoing(h: seq<RoundRecord>) {
    Count(Results(h), User) < 2 && Count(Results(h), Computer) < 2
  }

  /** What the loop keeps true: the win counts count the history, and no round followed a second win. */
  ghost predicate Tracks(st: MatchState) {
    && st.userWins == Count(Results(st.history), User)
    && st.computerWins == Count(Results(st.history), Computer)
    && forall k :: 0 <= k < |st.history| ==> Ongoing(st.history[..k])
  }

  lemma ResultsAppend(h: seq<RoundRecord>, rec: RoundRecord)
    ensures Results(h + [rec]) == Results(h) + [rec.result]
    ensures Results(h + [rec])[..|h|] == Results(h)
  {
  }

  lemma CountAfterRound(h: seq<RoundRecord>, rec: RoundRecord, o: Outcome)
    ensures Count(Results(h + [rec]), o) == Count(Results(h), o) + (if rec.result == o then 1 else 0)
  {
    ResultsAppend(h, rec);
  }

  lemma PlayRoundTracks(st: MatchState, round: Round)
    requires Tracks(st) && !st.Over()
    ensures Tracks(PlayRound(st, round))
  {
    var next := PlayRound(st, round);
    var h := st.history;
    var rec := Record(round);
    CountAfterRound(h, rec, User);
    CountAfterRound(h, rec, Computer);
    forall k | 0 <= k < |next.history| ensures Ongoing(next.history[..k]) {
      assert next.history[..k] == h[..k];
      if k == |h| {
        assert h[..k] == h;
      }
    }
  }

  lemma {:induction false} PlayRoundsFacts(st: MatchState, rounds: seq<Round>)
    requires Tracks(st)
    ensures var r := PlayRounds(st, rounds);
      && Tracks(r)
      && |st.history| <= |r.history| <= |st.history| + |rounds|
      && r.history[..|st.history|] == st.history
      && (forall k :: |st.history| <= k < |r.history| ==> r.history[k] == Record(rounds[k - |st.history|]))
      && (!r.Over() ==> |r.history| == |st.history| + |rounds|)
    decreases |rounds|
  {
    if !st.Over() && rounds != [] {
      var next := PlayRound(st, rounds[0]);
      PlayRoundTracks(st, rounds[0]);
      PlayRoundsFacts(next, rounds[1..]);
      var r := PlayRounds(st, rounds);
      var n := |st.history|;
      assert r.history[..n] == r.history[..n + 1][..n] == next.history[..n] == st.history;
      forall k | n <= k < |r.history| ensures r.history[k] == Record(rounds[k - n]) {
        if k == n {
          assert r.history[k] == r.history[..n + 1][k] == next.history[k];
        } else {
          assert r.history[k] == Record(rounds[1..][k - (n + 1)]);
        }
      }
    }
  }

  /**
   * The history lists the rounds played, in order, each with the outcome the rule
   * gives its moves; rounds are consumed only while the match is on.
   */
  lemma MatchFollowsRounds(rounds: seq<Round>)
    ensures var m := PlayMatch(rounds);
      && |m.history| <= |rounds|
      && (forall k :: 0 <= k < |m.history| ==>
            m.history[k] == RoundRecord(rounds[k].0, rounds[k].1, Winner(rounds[k].0, rounds[k].1)))
      && (!m.Over() ==> |m.history| == |rounds|)
  {
    PlayRoundsFacts(Start, rounds);
  }

  /** Each side's win count is the number of rounds it took; ties count for nobody. */
  lemma MatchWinsCountRounds(rounds: seq<Round>)
    ensures var m := PlayMatch(rounds);
      && m.userWins == Count(Results(m.history), User)
      && m.computerWins == Count(Results(m.history), Computer)
      && m.userWins + m.computerWins + Count(Results(m.history), Tie) == |m.history|
  {
    PlayRoundsFacts(Start, rounds);
    CountsPartition(Results(PlayMatch(rounds).history));
  }

  /**
   * The match ends as soon as a side has two wins and not before: no round is played
   * after that, exactly one side has two wins, the other has at most one, two or
   * three rounds were decisive, and the last round was won by the match winner.
   */
  lemma MatchEndsAtTwoWins(rounds: seq<Round>)
    ensures var m := PlayMatch(rounds);
      && (forall k :: 0 <= k < |m.history| ==> Ongoing(m.history[..k]))
      && (m.Over() ==>
            && ((m.userWins == 2 && m.computerWins < 2) || (m.computerWins == 2 && m.userWins < 2))
            && 2 <= m.userWins + m.computerWins <= 3
            && |m.history| > 0
            && m.history[|m.history| - 1].result == (if m.userWins == 2 then User else Computer))
  {
    PlayRoundsFacts(Start, rounds);
    var m := PlayMatch(rounds);
    var h := m.history;
    if m.Over() {
      assert h != [];
      var n := |h| - 1;
      assert Ongoing(h[..n]);
      assert h == h[..n] + [h[n]];
      CountAfterRound(h[..n], h[n], User);
      CountAfterRound(h[..n], h[n], Computer);
    }
  }

  lemma {:induction false} PlayRoundsThen(st: MatchState, a: seq<Round>, b: seq<Round>)
    ensures PlayRounds(st, a + b) == PlayRounds(PlayRounds(st, a), b)
    decreases |a|
  {
    if a == [] {
      assert a + b == b;
    } else if !st.Over() {
      assert (a + b)[0] == a[0];
      assert (a + b)[1..] == a[1..] + b;
      PlayRoundsThen(PlayRound(st, a[0]), a[1..], b);
    }
  }

  /** Once a match is decided, whatever rounds come after are never played. */
  lemma MatchIgnoresLaterRounds(rounds: seq<Round>, later: seq<Round>)
    requires PlayMatch(rounds).Over()
    ensures PlayMatch(rounds + later) == PlayMatch(rounds)
  {
    PlayRoundsThen(Start, rounds, later);
  }

  /**
   * In a finished match the decisive rounds are two or three, and a third is
   * played exactly when the first two decisive rounds went to different sides.
   */
  lemma ThirdDecisiveRoundIffSplit(rounds: seq<Round>)
    requires PlayMatch(rounds).Over()
    ensures var m := PlayMatch(rounds);
      var d := Decisive(Results(m.history));
      && |d| == m.userWins + m.computerWins
      && (|d| == 3 <==> d[0] != d[1])
  {
    var m := PlayMatch(rounds);
    var h := m.history;
    MatchEndsAtTwoWins(rounds);
    MatchWinsCountRounds(rounds);
    var n := |h| - 1;
    var before := Results(h[..n]);
    assert Ongoing(h[..n]);
    assert h == h[..n] + [h[n]];
    ResultsAppend(h[..n], h[n]);
    var os := Results(h);
    assert os[..|os| - 1] == before;
    DecisiveKeepsWins(os);
    DecisiveKeepsWins(before);
    var d := Decisive(os);
    var p := Decisive(before);
    assert d == p + [h[n].result];
    assert |p| <= 2;
    if |p| == 2 {
      assert p[..1][..0] == [];
      assert Count(p, User) == 1 && Count(p, Computer) == 1;
      assert Count(p[..1], p[0]) == 1;
      assert p[0] != p[1];
    } else {
      assert |p| == 1;
      assert d == [p[0], h[n].result];
      assert Count(d[..1], d[0]) == 1;
      assert d[..1][..0] == [];
    }
  }

  /** `n` tied rounds of rock against rock. */
  function Ties(n: nat): seq<Round> {
    seq(n, _ => (Rock, Rock))
  }

  lemma {:induction false} TiesChangeNoScore(h: seq<RoundRecord>, n: nat, rest: seq<Round>)
    ensures PlayRounds(MatchState(0, 0, h), Ties(n) + rest)
         == PlayRounds(MatchState(0, 0, h + seq(n, _ => RoundRecord(Rock, Rock, Tie))), rest)
    decreases n
  {
    if n == 0 {
      assert Ties(n) + rest == rest;
      assert h + seq(n, _ => RoundRecord(Rock, Rock, Tie)) == h;
    } else {
      assert (Ties(n) + rest)[0] == (Rock, Rock);
      assert (Ties(n) + rest)[1..] == Ties(n - 1) + rest;
      var h' := h + [RoundRecord(Rock, Rock, Tie)];
      TiesChangeNoScore(h', n - 1, rest);
      assert h' + seq(n - 1, _ => RoundRecord(Rock, Rock, Tie)) == h + seq(n, _ => RoundRecord(Rock, Rock, Tie));
    }
  }

  /**
   * Ties do not end a match and nothing caps their number: for every n there is a
   * match of n ties and two user wins, n + 2 rounds long.
   */
  lemma TiesDoNotEndMatch(n: nat)
    ensures var m := PlayMatch(Ties(n) + [(Rock, Scissors), (Rock, Scissors)]);
      && m.Over() && m.userWins == 2 && m.computerWins == 0
      && |m.history| == n + 2
      && Count(Results(m.history), Tie) == n
  {
    var win := [(Rock, Scissors), (Rock, Scissors)];
    TiesChangeNoScore([], n, win);
    MatchWinsCountRounds(Ties(n) + win);
  }

  /** Two user wins in a row end the match after two rounds. */
  lemma TwoStraightWins()
    ensures PlayMatch([(Rock, Scissors), (Rock, Scissors)])
         == MatchState(2, 0, [RoundRecord(Rock, Scissors, User), RoundRecord(Rock, Scissors, User)])
  {
  }

  /**
   * One win each after two rounds: the match is not over and a third round decides it.
   * The computer's round is paper against scissors, since scissors against paper is a
   * user win under `Winner`.
   */
  lemma SplitGoesToThirdRound()
    ensures !PlayMatch([(Rock, Scissors), (Paper, Scissors)]).Over()
    ensures PlayMatch([(Rock, Scissors), (Paper, Scissors), (Scissors, Paper)]).userWins == 2
    ensures PlayMatch([(Rock, Scissors), (Paper, Scissors), (Scissors, Paper)]).computerWins == 1
  {
  }

  /**
   * The statistics after a finished match: every round went to its own counter,
   * and exactly one match was added, as won exactly when the user took two rounds.
   * Both sums of the record still hold and no counter went down.
   */
  lemma MatchBookkeeping(s: Stats, rounds: seq<Round>)
    requires Consistent(s)
    requires PlayMatch(rounds).Over()
    ensures var m := PlayMatch(rounds);
      var t := RecordMatch(RecordRounds(s, Results(m.history)), m.userWins == 2);
      && Consistent(t) && NoneDecreased(s, t)
      && t.totalMatches == s.totalMatches + 1
      && t.matchesWon == s.matchesWon + (if m.userWins == 2 then 1 else 0)
      && t.matchesLost == s.matchesLost + (if m.computerWins == 2 then 1 else 0)
      && t.roundsWon == s.roundsWon + m.userWins
      && t.roundsLost == s.roundsLost + m.computerWins
      && t.totalRounds == s.totalRounds + |m.history|
  {
    var m := PlayMatch(rounds);
    MatchWinsCountRounds(rounds);
    MatchEndsAtTwoWins(rounds);
    RecordRoundsCounts(s, Results(m.history));
  }
}

/**
 * The all-time statistics record: the seven integer counters that
 * `_get_default_stats` creates and the game bumps after every round and match.
 */
module Statistics {
  import opened Rules

  /** The counters, field for field as the statistics file keys them. Unbounded, like Python's int. */
  datatype Stats = Stats(
    matchesWon: int,
    matchesLost: int,
    totalMatches: int,
    roundsWon: int,
    roundsLost: int,
    roundsTied: int,
    totalRounds: int)

  /** The invariant every update keeps: no counter is negative and both totals are the sums of their parts. */
  predicate Consistent(s: Stats) {
    && s.matchesWon >= 0 && s.matchesLost >= 0 && s.roundsWon >= 0 && s.roundsLost >= 0 && s.roundsTied >= 0
    && s.totalMatches == s.matchesWon + s.matchesLost
    && s.totalRounds == s.roundsWon + s.roundsLost + s.roundsTied
  }

  /** No counter of `s` is larger than the same counter of `t`: nothing was decremented. */
  predicate NoneDecreased(s: Stats, t: Stats) {
    && s.matchesWon <= t.matchesWon && s.matchesLost <= t.matchesLost && s.totalMatches <= t.totalMatches
    && s.roundsWon <= t.roundsWon && s.roundsLost <= t.roundsLost && s.roundsTied <= t.roundsTied
    && s.totalRounds <= t.totalRounds
  }

  /** The match counters of `s` and `t` agree. */
  predicate SameMatches(s: Stats, t: Stats) {
    s.matchesWon == t.matchesWon && s.matchesLost == t.matchesLost && s.totalMatches == t.totalMatches
  }

  /** The round counters of `s` and `t` agree. */
  predicate SameRounds(s: Stats, t: Stats) {
    s.roundsWon == t.roundsWon && s.roundsLost == t.roundsLost && s.roundsTied == t.roundsTied
    && s.totalRounds == t.totalRounds
  }

  /** `_get_default_stats`: the record of a player who has played nothing. */
  function DefaultStats(): (r: Stats)
    ensures r.totalMatches == 0 && r.totalRounds == 0
  {
    Stats(0, 0, 0, 0, 0, 0, 0)
  }

  /** The default record satisfies both sums, whatever record the game held before. */
  lemma DefaultIsConsistent()
    ensures Consistent(DefaultStats())
  {
  }

  /**
   * The default record is consistent and is the least consistent record: no
   * counter of any consistent record is below it, so every counter in it is zero.
   */
  lemma DefaultIsLeast(s: Stats)
    requires Consistent(s)
    ensures Consistent(DefaultStats())
    ensures NoneDecreased(DefaultStats(), s)
  {
  }

  /**
   * The bookkeeping of one round: one more round in all, and one more in exactly
   * the counter the outcome names (won, lost or tied).
   */
  function RecordRound(s: Stats, o: Outcome): (r: Stats)
    ensures Consistent(s) ==> Consistent(r)
    ensures NoneDecreased(s, r) && SameMatches(s, r)
    ensures r.totalRounds == s.totalRounds + 1
    ensures r.roundsWon != s.roundsWon <==> o == User
    ensures r.roundsLost != s.roundsLost <==> o == Computer
    ensures r.roundsTied != s.roundsTied <==> o == Tie
    ensures r.roundsWon == s.roundsWon + (if o == User then 1 else 0)
    ensures r.roundsLost == s.roundsLost + (if o == Computer then 1 else 0)
    ensures r.roundsTied == s.roundsTied + (if o == Tie then 1 else 0)
  {
    var s' := s.(totalRounds := s.totalRounds + 1);
    match o
    case User => s'.(roundsWon := s'.roundsWon + 1)
    case Computer => s'.(roundsLost := s'.roundsLost + 1)
    case Tie => s'.(roundsTied := s'.roundsTied + 1)
  }

  /** The bookkeeping of a sequence of rounds, in order. */
  function RecordRounds(s: Stats, os: seq<Outcome>): Stats
    decreases |os|
  {
    if os == [] then s else RecordRound(RecordRounds(s, os[..|os| - 1]), os[|os| - 1])
  }

  /** Recording rounds adds each outcome to its own counter and leaves the match counters alone. */
  lemma {:induction false} RecordRoundsCounts(s: Stats, os: seq<Outcome>)
    ensures var r := RecordRounds(s, os);
      && r.totalRounds == s.totalRounds + |os|
      && r.roundsWon == s.roundsWon + Count(os, User)
      && r.roundsLost == s.roundsLost + Count(os, Computer)
      && r.roundsTied == s.roundsTied + Count(os, Tie)
      && SameMatches(s, r) && NoneDecreased(s, r)
      && (Consistent(s) ==> Consistent(r))
    decreases |os|
  {
    if os != [] {
      RecordRoundsCounts(s, os[..|os| - 1]);
    }
  }

  /**
   * The bookkeeping at the end of a match: one more match in all, and one more
   * won exactly when the user took it, otherwise one more lost.
   */
  function RecordMatch(s: Stats, userWon: bool): (r: Stats)
    ensures Consistent(s) ==> Consistent(r)
    ensures NoneDecreased(s, r) && SameRounds(s, r)
    ensures r.totalMatches == s.totalMatches + 1
    ensures r.matchesWon != s.matchesWon <==> userWon
    ensures r.matchesLost != s.matchesLost <==> !userWon
    ensures r.matchesWon == s.matchesWon + (if userWon then 1 else 0)
    ensures r.matchesLost == s.matchesLost + (if userWon then 0 else 1)
  {
    var s' := s.(totalMatches := s.totalMatches + 1);
    if userWon then s'.(matchesWon := s'.matchesWon + 1) else s'.(matchesLost := s'.matchesLost + 1)
  }
}

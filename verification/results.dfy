/**
  The result screen's reading of a finished match: who won and by what
  margin, or a tie, plus the match totals.
 */
module Results {
  import opened Wrappers
  import opened GameTypes
  import Derived
  import Reducer

  datatype MatchResult = MatchResult(
    winningTeam: Option<string>,
    margin: int,
    winByRuns: bool,
    winByWickets: bool,
    isDraw: bool,
    team1RunRate: real,
    team2RunRate: real,
    totalRuns: nat,
    totalWickets: nat,
    totalBoundaries: nat)

  /**
    The first team wins by runs when it scored more; the second team wins by
    the wickets it had left when it scored more; equal scores are a tie.
   */
  function ComputeResult(s: GameState): (m: MatchResult)
    ensures (if m.winByRuns then 1 else 0) + (if m.winByWickets then 1 else 0) + (if m.isDraw then 1 else 0) == 1
    ensures m.winByRuns <==> s.team1.runs > s.team2.runs
    ensures m.winByWickets <==> s.team2.runs > s.team1.runs
    ensures m.isDraw <==> s.team1.runs == s.team2.runs
    ensures m.winByRuns ==> m.winningTeam == Some(s.team1.name) && m.margin == s.team1.runs - s.team2.runs > 0
    ensures m.winByWickets ==> m.winningTeam == Some(s.team2.name) && m.margin == s.settings.maxWickets - s.team2.wickets
    ensures m.isDraw ==> m.winningTeam == None && m.margin == 0
    ensures s.team1.balls == 0 ==> m.team1RunRate == 0.0
    ensures s.team1.balls > 0 ==> m.team1RunRate * s.team1.balls as real == 6.0 * s.team1.runs as real
    ensures s.team2.balls == 0 ==> m.team2RunRate == 0.0
    ensures s.team2.balls > 0 ==> m.team2RunRate * s.team2.balls as real == 6.0 * s.team2.runs as real
    ensures m.totalRuns == s.team1.runs + s.team2.runs
    ensures m.totalWickets == s.team1.wickets + s.team2.wickets
    ensures m.totalBoundaries * 4 <= m.totalRuns < m.totalBoundaries * 4 + 4
  {
    var totalRuns := s.team1.runs + s.team2.runs;
    var rates := (Derived.RunRate(s.team1.runs, s.team1.balls), Derived.RunRate(s.team2.runs, s.team2.balls));
    var totals := (totalRuns, s.team1.wickets + s.team2.wickets, totalRuns / 4);
    if s.team1.runs > s.team2.runs then
      MatchResult(Some(s.team1.name), s.team1.runs - s.team2.runs, true, false, false,
                  rates.0, rates.1, totals.0, totals.1, totals.2)
    else if s.team2.runs > s.team1.runs then
      MatchResult(Some(s.team2.name), s.settings.maxWickets - s.team2.wickets, false, true, false,
                  rates.0, rates.1, totals.0, totals.1, totals.2)
    else
      MatchResult(None, 0, false, false, true, rates.0, rates.1, totals.0, totals.1, totals.2)
  }

  /**
    In any state reached by allowed actions, a second-team win leaves at least
    one wicket in hand: the chase ends the moment the target is passed, and
    the ball that takes the last wicket scores no runs.
    A first-team win at game over means the chase ran out of wickets or balls.
   */
  lemma ChaseWinLeavesWicketsInHand(s: GameState)
    requires Reducer.Reachable(s)
    ensures ComputeResult(s).winByWickets ==> ComputeResult(s).margin >= 1
    ensures s.isGameOver && ComputeResult(s).winByRuns ==> Reducer.InningsOver(s.settings, s.team2)
    ensures s.isGameOver && ComputeResult(s).winByWickets ==> s.target.Some? && s.team2.runs > s.target.value
  {
    Reducer.ReachableStatesAreConsistent(s);
  }
}

/**
  The match state machine: the reducer that the game screen drives with one
  action per event, and `PlayBall`, which resolves a ball and feeds the result
  to the reducer.

  The reducer validates nothing: it accepts any settings and keeps applying
  balls after the match is over. The game screen does not disable its action
  buttons at game over either; it only moves to the results page 2000 ms
  later, and a ball cannot be played in that window because it needs two
  animations of 1500 ms each. The invariant below therefore holds for states
  reached from a start with sensible settings by actions that play no ball
  after game over; `GameOverIsSticky` covers balls played after it.
 */
module Reducer {
  import opened Wrappers
  import opened GameTypes
  import Resolver
  import Derived

  /** Events the reducer accepts. */
  datatype GameAction =
    | StartGame(settings: Settings)
    | PlayBallAction(result: ActionResult)
    | EndInnings
    | EndGame
    | ResetGame

  /** A team that has not faced a ball. */
  function InitialTeam(name: string): (t: Team)
    ensures t.name == name
    ensures Fresh(t)
  {
    Team(name, 0, 0, 0, 0, 1)
  }

  predicate Fresh(t: Team)
  {
    t.runs == 0 && t.wickets == 0 && t.balls == 0 && t.overs == 0 && t.currentBatsman == 1
  }

  /** The settings before any match has been set up. */
  const InitialSettings: Settings := Settings("Team 1", "Team 2", 5, 10)

  /** The state of a new match with the given settings. */
  function Start(settings: Settings): (s: GameState)
    ensures s.settings == settings
    ensures s.currentInnings == 1 && !s.isGameOver && s.target == None
    ensures s.lastAction == "" && s.lastRuns == 0
    ensures Fresh(s.team1) && s.team1.name == settings.team1Name
    ensures Fresh(s.team2) && s.team2.name == settings.team2Name
  {
    GameState(settings, InitialTeam(settings.team1Name), InitialTeam(settings.team2Name), 1, false, "", 0, None)
  }

  /** The state before any match has been started. */
  const InitialState: GameState := Start(InitialSettings)

  /** Before any match starts: five overs, ten wickets, "Team 1" against "Team 2", nothing played. */
  lemma InitialStateDefaults()
    ensures InitialState.settings.maxOvers == 5 && InitialState.settings.maxWickets == 10
    ensures InitialState.team1.name == "Team 1" && InitialState.team2.name == "Team 2"
    ensures InitialState.currentInnings == 1 && !InitialState.isGameOver && InitialState.target == None
    ensures InitialState.lastAction == "" && InitialState.lastRuns == 0
    ensures Fresh(InitialState.team1) && Fresh(InitialState.team2)
  {
  }

  /** The team at the crease in the current innings. */
  function BattingTeam(s: GameState): Team
  {
    if Derived.IsBatting(s.currentInnings, 1) then s.team1 else s.team2
  }

  /** The end-of-innings test: all wickets down or all overs bowled. */
  predicate InningsOver(settings: Settings, t: Team)
  {
    t.wickets >= settings.maxWickets || t.balls >= settings.maxOvers * 6
  }

  /** The batting team's tally after one ball. */
  function Score(t: Team, result: ActionResult): (t': Team)
    ensures t'.name == t.name
    ensures t'.balls == t.balls + 1
    ensures t'.runs == t.runs + result.runs
    ensures t'.wickets == t.wickets + (if result.isWicket then 1 else 0)
    ensures t'.currentBatsman == t.currentBatsman + (if result.isWicket then 1 else 0)
    ensures t'.overs * 6 <= t'.balls < t'.overs * 6 + 6
  {
    t.(runs := t.runs + result.runs,
       wickets := if result.isWicket then t.wickets + 1 else t.wickets,
       balls := t.balls + 1,
       overs := (t.balls + 1) / 6,
       currentBatsman := if result.isWicket then t.currentBatsman + 1 else t.currentBatsman)
  }

  /** Team number `t` of a state. */
  function TeamOf(s: GameState, t: TeamNumber): Team
  {
    if t == 1 then s.team1 else s.team2
  }

  /** A ball changes the tally of the team that is batting and of no other team. */
  lemma OnlyTheBattingTeamScores(s: GameState, result: ActionResult, t: TeamNumber)
    ensures Derived.IsBatting(s.currentInnings, t) ==> TeamOf(ApplyBall(s, result), t) == Score(TeamOf(s, t), result)
    ensures !Derived.IsBatting(s.currentInnings, t) ==> TeamOf(ApplyBall(s, result), t) == TeamOf(s, t)
  {
  }

  /** The PLAY_BALL branch of the reducer. */
  function ApplyBall(s: GameState, result: ActionResult): (s': GameState)
    // only the batting team changes; the settings and the other team stay
    ensures s'.settings == s.settings
    ensures s.currentInnings == 1 ==> s'.team1 == Score(s.team1, result) && s'.team2 == s.team2
    ensures s.currentInnings == 2 ==> s'.team2 == Score(s.team2, result) && s'.team1 == s.team1
    ensures s'.lastAction == result.commentary && s'.lastRuns == result.runs
    // the innings moves on exactly when the first innings ends, and never back
    ensures s'.currentInnings == 2 <==> s.currentInnings == 2 || InningsOver(s.settings, s'.team1)
    // the target is set only when the first innings ends, to the first team's runs
    ensures s'.target != s.target ==> s.currentInnings == 1 && s'.currentInnings == 2
    ensures s.currentInnings == 1 && s'.currentInnings == 2 ==> s'.target == Some(s'.team1.runs)
    // the match ends only in the second innings: all out, overs done, or target passed
    ensures s'.isGameOver <==>
      s.currentInnings == 2
      && (InningsOver(s.settings, s'.team2) || (s.target.Some? && s'.team2.runs > s.target.value))
  {
    var batting := BattingTeam(s);
    var updated := Score(batting, result);
    var inningsOver := InningsOver(s.settings, updated);
    var targetAchieved := s.currentInnings == 2 && s.target.Some? && updated.runs > s.target.value;
    var target := if s.currentInnings == 1 && inningsOver then Some(updated.runs) else s.target;
    s.(team1 := if s.currentInnings == 1 then updated else s.team1,
       team2 := if s.currentInnings == 1 then s.team2 else updated,
       lastAction := result.commentary,
       lastRuns := result.runs,
       target := target,
       currentInnings := if inningsOver && s.currentInnings == 1 then 2 else s.currentInnings,
       isGameOver := (inningsOver && s.currentInnings == 2) || targetAchieved)
  }

  /** The reducer: one step of the match for one action. */
  function Reduce(s: GameState, a: GameAction): (s': GameState)
    ensures a.StartGame? ==> s' == Start(a.settings)
    ensures a.ResetGame? ==> s' == InitialState
    ensures a.ResetGame? ==>
      && s'.settings == Settings("Team 1", "Team 2", 5, 10)
      && s'.currentInnings == 1 && !s'.isGameOver && s'.target == None
      && Fresh(s'.team1) && Fresh(s'.team2)
    ensures (a.EndInnings? || a.EndGame?) ==> s' == s
    ensures a.PlayBallAction? ==> s'.settings == s.settings && s'.lastAction == a.result.commentary
  {
    match a
    case StartGame(settings) => Start(settings)
    case PlayBallAction(result) => ApplyBall(s, result)
    case ResetGame => InitialState
    case _ => s
  }

  /** Resolve one ball from the two players' choices and apply it. */
  function PlayBall(s: GameState, bat: BattingStyle, bowl: BowlingStyle, u: real, r: real): (s': GameState)
    requires 0.0 <= u < 1.0 && 0.0 <= r < 1.0
    ensures s'.team1.balls + s'.team2.balls == s.team1.balls + s.team2.balls + 1
    ensures s'.lastRuns in {0, 1, 2, 3, 4, 6}
    ensures (if s.currentInnings == 1 then s'.team1 else s'.team2).runs == BattingTeam(s).runs + s'.lastRuns
    ensures Invariant(s) && !s.isGameOver ==> Invariant(s')
  {
    var result := Resolver.Resolve(bat, bowl, u, r);
    if Invariant(s) && !s.isGameOver then
      StepPreservesInvariant(s, PlayBallAction(result));
      Reduce(s, PlayBallAction(result))
    else
      Reduce(s, PlayBallAction(result))
  }

  /** Settings the setup screen can produce: at least one over and one wicket. */
  predicate WellFormed(settings: Settings)
  {
    settings.maxOvers >= 1 && settings.maxWickets >= 1
  }

  /** A result the resolver can return: its runs and wicket flag name a category. */
  predicate ValidResult(result: ActionResult)
  {
    Resolver.Classify(result).Some?
  }

  /** Actions the game screen issues: sensible settings, and no ball after the match ends. */
  predicate Allowed(s: GameState, a: GameAction)
  {
    match a
    case StartGame(settings) => WellFormed(settings)
    case PlayBallAction(result) => !s.isGameOver && ValidResult(result)
    case _ => true
  }

  /** A tally that agrees with itself and stays within the innings' limits. */
  predicate Tallied(t: Team, settings: Settings)
  {
    && t.currentBatsman == t.wickets + 1
    && t.overs == t.balls / 6
    && t.wickets <= settings.maxWickets
    && t.balls <= settings.maxOvers * 6
  }

  /** What holds of every state reached by allowed actions. */
  predicate Invariant(s: GameState)
  {
    && WellFormed(s.settings)
    && Tallied(s.team1, s.settings)
    && Tallied(s.team2, s.settings)
    && (s.currentInnings == 1 ==>
          && s.target == None
          && !s.isGameOver
          && !InningsOver(s.settings, s.team1)
          && Fresh(s.team2))
    && (s.currentInnings == 2 ==>
          && s.target == Some(s.team1.runs)
          && InningsOver(s.settings, s.team1)
          && (s.isGameOver <==> InningsOver(s.settings, s.team2) || s.team2.runs > s.team1.runs)
          && (s.team2.wickets >= s.settings.maxWickets ==> s.team2.runs <= s.team1.runs))
  }

  lemma StartSatisfiesInvariant(settings: Settings)
    requires WellFormed(settings)
    ensures Invariant(Start(settings))
    ensures Invariant(InitialState)
  {
  }

  /** A ball of the first innings keeps the invariant. */
  lemma FirstInningsBallPreservesInvariant(s: GameState, result: ActionResult)
    requires Invariant(s) && s.currentInnings == 1 && ValidResult(result)
    ensures Invariant(ApplyBall(s, result))
  {
    var s' := ApplyBall(s, result);
    assert result.isWicket ==> result.runs == 0;
    assert s'.team2 == s.team2;
  }

  /** A ball of the chase, before the match is over, keeps the invariant. */
  lemma ChaseBallPreservesInvariant(s: GameState, result: ActionResult)
    requires Invariant(s) && s.currentInnings == 2 && !s.isGameOver && ValidResult(result)
    ensures Invariant(ApplyBall(s, result))
  {
    var s' := ApplyBall(s, result);
    assert result.isWicket ==> result.runs == 0;
    assert s'.team1 == s.team1;
    assert s'.target == s.target;
  }

  /** Every allowed action keeps the invariant. */
  lemma StepPreservesInvariant(s: GameState, a: GameAction)
    requires Invariant(s) && Allowed(s, a)
    ensures Invariant(Reduce(s, a))
  {
    match a
    case StartGame(settings) =>
      assert Reduce(s, a) == Start(settings);
      StartSatisfiesInvariant(settings);
    case ResetGame =>
      assert Reduce(s, a) == InitialState;
      StartSatisfiesInvariant(InitialSettings);
    case PlayBallAction(result) =>
      assert Reduce(s, a) == ApplyBall(s, result);
      if s.currentInnings == 1 {
        FirstInningsBallPreservesInvariant(s, result);
      } else {
        ChaseBallPreservesInvariant(s, result);
      }
    case _ =>
      assert Reduce(s, a) == s;
  }

  /** The state after dispatching a sequence of actions in turn. */
  function Run(s: GameState, actions: seq<GameAction>): GameState
    decreases |actions|
  {
    if |actions| == 0 then s else Run(Reduce(s, actions[0]), actions[1..])
  }

  /** Every action of the sequence is allowed in the state it is dispatched in. */
  predicate AllAllowed(s: GameState, actions: seq<GameAction>)
    decreases |actions|
  {
    |actions| == 0 || (Allowed(s, actions[0]) && AllAllowed(Reduce(s, actions[0]), actions[1..]))
  }

  /** Every state reached by allowed actions satisfies the invariant. */
  lemma {:induction false} RunPreservesInvariant(s: GameState, actions: seq<GameAction>)
    requires Invariant(s) && AllAllowed(s, actions)
    ensures Invariant(Run(s, actions))
    decreases |actions|
  {
    if |actions| > 0 {
      StepPreservesInvariant(s, actions[0]);
      RunPreservesInvariant(Reduce(s, actions[0]), actions[1..]);
    }
  }

  /** States reached from a start with sensible settings by allowed actions. */
  ghost predicate Reachable(s: GameState)
  {
    exists settings, actions :: WellFormed(settings) && AllAllowed(Start(settings), actions) && s == Run(Start(settings), actions)
  }

  /**
    In a reachable state each team's current batsman is one more than its
    wickets, and the second innings always has the first team's runs as target.
   */
  lemma ReachableStatesAreConsistent(s: GameState)
    requires Reachable(s)
    ensures Invariant(s)
    ensures s.team1.currentBatsman == s.team1.wickets + 1 && s.team2.currentBatsman == s.team2.wickets + 1
    ensures s.currentInnings == 2 ==> s.target == Some(s.team1.runs)
  {
    var settings, actions :| WellFormed(settings) && AllAllowed(Start(settings), actions) && s == Run(Start(settings), actions);
    var s0 := Start(settings);
    assert Invariant(s0) by { StartSatisfiesInvariant(settings); }
    RunPreservesInvariant(s0, actions);
  }

  /** Scores drawing level with the target do not end the chase; passing it does. */
  lemma ChaseEndsOnlyByOvertaking(s: GameState, result: ActionResult)
    requires Invariant(s) && s.currentInnings == 2 && !s.isGameOver
    requires !InningsOver(s.settings, Score(s.team2, result))
    ensures ApplyBall(s, result).isGameOver <==> s.team2.runs + result.runs > s.team1.runs
  {
  }

  /** The state after a sequence of balls. */
  function PlayAll(s: GameState, results: seq<ActionResult>): GameState
    decreases |results|
  {
    if |results| == 0 then s else PlayAll(ApplyBall(s, results[0]), results[1..])
  }

  function SumRuns(results: seq<ActionResult>): nat
    decreases |results|
  {
    if |results| == 0 then 0 else results[0].runs + SumRuns(results[1..])
  }

  /** Each ball is counted exactly once, on one of the two teams. */
  lemma {:induction false} BallsCountPlays(s: GameState, results: seq<ActionResult>)
    ensures PlayAll(s, results).team1.balls + PlayAll(s, results).team2.balls
         == s.team1.balls + s.team2.balls + |results|
    decreases |results|
  {
    if |results| > 0 {
      BallsCountPlays(ApplyBall(s, results[0]), results[1..]);
    }
  }

  /**
    Balls without wickets in the first innings: the first team collects every
    run, and the innings passes to the second team exactly when the last over
    is complete, with the first team's total as the target.
   */
  lemma {:induction false} FirstInningsWithoutWickets(s: GameState, results: seq<ActionResult>)
    requires s.currentInnings == 1 && s.target == None
    requires s.team1.wickets < s.settings.maxWickets
    requires s.team1.balls < s.settings.maxOvers * 6
    requires s.team1.balls + |results| <= s.settings.maxOvers * 6
    requires forall i :: 0 <= i < |results| ==> !results[i].isWicket
    ensures PlayAll(s, results).team1.balls == s.team1.balls + |results|
    ensures PlayAll(s, results).team1.runs == s.team1.runs + SumRuns(results)
    ensures PlayAll(s, results).team2 == s.team2
    ensures PlayAll(s, results).currentInnings == 2 <==> s.team1.balls + |results| == s.settings.maxOvers * 6
    ensures PlayAll(s, results).currentInnings == 2 ==> PlayAll(s, results).target == Some(PlayAll(s, results).team1.runs)
    ensures PlayAll(s, results).currentInnings == 1 ==> PlayAll(s, results).target == None
    decreases |results|
  {
    if |results| > 0 {
      var s1 := ApplyBall(s, results[0]);
      if s.team1.balls + 1 == s.settings.maxOvers * 6 {
        assert |results| == 1;
        assert PlayAll(s1, results[1..]) == s1;
      } else {
        FirstInningsWithoutWickets(s1, results[1..]);
      }
    }
  }

  /** A one-over match passes to the second innings after six balls without a wicket. */
  lemma OneOverFirstInnings(settings: Settings, results: seq<ActionResult>)
    requires settings.maxOvers == 1 && settings.maxWickets == 10
    requires |results| == 6
    requires forall i :: 0 <= i < |results| ==> !results[i].isWicket
    ensures PlayAll(Start(settings), results).currentInnings == 2
    ensures PlayAll(Start(settings), results).target == Some(SumRuns(results))
  {
    FirstInningsWithoutWickets(Start(settings), results);
  }

  /**
    A finished match: the chase is over, all out or out of balls, or past the
    target. Unlike `Invariant`, this survives balls played after the end.
   */
  predicate Finished(s: GameState)
  {
    && s.currentInnings == 2
    && s.isGameOver
    && s.target.Some?
    && (InningsOver(s.settings, s.team2) || s.team2.runs > s.target.value)
  }

  /** Balls played after the match has ended leave it ended, with the same target and first innings. */
  lemma {:induction false} FinishedStaysFinished(s: GameState, results: seq<ActionResult>)
    requires Finished(s)
    ensures Finished(PlayAll(s, results))
    ensures PlayAll(s, results).target == s.target
    ensures PlayAll(s, results).team1 == s.team1
    decreases |results|
  {
    if |results| > 0 {
      var s1 := ApplyBall(s, results[0]);
      assert Finished(s1);
      FinishedStaysFinished(s1, results[1..]);
    }
  }

  /** Once a match reached by allowed actions is over, any number of further balls leave it over. */
  lemma GameOverIsSticky(s: GameState, results: seq<ActionResult>)
    requires Invariant(s) && s.isGameOver
    ensures PlayAll(s, results).isGameOver
    ensures PlayAll(s, results).currentInnings == 2
    ensures PlayAll(s, results).target == Some(s.team1.runs)
  {
    FinishedStaysFinished(s, results);
  }
}

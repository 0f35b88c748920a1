/**
  The records and enumerations shared by the match engine: the two players'
  style choices, a team's tally, the match settings, the match state and the
  outcome of one ball.
 */
module GameTypes {
  import opened Wrappers

  /** The batting player's choice for one ball. */
  datatype BattingStyle = Defensive | Balanced | Aggressive

  /** The bowling player's choice for one ball. */
  datatype BowlingStyle = Spin | Medium | Fast

  /** A team or innings number, `1 | 2`. */
  type TeamNumber = n: int | 1 <= n <= 2 witness 1

  /** One team's tally; `overs` is kept alongside `balls` as in the source. */
  datatype Team = Team(
    name: string,
    runs: nat,
    wickets: nat,
    balls: nat,
    overs: nat,
    currentBatsman: nat)

  /** Settings chosen on the setup screen; the engine never validates them. */
  datatype Settings = Settings(
    team1Name: string,
    team2Name: string,
    maxOvers: int,
    maxWickets: int)

  /** The whole match state held by the reducer. */
  datatype GameState = GameState(
    settings: Settings,
    team1: Team,
    team2: Team,
    currentInnings: TeamNumber,
    isGameOver: bool,
    lastAction: string,
    lastRuns: nat,
    target: Option<nat>)

  /** What one ball produced: runs, whether a wicket fell, and a commentary line. */
  datatype ActionResult = ActionResult(runs: nat, isWicket: bool, commentary: string)
}

# Cricket match engine — Dafny model

A model of the match engine of a two-player browser cricket game. Each ball,
the batting player picks a batting style (defensive, balanced, aggressive) and
the bowling player a bowling style (spin, medium, fast). The engine turns the
pair into a random outcome and applies it to the score until the match ends.

The model has four parts:

- **Outcome resolver** (`resolver.dfy`, module `Resolver`). It picks the base
  probability table of the batting style and adds the bowling style's
  adjustments. It normalises by the total and walks the cumulative sums
  against a draw `u`. It maps the chosen category to fixed runs and a wicket
  flag, and picks a commentary line with a second draw `r`. Probabilities are
  exact reals. The two draws stand in for `Math.random()`.
- **Derived values** (`derived.dfy`, module `Derived`). These are the overs
  text "o.k", the run rate, the required run rate, the balls remaining, and
  whether a team is batting.
- **Match state machine** (`reducer.dfy`, module `Reducer`). This is the
  reducer over the game state: START_GAME, PLAY_BALL, RESET_GAME and the
  pass-through actions. `PlayBall` is the resolver followed by the reducer.
  An inductive invariant covers every state reached from a start with
  sensible settings when no ball is played after game over.
- **Result screen computation** (`results.dfy`, module `Results`). It gives
  the winner and margin, or a tie, and the match totals.

`game_types.dfy` holds the shared records and enumerations. `wrappers.dfy`
holds `Option`, which stands for the source's `number | null`.
`clamped_resolver.dfy` holds the finding below.

Facts about the code that shape the model:

- The reducer validates nothing. It accepts any settings, and it keeps
  applying balls after the match is over. Sensible settings (at least one
  over and one wicket; the setup screen sends 1, 5, 10 or 20 overs and 10
  wickets) appear as the predicate `Reducer.WellFormed`. "No ball after game
  over" appears as `Reducer.Allowed`. Both are side conditions of the
  invariant lemmas. Balls played after game over are covered separately by
  `Reducer.GameOverIsSticky`.
- Normalised weights are not all non-negative. For defensive batting against
  spin, four is −0.01 and six is −0.02 before normalising
  (`Resolver.NegativeWeightsOnlyForDefensiveAgainstSpin`).
- The state records the last ball as `lastAction` (the commentary line) and
  `lastRuns`.

## Model

| member | source | states |
|---|---|---|
| `Resolver.BaseTable` | src/utils/gameLogic.ts:68-78 | each batting style's base table sums to exactly 1 and has no negative weight |
| `Resolver.Adjust` | src/utils/gameLogic.ts:81-100 | medium bowling leaves the base table unchanged; spin and fast never change dot, double or triple; fast also leaves single and six; the adjusted total lies in [1, 1.07], so it is positive for all nine pairs |
| `Resolver.NegativeWeightsOnlyForDefensiveAgainstSpin` | src/utils/gameLogic.ts:83-91 | the adjusted weights are all non-negative if and only if the pair is not defensive against spin; for that pair four is −0.01, six is −0.02 and the total is 1.01 |
| `Resolver.Normalise` | src/utils/gameLogic.ts:102-106 | the normalised weights sum to exactly 1, and each times the original total gives back the adjusted weight |
| `Resolver.Select` | src/utils/gameLogic.ts:109-134 | the walk stops at the first category whose cumulative sum exceeds u: every earlier cumulative sum is at most u, and the chosen one (unless it is the wicket fallback) is above u |
| `Resolver.SelectIsFirstExceeding` | src/utils/gameLogic.ts:109-134 | the walk returns category i of dot…six exactly when its cumulative sum is the first to exceed u; it returns wicket exactly when none of the six does |
| `Resolver.PoolSizes` | src/utils/gameLogic.ts:4-54 | every category's commentary pool holds five lines |
| `Resolver.PickIndex` | src/utils/gameLogic.ts:57-60 | for r in [0, 1), floor(r·n) is an index in [0, n) that brackets r·n |
| `Resolver.Commentary` | src/utils/gameLogic.ts:57-60 | the chosen line belongs to the category's pool |
| `Resolver.ResultFor` | src/utils/gameLogic.ts:113-133 | each category maps to fixed runs in {0,1,2,3,4,6}; the wicket flag is set exactly for Wicket; a wicket scores no runs |
| `Resolver.Classify` | src/utils/gameLogic.ts:113-133 | a result names a category exactly when it has no-wicket runs in {0,1,2,3,4,6} or is a wicket with 0 runs; the category agrees with the runs and the flag |
| `Resolver.ClassifyInvertsResultFor` | src/utils/gameLogic.ts:113-133 | classifying the result of a category gives back that category |
| `Resolver.ResultForInvertsClassify` | src/utils/gameLogic.ts:113-133 | a classifiable result is exactly the result of its category with its commentary |
| `Resolver.Resolve` | src/utils/gameLogic.ts:63-135 | for every u in [0, 1) the resolver returns a valid outcome; its category is the first whose cumulative normalised sum exceeds u (wicket as fallback); its line comes from that category's pool |
| `Resolver.DefensiveAgainstSpinStopsByTriple` | src/utils/gameLogic.ts:83-87 | for defensive against spin, no draw in [0, 1) gives four, six or wicket, although the wicket weight is positive |
| `Derived.Decimal` | src/utils/gameLogic.ts:138-142 | the decimal text of a count is non-empty, all digits, and has no leading zero |
| `Derived.DecimalRoundTrip` | src/utils/gameLogic.ts:138-142 | reading the decimal text back gives the number |
| `Derived.FormatOvers` | src/utils/gameLogic.ts:138-142 | the text is digits, a dot, and one digit; the digits before the dot read back as the whole overs balls / 6, and the last digit is balls mod 6 |
| `Derived.FormatOversRoundTrip` | src/utils/gameLogic.ts:138-142 | the overs text reads back as o·6 + k with k < 6 equal to the ball count; its last character is the digit of balls mod 6 |
| `Derived.FormatOversExample` | src/utils/gameLogic.ts:138-142 | 13 balls read "2.1" |
| `Derived.RunRate` | src/utils/gameLogic.ts:145-148 | the rate is 0 before the first ball; otherwise rate × balls = 6 × runs; it is never negative |
| `Derived.RunRateExample` | src/utils/gameLogic.ts:145-148 | 30 runs off 18 balls is a rate of 10 |
| `Derived.RequiredRunRate` | src/utils/gameLogic.ts:151-159 | the rate is 0 for a missing or zero target or with no balls left; otherwise rate × balls left = 6 × (target − runs + 1) |
| `Derived.BallsRemaining` | src/utils/gameLogic.ts:162-164 | never negative; equals maxOvers·6 − played while played ≤ maxOvers·6, and 0 after |
| `Derived.BallsRemainingCountsDown` | src/utils/gameLogic.ts:162-164 | a ball before the end of the innings uses exactly one remaining ball; none remain exactly when all overs are bowled |
| `Derived.IsBatting` | src/utils/gameLogic.ts:167-169 | team t bats exactly in innings t (see `Derived.OneTeamBatsPerInnings`) |
| `Derived.OneTeamBatsPerInnings` | src/utils/gameLogic.ts:167-169 | team 1 bats the first innings, team 2 the second, and in every innings exactly one of the two teams bats |
| `Reducer.OnlyTheBattingTeamScores` | src/utils/gameLogic.ts:167-169 | a ball updates team t exactly when `isBatting(innings, t)`; every other team is unchanged |
| `Reducer.InitialTeam` | src/context/GameContext.tsx:12-19 | a new team carries its name and is zeroed, with batsman number 1 |
| `Reducer.InitialStateDefaults` | src/context/GameContext.tsx:21-37 | the initial state has 5 overs, 10 wickets, teams named "Team 1" and "Team 2" with nothing played, innings 1, no target and no last ball |
| `Reducer.Start` | src/context/GameContext.tsx:48-54 | START_GAME gives innings 1, not over, no target, empty last ball, the payload's settings, and both teams zeroed under the payload's names |
| `Reducer.Score` | src/context/GameContext.tsx:58-65 | the batting tally gains one ball and the ball's runs; wickets and batsman number rise by one exactly on a wicket; overs is balls divided by 6, rounded down |
| `Reducer.ApplyBall` | src/context/GameContext.tsx:56-93 | PLAY_BALL changes only the batting team and keeps the settings; innings 2 starts exactly when innings 1 ends and never reverts; the target changes only then, to team 1's runs; the game is over exactly in innings 2 when the chase is all out, out of balls, or strictly past the target |
| `Reducer.Reduce` | src/context/GameContext.tsx:46-101 | START_GAME starts afresh; RESET_GAME returns the initial state (default settings of 5 overs and 10 wickets, innings 1, no target, both teams zeroed); END_INNINGS and END_GAME change nothing, PLAY_BALL keeps the settings and records the commentary |
| `Reducer.PlayBall` | src/context/GameContext.tsx:112-115 | resolving and applying a ball adds exactly one ball in total and credits the batting team with the ball's runs, which are in {0,1,2,3,4,6}; it keeps the invariant when the game is not over |
| `Reducer.StartSatisfiesInvariant` | src/context/GameContext.tsx:28-54 | a start with sensible settings, and the initial state, satisfy the invariant |
| `Reducer.FirstInningsBallPreservesInvariant` | src/context/GameContext.tsx:56-93 | a first-innings ball keeps the invariant; the innings passes on with team 1's runs as target exactly when it ends |
| `Reducer.ChaseBallPreservesInvariant` | src/context/GameContext.tsx:56-93 | a chase ball before game over keeps the invariant; game over exactly when the chase is all out, out of balls or past the target |
| `Reducer.StepPreservesInvariant` | src/context/GameContext.tsx:46-101 | every allowed action keeps the invariant: batsman number = wickets + 1, overs = balls / 6, limits respected, innings 1 without target, innings 2 with team 1's runs as target, game over exactly when the chase is finished or passed |
| `Reducer.RunPreservesInvariant` | src/context/GameContext.tsx:46-101 | any sequence of allowed actions from an invariant state ends in an invariant state |
| `Reducer.ReachableStatesAreConsistent` | src/context/GameContext.tsx:60-91 | in every reachable state, batsman number = wickets + 1 for both teams, and innings 2 has a target equal to team 1's runs |
| `Reducer.GameOverIsSticky` | src/context/GameContext.tsx:56-93 | once a match reached by allowed actions is over, any number of further balls leave it over, in innings 2, with the same target |
| `Reducer.FinishedStaysFinished` | src/context/GameContext.tsx:56-93 | a finished chase (all out, out of balls, or past the target) stays finished, with the same target and first-innings tally, over any sequence of further balls |
| `Reducer.ChaseEndsOnlyByOvertaking` | src/context/GameContext.tsx:72-76 | when the chase has balls and wickets left, a ball ends the game exactly when it takes team 2 strictly past team 1's runs; drawing level does not |
| `Reducer.BallsCountPlays` | src/context/GameContext.tsx:57-62 | after n balls the two teams together have faced exactly n more balls |
| `Reducer.FirstInningsWithoutWickets` | src/context/GameContext.tsx:67-90 | wicketless balls in innings 1 credit team 1 with every ball and run; the innings passes to team 2 exactly when the last over is complete, with team 1's total as target |
| `Reducer.OneOverFirstInnings` | src/context/GameContext.tsx:79-90 | in a one-over match, six wicketless balls end innings 1 with the sum of their runs as the target |
| `Results.ComputeResult` | src/pages/ResultsPage.tsx:12-36 | exactly one of win by runs, win by wickets, tie; team 1 wins by the positive run difference when ahead; team 2 wins by maxWickets − its wickets when ahead; equal runs is a tie with no winner and margin 0; each run rate is 0 before the team's first ball and otherwise rate × balls = 6 × runs; totals are sums over both teams; boundaries are total runs / 4 rounded down |
| `Results.ChaseWinLeavesWicketsInHand` | src/pages/ResultsPage.tsx:23-26 | in every reachable state a team 2 win has a wicket margin of at least 1; at game over, a team 1 win means the chase was all out or out of balls, and a team 2 win means it passed the target |
| `ClampedResolver.SelectFollowsSlots` | src/utils/gameLogic.ts:109-134 | with non-negative weights summing to 1, the walk picks category i exactly when u lies in [prefix(i), prefix(i+1)), so each category is drawn with its own weight |
| `ClampedResolver.DefensiveAgainstSpinMissesWicketSlot` | src/utils/gameLogic.ts:83-87 | as written, for defensive against spin, the draw 0.995 lies in the wicket slot, yet the walk returns Triple |
| `ClampedResolver.ClampedTable` | src/utils/gameLogic.ts:81-106 | the corrected table has no negative weight and sums to 1 |
| `ClampedResolver.ClampedTableAgreesElsewhere` | src/utils/gameLogic.ts:81-106 | the correction leaves the tables of the other eight style pairs unchanged |
| `ClampedResolver.ResolveClamped` | src/utils/gameLogic.ts:63-135 | the corrected resolver returns the category whose slot contains u, with a line from its pool |
| `ClampedResolver.ClampedDefensiveAgainstSpinCanTakeWicket` | src/utils/gameLogic.ts:83-87 | with the correction, the draw 0.995 for defensive against spin gives Wicket |

## Findings

| source | as written | input that shows it | evidently intended | confidence | as-written member | corrected member |
|---|---|---|---|---|---|---|
| src/utils/gameLogic.ts:83-87 | spin lowers four and six by 0.02 even when the base weight is below 0.02; the negative weights enter the cumulative walk unclamped | defensive against spin with u = 0.995: the cumulative sum after Triple is 1.03/1.01 > u, so the walk returns Triple, although u lies in the wicket slot [1.00/1.01, 1). No draw in [0, 1) ever gives a wicket for this pair | a category is drawn with probability equal to its normalised weight, with negative weights treated as zero | medium; not executed | `ClampedResolver.DefensiveAgainstSpinMissesWicketSlot` | `ClampedResolver.ResolveClamped` |

The match model (`Reducer.PlayBall`) keeps the resolver as written, so that
the state machine matches the code. The corrected resolver is proved only on
its own. It differs only for defensive against spin
(`ClampedResolver.ClampedTableAgreesElsewhere`).

## Left out

- React plumbing (`createContext`, `useReducer`, the provider and the
  context hook). Only the pure reducer and the composition in `playBall`
  are modelled.
- All rendering, routing, timers, animations and turn-taking state of the
  pages and components. The setup screen contributes only the
  `Reducer.WellFormed` side condition.
- `Math.random()` itself. It is replaced by the parameters `u` and `r`,
  both required to lie in [0, 1) as `Math.random()` guarantees.
- IEEE-754 arithmetic. Weights are exact reals, so floating drift in the
  cumulative sums is not modelled.
- `Derived.RunRate`: the value is the exact real, not the two-decimal text
  of `toFixed(2)`, because text formatting of floating point is not part of
  the game rules.
- `Derived.RequiredRunRate`: the same holds; the exact real replaces the
  `toFixed(2)` text.
- `Derived.FormatOvers` is modelled for whole, non-negative ball counts
  only. Those are the only counts the state machine produces.
- Settings validation and rejection of balls after game over. The code has
  neither, so they are side conditions of the invariant lemmas and not
  error results.
- Team runs, results' runs and `lastRuns` are natural numbers. Every result
  the resolver produces has non-negative runs, so this narrows nothing that
  can occur.

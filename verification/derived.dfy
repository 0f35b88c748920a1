/**
  Values the scoreboard and the results screen derive from a team's tally:
  the "overs.balls" text, the current and the required run rate, the balls
  left in the innings, and whether a team is the one batting.

  Run rates are exact reals; the two-decimal text formatting of the source is
  not modelled.
 */
module Derived {
  import opened Wrappers
  import opened GameTypes

  predicate IsDigit(ch: char)
  {
    '0' <= ch <= '9'
  }

  predicate AllDigits(s: string)
  {
    forall i :: 0 <= i < |s| ==> IsDigit(s[i])
  }

  function DigitChar(d: nat): (ch: char)
    requires d < 10
    ensures IsDigit(ch)
    ensures DigitValue(ch) == d
  {
    '0' + d as char
  }

  function DigitValue(ch: char): nat
    requires IsDigit(ch)
  {
    (ch - '0') as nat
  }

  /** Decimal text of a natural number, as JavaScript prints an integer. */
  function Decimal(n: nat): (s: string)
    ensures |s| >= 1 && AllDigits(s)
    ensures n > 0 ==> s[0] != '0'
    decreases n
  {
    if n < 10 then [DigitChar(n)] else Decimal(n / 10) + [DigitChar(n % 10)]
  }

  /** Value of a digit string, most significant digit first. */
  function ParseDecimal(s: string): nat
    requires AllDigits(s)
    decreases |s|
  {
    if |s| == 0 then 0 else ParseDecimal(s[..|s| - 1]) * 10 + DigitValue(s[|s| - 1])
  }

  /** Reading back the decimal text of `n` gives `n`. */
  lemma {:induction false} DecimalRoundTrip(n: nat)
    ensures ParseDecimal(Decimal(n)) == n
    decreases n
  {
    var s := Decimal(n);
    if n < 10 {
      assert s[..|s| - 1] == [];
    } else {
      DecimalRoundTrip(n / 10);
      assert s[..|s| - 1] == Decimal(n / 10);
    }
  }

  /** `formatOvers`: completed overs, a dot, then the balls of the current over. */
  function FormatOvers(balls: nat): (s: string)
    ensures |s| >= 3 && s[|s| - 2] == '.'
    ensures AllDigits(s[..|s| - 2]) && ParseDecimal(s[..|s| - 2]) == balls / 6
    ensures s[|s| - 1] == DigitChar(balls % 6)
  {
    var head := Decimal(balls / 6);
    DecimalRoundTrip(balls / 6);
    assert (head + "." + Decimal(balls % 6))[..|head|] == head;
    head + "." + Decimal(balls % 6)
  }

  /**
    Reads "o.k" text back into a ball count `o * 6 + k`, accepting only a
    single ball digit below 6 after the dot.
   */
  function ParseOvers(s: string): (balls: Option<nat>)
    ensures balls.Some? ==> |s| >= 3 && s[|s| - 2] == '.'
  {
    if |s| >= 3 && s[|s| - 2] == '.' && AllDigits(s[..|s| - 2]) && IsDigit(s[|s| - 1]) && DigitValue(s[|s| - 1]) < 6
    then Some(ParseDecimal(s[..|s| - 2]) * 6 + DigitValue(s[|s| - 1]))
    else None
  }

  /**
    The overs text splits the ball count into whole overs `o` and the balls
    `k < 6` of the current over, with `o * 6 + k` the count itself.
   */
  lemma FormatOversRoundTrip(balls: nat)
    ensures ParseOvers(FormatOvers(balls)) == Some(balls)
    ensures FormatOvers(balls)[|FormatOvers(balls)| - 1] == DigitChar(balls % 6)
  {
    var s := FormatOvers(balls);
    var head := Decimal(balls / 6);
    assert Decimal(balls % 6) == [DigitChar(balls % 6)];
    assert s == head + ['.', DigitChar(balls % 6)];
    assert s[..|s| - 2] == head;
    DecimalRoundTrip(balls / 6);
  }

  lemma FormatOversExample()
    ensures FormatOvers(13) == "2.1"
  {
  }

  /** Runs per six balls; zero before the first ball. */
  function RunRate(runs: nat, balls: nat): (rate: real)
    ensures balls == 0 ==> rate == 0.0
    ensures balls > 0 ==> rate * balls as real == 6.0 * runs as real
    ensures rate >= 0.0
  {
    if balls == 0 then 0.0 else (runs as real / balls as real) * 6.0
  }

  lemma RunRateExample()
    ensures RunRate(30, 18) == 10.0
  {
  }

  /**
    Runs needed per six balls to pass the target. A missing or zero target
    and an exhausted innings both give zero, since the source tests the
    target for truthiness.
   */
  function RequiredRunRate(target: Option<nat>, currentRuns: nat, ballsRemaining: nat): (rate: real)
    ensures (target == None || target == Some(0) || ballsRemaining == 0) ==> rate == 0.0
    ensures (target.Some? && target.value > 0 && ballsRemaining > 0) ==>
      rate * ballsRemaining as real == 6.0 * (target.value - currentRuns + 1) as real
  {
    if target == None || target == Some(0) || ballsRemaining == 0 then 0.0
    else
      var runsRequired := target.value - currentRuns + 1;
      (runsRequired as real / ballsRemaining as real) * 6.0
  }

  /** Legal balls left in an innings of `maxOvers` overs, never negative. */
  function BallsRemaining(maxOvers: int, ballsPlayed: nat): (left: nat)
    ensures ballsPlayed <= maxOvers * 6 ==> left + ballsPlayed == maxOvers * 6
    ensures ballsPlayed >= maxOvers * 6 ==> left == 0
  {
    if maxOvers * 6 - ballsPlayed > 0 then maxOvers * 6 - ballsPlayed else 0
  }

  /** A ball played before the last ball of the innings uses up exactly one remaining ball. */
  lemma BallsRemainingCountsDown(maxOvers: int, ballsPlayed: nat)
    requires ballsPlayed < maxOvers * 6
    ensures BallsRemaining(maxOvers, ballsPlayed + 1) == BallsRemaining(maxOvers, ballsPlayed) - 1
    ensures BallsRemaining(maxOvers, ballsPlayed + 1) == 0 <==> ballsPlayed + 1 >= maxOvers * 6
  {
  }

  /** Whether team `team` bats in innings `currentInnings`. */
  function IsBatting(currentInnings: TeamNumber, team: TeamNumber): bool
  {
    currentInnings == team
  }

  /** The first team bats the first innings, the second the second, and never both at once. */
  lemma OneTeamBatsPerInnings(currentInnings: TeamNumber)
    ensures IsBatting(1, 1) && IsBatting(2, 2)
    ensures IsBatting(currentInnings, 1) != IsBatting(currentInnings, 2)
  {
  }
}

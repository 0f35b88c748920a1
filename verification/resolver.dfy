/**
  The outcome resolver of one ball: a base probability table chosen by the
  batting style, additive adjustments chosen by the bowling style,
  normalisation by the total, a walk of the cumulative sums against a uniform
  draw `u`, and a commentary line picked from the chosen category's pool with
  a second uniform draw `r`. Both draws stand for `Math.random()`.
 */
module Resolver {
  import opened Wrappers
  import opened GameTypes

  /** The seven outcome categories of one ball. */
  datatype Category = Dot | Single | Double | Triple | Four | Six | Wicket

  /** The order in which the resolver walks the categories. */
  const Order: seq<Category> := [Dot, Single, Double, Triple, Four, Six, Wicket]

  /** Position of a category in `Order`. */
  function Index(c: Category): (i: nat)
    ensures i < |Order| && Order[i] == c
  {
    match c
    case Dot => 0
    case Single => 1
    case Double => 2
    case Triple => 3
    case Four => 4
    case Six => 5
    case Wicket => 6
  }

  /** One weight per category, in the field order of the source's tables. */
  datatype Weights = Weights(
    dot: real,
    single: real,
    double: real,
    triple: real,
    four: real,
    six: real,
    wicket: real)

  function Weight(w: Weights, c: Category): real
  {
    match c
    case Dot => w.dot
    case Single => w.single
    case Double => w.double
    case Triple => w.triple
    case Four => w.four
    case Six => w.six
    case Wicket => w.wicket
  }

  /** Sum of all seven weights. */
  function Total(w: Weights): real
  {
    w.dot + w.single + w.double + w.triple + w.four + w.six + w.wicket
  }

  predicate NonNegative(w: Weights)
  {
    forall c :: Weight(w, c) >= 0.0
  }

  /** Sum of the weights of the first `k` categories of `Order`. */
  function Prefix(w: Weights, k: nat): real
    requires k <= |Order|
  {
    if k == 0 then 0.0 else Prefix(w, k - 1) + Weight(w, Order[k - 1])
  }

  lemma PrefixAllIsTotal(w: Weights)
    ensures Prefix(w, |Order|) == Total(w)
  {
    assert Prefix(w, 1) == w.dot;
    assert Prefix(w, 2) == w.dot + w.single;
    assert Prefix(w, 3) == w.dot + w.single + w.double;
    assert Prefix(w, 4) == w.dot + w.single + w.double + w.triple;
    assert Prefix(w, 5) == Prefix(w, 4) + w.four;
    assert Prefix(w, 6) == Prefix(w, 5) + w.six;
  }

  /** The base table of the batting style; each sums to exactly one. */
  function BaseTable(bat: BattingStyle): (w: Weights)
    ensures Total(w) == 1.0
    ensures NonNegative(w)
  {
    match bat
    case Defensive => Weights(0.50, 0.30, 0.15, 0.03, 0.01, 0.00, 0.01)
    case Balanced => Weights(0.30, 0.35, 0.15, 0.05, 0.10, 0.02, 0.03)
    case Aggressive => Weights(0.20, 0.15, 0.10, 0.05, 0.20, 0.15, 0.15)
  }

  /**
    The base table with the bowling style's additive adjustments; negative
    weights are kept as they are.
   */
  function Adjust(bat: BattingStyle, bowl: BowlingStyle): (w: Weights)
    ensures bowl == Medium ==> w == BaseTable(bat)
    ensures w.dot == BaseTable(bat).dot
    ensures w.double == BaseTable(bat).double
    ensures w.triple == BaseTable(bat).triple
    ensures bowl == Fast ==> w.single == BaseTable(bat).single && w.six == BaseTable(bat).six
    ensures 1.0 <= Total(w) <= 1.07
  {
    var b := BaseTable(bat);
    match bowl
    case Spin =>
      var w1 := b.(single := b.single + 0.05, four := b.four - 0.02, six := b.six - 0.02);
      if bat == Aggressive then w1.(wicket := w1.wicket + 0.05) else w1
    case Fast =>
      var w1 := b.(wicket := b.wicket + 0.05, four := b.four + 0.02);
      if bat == Defensive then w1.(wicket := w1.wicket - 0.02) else w1
    case Medium => b
  }

  /** Exactly one of the nine style pairs produces negative weights. */
  lemma NegativeWeightsOnlyForDefensiveAgainstSpin(bat: BattingStyle, bowl: BowlingStyle)
    ensures NonNegative(Adjust(bat, bowl)) <==> !(bat == Defensive && bowl == Spin)
    ensures bat == Defensive && bowl == Spin ==>
      Adjust(bat, bowl).four == -0.01 && Adjust(bat, bowl).six == -0.02 && Total(Adjust(bat, bowl)) == 1.01
  {
    var w := Adjust(bat, bowl);
    if bat == Defensive && bowl == Spin {
      assert Weight(w, Four) < 0.0;
    } else {
      forall c ensures Weight(w, c) >= 0.0 {
        assert NonNegative(BaseTable(bat)) && Weight(BaseTable(bat), c) >= 0.0;
      }
    }
  }

  lemma DivThenMul(x: real, t: real)
    requires t != 0.0
    ensures (x / t) * t == x
  {
  }

  lemma UnitFactor(x: real, t: real)
    requires t != 0.0 && x * t == t
    ensures x == 1.0
  {
    assert (x - 1.0) * t == 0.0;
  }

  /** Every weight divided by `t`. */
  function Divide(w: Weights, t: real): Weights
    requires t != 0.0
  {
    Weights(w.dot / t, w.single / t, w.double / t, w.triple / t, w.four / t, w.six / t, w.wicket / t)
  }

  lemma DivideTotal(w: Weights, t: real)
    requires t != 0.0
    ensures Total(Divide(w, t)) * t == Total(w)
  {
    DivThenMul(w.dot, t);
    DivThenMul(w.single, t);
    DivThenMul(w.double, t);
    DivThenMul(w.triple, t);
    DivThenMul(w.four, t);
    DivThenMul(w.six, t);
    DivThenMul(w.wicket, t);
  }

  /** Every weight divided by the total. */
  function Normalise(w: Weights): (p: Weights)
    requires Total(w) != 0.0
    ensures Total(p) == 1.0
    ensures forall c :: Weight(p, c) * Total(w) == Weight(w, c)
  {
    DivideTotal(w, Total(w));
    UnitFactor(Total(Divide(w, Total(w))), Total(w));
    Divide(w, Total(w))
  }

  /** The normalised table the resolver samples from for a pair of styles. */
  function Table(bat: BattingStyle, bowl: BowlingStyle): Weights
  {
    Normalise(Adjust(bat, bowl))
  }

  /**
    The resolver's walk as written: accumulate the weights in order and stop
    at the first cumulative sum that exceeds `u`; Wicket when none does.
   */
  function Select(p: Weights, u: real): (c: Category)
    ensures c != Wicket ==> Prefix(p, Index(c) + 1) > u
    ensures forall k :: 1 <= k <= Index(c) && k <= 6 ==> Prefix(p, k) <= u
  {
    assert Prefix(p, 1) == p.dot;
    assert Prefix(p, 2) == p.dot + p.single;
    assert Prefix(p, 3) == p.dot + p.single + p.double;
    assert Prefix(p, 4) == p.dot + p.single + p.double + p.triple;
    assert Prefix(p, 5) == p.dot + p.single + p.double + p.triple + p.four;
    assert Prefix(p, 6) == p.dot + p.single + p.double + p.triple + p.four + p.six;
    var c1 := p.dot;
    if c1 > u then Dot else
    var c2 := c1 + p.single;
    if c2 > u then Single else
    var c3 := c2 + p.double;
    if c3 > u then Double else
    var c4 := c3 + p.triple;
    if c4 > u then Triple else
    var c5 := c4 + p.four;
    if c5 > u then Four else
    var c6 := c5 + p.six;
    if c6 > u then Six else Wicket
  }

  /**
    Category `i` of `Order` is the first whose cumulative sum exceeds `u`;
    Wicket (i = 6) is the fallback when none of the first six does.
   */
  predicate IsFirstExceeding(p: Weights, u: real, i: nat)
    requires i < |Order|
  {
    && (i < 6 ==> Prefix(p, i + 1) > u)
    && forall k :: 1 <= k <= i && k <= 6 ==> Prefix(p, k) <= u
  }

  /** The walk picks exactly the first category whose cumulative sum exceeds `u`. */
  lemma SelectIsFirstExceeding(p: Weights, u: real)
    ensures forall i :: 0 <= i < |Order| ==> (Select(p, u) == Order[i] <==> IsFirstExceeding(p, u, i))
  {
    assert Prefix(p, 1) == p.dot;
    assert Prefix(p, 2) == p.dot + p.single;
    assert Prefix(p, 3) == Prefix(p, 2) + p.double;
    assert Prefix(p, 4) == Prefix(p, 3) + p.triple;
    assert Prefix(p, 5) == Prefix(p, 4) + p.four;
    assert Prefix(p, 6) == Prefix(p, 5) + p.six;
  }

  const DotLines: seq<string> := [
    "Dot ball! Good defensive play.",
    "No run. Solid defense by the batsman.",
    "Well bowled! No run from that delivery.",
    "The batsman blocks it safely. No run.",
    "That's a dot ball. Good bowling."]

  const SingleLines: seq<string> := [
    "Quick single taken! Good running between the wickets.",
    "The batsman pushes it into the gap for a single.",
    "Just a single from that delivery.",
    "They're quick between the wickets! One run added.",
    "A comfortable single taken by the batsman."]

  const DoubleLines: seq<string> := [
    "Two runs! Good running by the batsmen.",
    "The batsman finds the gap and takes two runs.",
    "Quick running between the wickets for a double.",
    "That's well played for two runs.",
    "The batsmen scamper back for a second run!"]

  const TripleLines: seq<string> := [
    "Three runs! Excellent running between the wickets.",
    "They're pushing hard and get three runs!",
    "Good placement and running for three.",
    "The batsmen are quick and take three runs.",
    "Three runs added to the total. Great running."]

  const FourLines: seq<string> := [
    "FOUR! Beautifully played through the covers.",
    "That's racing away to the boundary! FOUR runs.",
    "FOUR runs! The fielder had no chance there.",
    "Brilliant shot! That's gone for FOUR.",
    "The batsman finds the gap and gets a boundary. FOUR runs!"]

  const SixLines: seq<string> := [
    "SIX! That's a massive hit over the bowler's head!",
    "The batsman has smashed that out of the ground! SIX runs!",
    "What a shot! That's sailed over the boundary for SIX.",
    "Magnificent! The batsman clears the ropes with ease. SIX!",
    "SIX runs! The crowd goes wild for that one!"]

  const WicketLines: seq<string> := [
    "OUT! The batsman is caught in the deep.",
    "WICKET! That's clean bowled! The stumps are shattered.",
    "The batsman is OUT! LBW, the finger goes up!",
    "WICKET! Excellent catch by the fielder.",
    "That's the end of the batsman! OUT! Good bowling."]

  /** The commentary pool of each category. */
  function Pool(c: Category): seq<string>
  {
    match c
    case Dot => DotLines
    case Single => SingleLines
    case Double => DoubleLines
    case Triple => TripleLines
    case Four => FourLines
    case Six => SixLines
    case Wicket => WicketLines
  }

  lemma PoolSizes(c: Category)
    ensures |Pool(c)| == 5
  {
  }

  /** `floor(r * n)`: an index into a pool of `n` lines for a draw `r` in [0, 1). */
  function PickIndex(r: real, n: nat): (i: int)
    requires 0.0 <= r < 1.0 && n > 0
    ensures 0 <= i < n
    ensures i as real <= r * n as real < i as real + 1.0
  {
    var x := r * n as real;
    assert 0.0 <= x < n as real by {
      assert n as real - x == (1.0 - r) * n as real;
    }
    x.Floor
  }

  /** A commentary line of the category's pool chosen by the draw `r`. */
  function Commentary(c: Category, r: real): (line: string)
    requires 0.0 <= r < 1.0
    ensures line in Pool(c)
  {
    PoolSizes(c);
    Pool(c)[PickIndex(r, |Pool(c)|)]
  }

  /** Runs scored for a category. */
  function RunsFor(c: Category): nat
  {
    match c
    case Dot => 0
    case Single => 1
    case Double => 2
    case Triple => 3
    case Four => 4
    case Six => 6
    case Wicket => 0
  }

  /** The result the resolver returns for a category and a commentary line. */
  function ResultFor(c: Category, line: string): (res: ActionResult)
    ensures res.runs in {0, 1, 2, 3, 4, 6}
    ensures res.isWicket <==> c == Wicket
    ensures res.isWicket ==> res.runs == 0
    ensures res.commentary == line
  {
    ActionResult(RunsFor(c), c == Wicket, line)
  }

  /** Recovers the category from a result's runs and wicket flag, when there is one. */
  function Classify(res: ActionResult): (c: Option<Category>)
    ensures c.Some? <==> (res.isWicket && res.runs == 0) || (!res.isWicket && res.runs in {0, 1, 2, 3, 4, 6})
    ensures c.Some? ==> res.runs == RunsFor(c.value) && (res.isWicket <==> c.value == Wicket)
  {
    if res.isWicket then (if res.runs == 0 then Some(Wicket) else None)
    else if res.runs == 0 then Some(Dot)
    else if res.runs == 1 then Some(Single)
    else if res.runs == 2 then Some(Double)
    else if res.runs == 3 then Some(Triple)
    else if res.runs == 4 then Some(Four)
    else if res.runs == 6 then Some(Six)
    else None
  }

  /** Classifying a resolver result gives back its category. */
  lemma ClassifyInvertsResultFor(c: Category, line: string)
    ensures Classify(ResultFor(c, line)) == Some(c)
  {
  }

  /** A classifiable result is the resolver result of its category. */
  lemma ResultForInvertsClassify(res: ActionResult)
    requires Classify(res).Some?
    ensures ResultFor(Classify(res).value, res.commentary) == res
  {
  }

  /**
    The resolver for one ball. `u` is the draw that picks the category and `r`
    the draw that picks the commentary line.
   */
  function Resolve(bat: BattingStyle, bowl: BowlingStyle, u: real, r: real): (res: ActionResult)
    requires 0.0 <= u < 1.0 && 0.0 <= r < 1.0
    ensures Classify(res).Some?
    ensures IsFirstExceeding(Table(bat, bowl), u, Index(Classify(res).value))
    ensures res.commentary in Pool(Classify(res).value)
    ensures res.isWicket ==> res.runs == 0
  {
    var p := Table(bat, bowl);
    var c := Select(p, u);
    var line := Commentary(c, r);
    ClassifyInvertsResultFor(c, line);
    assert IsFirstExceeding(p, u, Index(c)) by {
      SelectIsFirstExceeding(p, u);
    }
    ResultFor(c, line)
  }

  /**
    Against spin, defensive batting never yields a four, a six or a wicket:
    the cumulative sum after Triple is already 1.03 / 1.01, above every draw.
   */
  lemma DefensiveAgainstSpinStopsByTriple(u: real)
    requires 0.0 <= u < 1.0
    ensures Select(Table(Defensive, Spin), u) in {Dot, Single, Double, Triple}
    ensures Weight(Table(Defensive, Spin), Wicket) > 0.0
  {
    var p := Table(Defensive, Spin);
    var a := Adjust(Defensive, Spin);
    assert Total(a) == 1.01;
    assert p.dot * 1.01 == 0.50;
    assert p.single * 1.01 == 0.35;
    assert p.double * 1.01 == 0.15;
    assert p.triple * 1.01 == 0.03;
    assert (p.dot + p.single + p.double + p.triple) * 1.01 == 1.03;
    assert Weight(p, Wicket) * 1.01 == 0.01;
  }
}

/**
  The resolver's intended sampling, and where the code departs from it.

  Normalising makes the weights of a table sum to one, so a draw `u` in
  [0, 1) should land in category `i` exactly when it falls in that category's
  slot `[Prefix(i), Prefix(i + 1))`, making each category as likely as its
  weight. That holds when every weight is non-negative. Defensive batting
  against spin is the one pair with negative weights (four and six), and
  there the walk never reaches the wicket slot. Clamping negative adjusted
  weights to zero before normalising restores the slot property for all
  nine pairs and changes nothing for the other eight.
 */
module ClampedResolver {
  import opened GameTypes
  import opened Resolver

  /** Category `i` owns the draws in `[Prefix(p, i), Prefix(p, i + 1))`. */
  predicate InSlot(p: Weights, u: real, i: nat)
    requires i < |Order|
  {
    Prefix(p, i) <= u < Prefix(p, i + 1)
  }

  lemma {:induction false} PrefixMonotone(p: Weights, i: nat, j: nat)
    requires NonNegative(p) && i <= j <= |Order|
    ensures Prefix(p, i) <= Prefix(p, j)
    decreases j - i
  {
    if i < j {
      PrefixMonotone(p, i, j - 1);
      assert Weight(p, Order[j - 1]) >= 0.0;
    }
  }

  /**
    With non-negative weights summing to one, the walk picks a category
    exactly when the draw falls in its slot.
   */
  lemma SelectFollowsSlots(p: Weights, u: real)
    requires NonNegative(p) && Total(p) == 1.0 && 0.0 <= u < 1.0
    ensures forall i :: 0 <= i < |Order| ==> (Select(p, u) == Order[i] <==> InSlot(p, u, i))
  {
    SelectIsFirstExceeding(p, u);
    PrefixAllIsTotal(p);
    forall i | 0 <= i < |Order|
      ensures IsFirstExceeding(p, u, i) <==> InSlot(p, u, i)
    {
      if InSlot(p, u, i) {
        forall k | 1 <= k <= i && k <= 6
          ensures Prefix(p, k) <= u
        {
          PrefixMonotone(p, k, i);
        }
      }
      if IsFirstExceeding(p, u, i) {
        PrefixMonotone(p, i + 1, |Order|);
      }
    }
  }

  /** The adjusted weights with every negative weight raised to zero. */
  function Clamp(w: Weights): (v: Weights)
    ensures NonNegative(v)
    ensures forall c :: Weight(v, c) == (if Weight(w, c) < 0.0 then 0.0 else Weight(w, c))
    ensures Total(v) >= Total(w)
  {
    Weights(
      if w.dot < 0.0 then 0.0 else w.dot,
      if w.single < 0.0 then 0.0 else w.single,
      if w.double < 0.0 then 0.0 else w.double,
      if w.triple < 0.0 then 0.0 else w.triple,
      if w.four < 0.0 then 0.0 else w.four,
      if w.six < 0.0 then 0.0 else w.six,
      if w.wicket < 0.0 then 0.0 else w.wicket)
  }

  /** Clamping leaves a table without negative weights as it is. */
  lemma ClampKeepsNonNegative(w: Weights)
    requires NonNegative(w)
    ensures Clamp(w) == w
  {
    assert Weight(w, Dot) >= 0.0 && Weight(w, Single) >= 0.0 && Weight(w, Double) >= 0.0;
    assert Weight(w, Triple) >= 0.0 && Weight(w, Four) >= 0.0 && Weight(w, Six) >= 0.0;
    assert Weight(w, Wicket) >= 0.0;
  }

  lemma NonNegativeQuotient(q: real, t: real, x: real)
    requires t > 0.0 && x >= 0.0 && q * t == x
    ensures q >= 0.0
  {
  }

  /** Normalising a non-negative table with a positive total keeps it non-negative. */
  lemma NormaliseKeepsNonNegative(v: Weights)
    requires NonNegative(v) && Total(v) > 0.0
    ensures NonNegative(Normalise(v))
  {
    var p := Normalise(v);
    forall c ensures Weight(p, c) >= 0.0 {
      NonNegativeQuotient(Weight(p, c), Total(v), Weight(v, c));
    }
  }

  /** The corrected table: clamp, then normalise. */
  function ClampedTable(bat: BattingStyle, bowl: BowlingStyle): (p: Weights)
    ensures NonNegative(p) && Total(p) == 1.0
  {
    var v := Clamp(Adjust(bat, bowl));
    NormaliseKeepsNonNegative(v);
    Normalise(v)
  }

  /** The correction changes only the defensive-against-spin table. */
  lemma ClampedTableAgreesElsewhere(bat: BattingStyle, bowl: BowlingStyle)
    requires !(bat == Defensive && bowl == Spin)
    ensures ClampedTable(bat, bowl) == Table(bat, bowl)
  {
    NegativeWeightsOnlyForDefensiveAgainstSpin(bat, bowl);
    ClampKeepsNonNegative(Adjust(bat, bowl));
  }

  /** The corrected resolver: every category is drawn exactly over its slot. */
  function ResolveClamped(bat: BattingStyle, bowl: BowlingStyle, u: real, r: real): (res: ActionResult)
    requires 0.0 <= u < 1.0 && 0.0 <= r < 1.0
    ensures Classify(res).Some?
    ensures InSlot(ClampedTable(bat, bowl), u, Index(Classify(res).value))
    ensures res.commentary in Pool(Classify(res).value)
  {
    var p := ClampedTable(bat, bowl);
    var c := Select(p, u);
    SelectFollowsSlots(p, u);
    ResultFor(c, Commentary(c, r))
  }

  /**
    The code as written: for defensive batting against spin, the draw 0.995
    lies in the wicket slot (from 1.00 / 1.01 up to 1), yet the walk stops
    at Triple.
   */
  lemma DefensiveAgainstSpinMissesWicketSlot()
    ensures InSlot(Table(Defensive, Spin), 0.995, Index(Wicket))
    ensures Select(Table(Defensive, Spin), 0.995) == Triple
  {
    var p := Table(Defensive, Spin);
    NegativeWeightsOnlyForDefensiveAgainstSpin(Defensive, Spin);
    assert Weight(p, Dot) * 1.01 == 0.50 && Weight(p, Single) * 1.01 == 0.35;
    assert Weight(p, Double) * 1.01 == 0.15 && Weight(p, Triple) * 1.01 == 0.03;
    assert Weight(p, Four) * 1.01 == -0.01 && Weight(p, Six) * 1.01 == -0.02;
    assert Prefix(p, 6) == p.dot + p.single + p.double + p.triple + p.four + p.six;
    PrefixAllIsTotal(p);
  }

  lemma ClampedDefensiveAgainstSpinWeights()
    ensures Clamp(Adjust(Defensive, Spin)) == Weights(0.50, 0.35, 0.15, 0.03, 0.0, 0.0, 0.01)
  {
    var w := Adjust(Defensive, Spin);
    assert w == Weights(0.50, 0.35, 0.15, 0.03, -0.01, -0.02, 0.01);
  }

  lemma ClampedDefensiveAgainstSpinTable()
    ensures ClampedTable(Defensive, Spin) == Weights(0.50 / 1.04, 0.35 / 1.04, 0.15 / 1.04, 0.03 / 1.04, 0.0, 0.0, 0.01 / 1.04)
  {
    ClampedDefensiveAgainstSpinWeights();
    var v := Weights(0.50, 0.35, 0.15, 0.03, 0.0, 0.0, 0.01);
    assert ClampedTable(Defensive, Spin) == Normalise(v);
    assert Total(v) == 1.04;
    assert Normalise(v) == Divide(v, 1.04);
  }

  /** The corrected table sends the same draw to Wicket. */
  lemma ClampedDefensiveAgainstSpinCanTakeWicket()
    ensures Select(ClampedTable(Defensive, Spin), 0.995) == Wicket
  {
    ClampedDefensiveAgainstSpinTable();
  }
}

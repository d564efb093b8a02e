/**
 * Total daily energy expenditure: the basal metabolic rate entered by the
 * user times the multiplier of the chosen activity level.
 */
module Tdee {

  /** The five entries of the activity drop-down, in the order shown. */
  datatype ActivityLevel = Sedentary | Light | Moderate | High | Extreme

  /** The multipliers of the activity table, in the same order. */
  const Multipliers: seq<real> := [1.2, 1.375, 1.55, 1.725, 1.9]

  /** Position of a level in the drop-down. */
  function Rank(level: ActivityLevel): nat
  {
    match level
    case Sedentary => 0
    case Light => 1
    case Moderate => 2
    case High => 3
    case Extreme => 4
  }

  function Multiplier(level: ActivityLevel): (m: real)
    ensures 1.2 <= m <= 1.9
  {
    match level
    case Sedentary => 1.2
    case Light => 1.375
    case Moderate => 1.55
    case High => 1.725
    case Extreme => 1.9
  }

  /** Every level's multiplier is its own entry of the table, and every entry belongs to a level. */
  lemma MultiplierIsTableEntry(level: ActivityLevel)
    ensures Rank(level) < |Multipliers| && Multiplier(level) == Multipliers[Rank(level)]
    ensures forall m :: m in Multipliers <==> m == 1.2 || m == 1.375 || m == 1.55 || m == 1.725 || m == 1.9
    ensures forall m :: m in Multipliers ==> exists l :: Multiplier(l) == m
  {
    forall m | m in Multipliers ensures exists l :: Multiplier(l) == m {
      var i :| 0 <= i < |Multipliers| && Multipliers[i] == m;
      var l := [Sedentary, Light, Moderate, High, Extreme][i];
      assert Multiplier(l) == m;
    }
  }

  /** A more active level never gives a smaller multiplier. */
  lemma MultiplierIncreasing(a: ActivityLevel, b: ActivityLevel)
    ensures Rank(a) < Rank(b) <==> Multiplier(a) < Multiplier(b)
  {
  }

  /**
   * TDEE of a BMR (the input box accepts whole numbers from 0 up): between
   * 1.2 and 1.9 times the BMR, never negative, and positive exactly when
   * the BMR is.
   */
  function ComputeTdee(bmr: int, level: ActivityLevel): (tdee: real)
    requires 0 <= bmr
    ensures 0.0 <= tdee
    ensures 1.2 * bmr as real <= tdee <= 1.9 * bmr as real
    ensures 0.0 < tdee <==> 0 < bmr
  {
    bmr as real * Multiplier(level)
  }

  /** For a fixed BMR, a more active level gives a larger TDEE (when the BMR is positive). */
  lemma TdeeMonotone(bmr: int, a: ActivityLevel, b: ActivityLevel)
    requires 0 < bmr
    ensures Rank(a) < Rank(b) <==> ComputeTdee(bmr, a) < ComputeTdee(bmr, b)
  {
  }

  /** The default inputs: BMR 1600, sedentary. */
  lemma DefaultTdee()
    ensures ComputeTdee(1600, Sedentary) == 1920.0
  {
  }
}

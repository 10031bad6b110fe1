/**
 * Collision flags and the scalar fitness (`cost_fn`) of one candidate pose.
 * The reach distance and the manipulability come from the simulator and
 * are inputs here.
 */
module Cost {

  /** Penalty added for each true collision flag. */
  const CollisionPenalty: real := 10.0

  /**
   * A candidate introduces a new collision when the collision query reports
   * strictly more contacts than the reference query taken before the
   * optimisation of the current target; only the counts are compared.
   */
  function IsNewCollision<C>(contacts: seq<C>, reference: seq<C>): (flag: bool)
    ensures flag <==> |reference| < |contacts|
  {
    |contacts| > |reference|
  }

  /** Equal counts never raise the flag, whatever the contacts are. */
  lemma EqualCountIsNoCollision<C>(contacts: seq<C>, reference: seq<C>)
    requires |contacts| == |reference|
    ensures !IsNewCollision(contacts, reference)
  {
  }

  /** One contact more than the reference always raises the flag. */
  lemma ExtraContactIsCollision<C>(reference: seq<C>, extra: C)
    ensures IsNewCollision(reference + [extra], reference)
  {
  }

  /** What `cost_fn` returns: the cost, the manipulability and the distance. */
  datatype CostResult = CostResult(cost: real, manipulability: real, dist: real)

  /** Number of true flags among the two. */
  function FlagCount(isSelfCollision: bool, isEnvCollision: bool): nat {
    (if isSelfCollision then 1 else 0) + (if isEnvCollision then 1 else 0)
  }

  /**
   * `cost_fn`: distance plus the reciprocal manipulability minus a
   * hundredth of the energy change, then 10 per true collision flag.
   * The source divides by `m` without a guard.
   */
  function CostFn(dist: real, m: real, isSelfCollision: bool, isEnvCollision: bool, energyChange: real): (r: CostResult)
    requires m != 0.0
    ensures r.manipulability == m && r.dist == dist
    ensures r.cost == dist + 1.0 / m - energyChange / 100.0
                      + CollisionPenalty * FlagCount(isSelfCollision, isEnvCollision) as real
  {
    var cost := dist + 1.0 / m + -energyChange / 100.0;
    var cost := if isSelfCollision then cost + 10.0 else cost;
    var cost := if isEnvCollision then cost + 10.0 else cost;
    CostResult(cost, m, dist)
  }

  /** Each flag adds exactly 10, independently of the other flag. */
  lemma CollisionFlagAddsPenalty(dist: real, m: real, other: bool, energyChange: real)
    requires m != 0.0
    ensures CostFn(dist, m, true, other, energyChange).cost
         == CostFn(dist, m, false, other, energyChange).cost + 10.0
    ensures CostFn(dist, m, other, true, energyChange).cost
         == CostFn(dist, m, other, false, energyChange).cost + 10.0
  {
  }

  /** The cost grows with the distance to the target, by exactly the distance difference. */
  lemma CostMonotoneInDistance(d1: real, d2: real, m: real, s: bool, e: bool, energyChange: real)
    requires m != 0.0 && d1 <= d2
    ensures CostFn(d1, m, s, e, energyChange).cost <= CostFn(d2, m, s, e, energyChange).cost
    ensures CostFn(d2, m, s, e, energyChange).cost - CostFn(d1, m, s, e, energyChange).cost == d2 - d1
  {
  }

  /** A larger energy change lowers the cost. */
  lemma CostAntitoneInEnergyChange(dist: real, m: real, s: bool, e: bool, e1: real, e2: real)
    requires m != 0.0 && e1 <= e2
    ensures CostFn(dist, m, s, e, e2).cost <= CostFn(dist, m, s, e, e1).cost
  {
  }

  /** A larger positive manipulability lowers the cost. */
  lemma CostAntitoneInManipulability(dist: real, m1: real, m2: real, s: bool, e: bool, energyChange: real)
    requires 0.0 < m1 <= m2
    ensures CostFn(dist, m2, s, e, energyChange).cost <= CostFn(dist, m1, s, e, energyChange).cost
  {
    assert 1.0 / m2 <= 1.0 / m1 by {
      assert (1.0 / m2) * m2 == 1.0 == (1.0 / m1) * m1;
      assert (1.0 / m1) * m2 >= (1.0 / m1) * m1;
    }
  }
}

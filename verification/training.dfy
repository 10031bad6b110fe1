/**
 * The orchestration state of `train`: the initial guess, the per-candidate
 * evaluation (set the pose, score it, restore the pose), the per-target
 * optimisation loop, the `actions` table and the best-target tracker.
 *
 * The optimizer and the simulator are not modelled: each target comes with
 * the reference observations taken before its loop, the populations the
 * optimizer asked for (each candidate bundled with what the simulator
 * reports for that pose) and the optimizer's final best vector.
 */
module Training {
  import opened Geometry
  import Energy
  import Cost
  import opened Options

  // ---------------------------------------------------------------------
  // Initial guess

  /**
   * `get_initial_guess`: without a target, the zero vector with one entry
   * per controllable joint; with a target, the inverse-kinematics solution
   * (computed by the simulator, an input here).
   */
  function InitialGuess(numControllableJoints: nat, target: Option<Vec3>, ikSolution: seq<real>): (x0: seq<real>)
    ensures target.None? ==> |x0| == numControllableJoints
    ensures target.None? ==> forall j :: 0 <= j < |x0| ==> x0[j] == 0.0
    ensures target.Some? ==> x0 == ikSolution
  {
    match target
    case None => seq(numControllableJoints, _ => 0.0)
    case Some(_) => ikSolution
  }

  // ---------------------------------------------------------------------
  // Best-target tracking

  /**
   * The starting `best_cost` as written, `10 ^ 9`: in Python `^` is bitwise
   * exclusive-or, so the value is 3.
   */
  const AsWrittenInitialBestCost: real := ((10 as bv8) ^ (9 as bv8)) as int as real

  lemma AsWrittenInitialBestCostIsThree()
    ensures AsWrittenInitialBestCost == 3.0
  {
  }

  /** The starting `best_cost` evidently meant, 10**9, which the model uses. */
  const InitialBestCost: real := 1000000000.0

  /** The running pair (`best_cost`, `best_action_idx`). */
  datatype Best = Best(cost: real, idx: nat)

  /**
   * The tracker after comparing the costs of targets 0 .. |costs|-1 in
   * order: target k replaces the running best only when its cost is
   * strictly below the running best cost.
   */
  function TrackBest(costs: seq<real>, init: Best): Best {
    if costs == [] then init
    else
      var previous := TrackBest(costs[..|costs| - 1], init);
      if costs[|costs| - 1] < previous.cost then Best(costs[|costs| - 1], |costs| - 1) else previous
  }

  /** If no cost is below the starting threshold, the tracker keeps its start. */
  lemma {:induction false} TrackBestNoImprovement(costs: seq<real>, threshold: real)
    requires forall j :: 0 <= j < |costs| ==> threshold <= costs[j]
    ensures TrackBest(costs, Best(threshold, 0)) == Best(threshold, 0)
  {
    if costs != [] {
      TrackBestNoImprovement(costs[..|costs| - 1], threshold);
    }
  }

  /**
   * If some cost is below the starting threshold, the tracker ends on the
   * first index holding the minimum cost: ties keep the earlier index.
   */
  lemma {:induction false} TrackBestIsFirstMinimum(costs: seq<real>, threshold: real)
    requires exists j :: 0 <= j < |costs| && costs[j] < threshold
    ensures var b := TrackBest(costs, Best(threshold, 0));
            b.idx < |costs| && b.cost == costs[b.idx] && b.cost < threshold
            && (forall j :: 0 <= j < |costs| ==> b.cost <= costs[j])
            && (forall j :: 0 <= j < b.idx ==> b.cost < costs[j])
  {
    var n := |costs|;
    var init := costs[..n - 1];
    assert forall j :: 0 <= j < n - 1 ==> init[j] == costs[j];
    if exists j :: 0 <= j < n - 1 && init[j] < threshold {
      TrackBestIsFirstMinimum(init, threshold);
    } else {
      TrackBestNoImprovement(init, threshold);
    }
  }

  // ---------------------------------------------------------------------
  // What the simulator reports

  /** A contact record of a collision query: the two bodies and their links. */
  datatype Contact = Contact(bodyA: int, linkA: int, bodyB: int, linkB: int)

  /**
   * Observations taken before a target's loop: the link-position snapshot
   * and the self- and environment-collision contacts.
   */
  datatype Reference = Reference(linkPositions: seq<Vec3>, selfContacts: seq<Contact>, envContacts: seq<Contact>)

  /**
   * A candidate joint-angle vector with what the simulator reports once it
   * is applied: link positions, contacts, distance of the right hand to the
   * target and the chain's manipulability.
   */
  datatype Candidate = Candidate(angles: seq<real>, linkPositions: seq<Vec3>,
                                 selfContacts: seq<Contact>, envContacts: seq<Contact>,
                                 dist: real, manipulability: real)

  /**
   * One target's optimisation: the target point, its reference
   * observations, the populations in the order the optimizer asked for
   * them, and the optimizer's best vector when it stopped.
   */
  datatype TargetRun = TargetRun(target: Vec3, reference: Reference,
                                 generations: seq<seq<Candidate>>, bestX: seq<real>)

  /** One candidate's scores: cost, manipulability, distance and energy change. */
  datatype FitnessRecord = FitnessRecord(cost: real, manipulability: real, dist: real, energyChange: real)

  // ---------------------------------------------------------------------
  // Scoring one candidate

  /**
   * The candidate can be scored without an index or division fault: both
   * snapshots hold one entry per link, as `get_link_positions` returns them.
   */
  predicate Evaluable(masses: seq<real>, ref: Reference, cand: Candidate) {
    |ref.linkPositions| == |masses| && |cand.linkPositions| == |masses| && cand.manipulability != 0.0
  }

  predicate PopulationEvaluable(masses: seq<real>, ref: Reference, population: seq<Candidate>) {
    forall k :: 0 <= k < |population| ==> Evaluable(masses, ref, population[k])
  }

  predicate RunEvaluable(masses: seq<real>, run: TargetRun) {
    forall g :: 0 <= g < |run.generations| ==> PopulationEvaluable(masses, run.reference, run.generations[g])
  }

  /**
   * The body of the candidate loop in `train`: the two collision flags
   * against the reference contacts, the energy change against the
   * reference snapshot, and `cost_fn` on top.
   */
  function Evaluate(masses: seq<real>, ref: Reference, cand: Candidate): (r: FitnessRecord)
    requires Evaluable(masses, ref, cand)
    ensures r.energyChange == Energy.IntendedEnergyChange(masses, ref.linkPositions, cand.linkPositions)
    ensures r.dist == cand.dist && r.manipulability == cand.manipulability
    ensures r.cost == cand.dist + 1.0 / cand.manipulability - r.energyChange / 100.0
              + (if |cand.selfContacts| > |ref.selfContacts| then 10.0 else 0.0)
              + (if |cand.envContacts| > |ref.envContacts| then 10.0 else 0.0)
  {
    var isSelfCollision := Cost.IsNewCollision(cand.selfContacts, ref.selfContacts);
    var isEnvCollision := Cost.IsNewCollision(cand.envContacts, ref.envContacts);
    var energyChange := Energy.IntendedEnergyChange(masses, ref.linkPositions, cand.linkPositions);
    var r := Cost.CostFn(cand.dist, cand.manipulability, isSelfCollision, isEnvCollision, energyChange);
    FitnessRecord(r.cost, r.manipulability, r.dist, energyChange)
  }

  /**
   * A candidate whose link heights and contact counts match the reference
   * is scored by reach and manipulability alone.
   */
  lemma EvaluateAtReferencePose(masses: seq<real>, ref: Reference, cand: Candidate)
    requires Evaluable(masses, ref, cand)
    requires forall j :: 0 <= j < |ref.linkPositions| ==> cand.linkPositions[j].z == ref.linkPositions[j].z
    requires |cand.selfContacts| == |ref.selfContacts| && |cand.envContacts| == |ref.envContacts|
    ensures Evaluate(masses, ref, cand).cost == cand.dist + 1.0 / cand.manipulability
  {
    Energy.IntendedEnergyZeroWhenHeightsUnchanged(masses, ref.linkPositions, cand.linkPositions);
  }

  // ---------------------------------------------------------------------
  // The `cost` variable of `train`

  /** `cost` after a population: the last candidate's cost, or `previous` for an empty population. */
  function PopulationLastCost(masses: seq<real>, ref: Reference, population: seq<Candidate>, previous: real): real
    requires PopulationEvaluable(masses, ref, population)
  {
    if population == [] then previous else Evaluate(masses, ref, population[|population| - 1]).cost
  }

  /** `cost` after a target's generations, starting from `previous`. */
  function RunLastCost(masses: seq<real>, ref: Reference, generations: seq<seq<Candidate>>, previous: real): real
    requires forall g :: 0 <= g < |generations| ==> PopulationEvaluable(masses, ref, generations[g])
  {
    if generations == [] then previous
    else
      PopulationLastCost(masses, ref, generations[|generations| - 1],
                         RunLastCost(masses, ref, generations[..|generations| - 1], previous))
  }

  /** `cost` after the given targets; it starts at 0 and carries over from target to target. */
  function CostAfter(masses: seq<real>, runs: seq<TargetRun>): real
    requires forall i :: 0 <= i < |runs| ==> RunEvaluable(masses, runs[i])
  {
    if runs == [] then 0.0
    else
      var run := runs[|runs| - 1];
      assert RunEvaluable(masses, run);
      RunLastCost(masses, run.reference, run.generations, CostAfter(masses, runs[..|runs| - 1]))
  }

  /** The cost compared against `best_cost` at the end of each target. */
  function ComparedCosts(masses: seq<real>, runs: seq<TargetRun>): (costs: seq<real>)
    requires forall i :: 0 <= i < |runs| ==> RunEvaluable(masses, runs[i])
    ensures |costs| == |runs|
  {
    if runs == [] then [] else ComparedCosts(masses, runs[..|runs| - 1]) + [CostAfter(masses, runs)]
  }

  /**
   * The cost compared for a target is the cost of the LAST candidate of its
   * last population, not the optimizer's best cost.
   */
  lemma {:induction false} ComparedCostIsLastCandidate(masses: seq<real>, runs: seq<TargetRun>, i: nat)
    requires forall q :: 0 <= q < |runs| ==> RunEvaluable(masses, runs[q])
    requires i < |runs|
    requires |runs[i].generations| > 0
    requires |runs[i].generations[|runs[i].generations| - 1]| > 0
    ensures |ComparedCosts(masses, runs)| == |runs|
    ensures var gens := runs[i].generations;
            var last := gens[|gens| - 1];
            ComparedCosts(masses, runs)[i] == Evaluate(masses, runs[i].reference, last[|last| - 1]).cost
  {
    var n := |runs|;
    if i < n - 1 {
      ComparedCostIsLastCandidate(masses, runs[..n - 1], i);
    }
  }

  /**
   * The best index of the corrected loop, which starts from 10**9: 0 while
   * no compared cost is below 10**9, otherwise the first target whose
   * compared cost is the minimum.
   */
  lemma BestIndexOfTraining(masses: seq<real>, runs: seq<TargetRun>)
    requires forall q :: 0 <= q < |runs| ==> RunEvaluable(masses, runs[q])
    ensures var costs := ComparedCosts(masses, runs);
            var b := TrackBest(costs, Best(InitialBestCost, 0));
            ((forall j :: 0 <= j < |costs| ==> InitialBestCost <= costs[j]) ==> b.idx == 0)
            && ((exists j :: 0 <= j < |costs| && costs[j] < InitialBestCost) ==>
                  b.idx < |runs| && costs[b.idx] < InitialBestCost
                  && (forall j :: 0 <= j < |costs| ==> costs[b.idx] <= costs[j])
                  && (forall j :: 0 <= j < b.idx ==> costs[b.idx] < costs[j]))
  {
    var costs := ComparedCosts(masses, runs);
    if exists j :: 0 <= j < |costs| && costs[j] < InitialBestCost {
      TrackBestIsFirstMinimum(costs, InitialBestCost);
    } else {
      TrackBestNoImprovement(costs, InitialBestCost);
    }
  }

  // ---------------------------------------------------------------------
  // The shared body and the loops of `train`

  /** The human body's controllable joint angles, which evaluations set and restore. */
  class Human {
    var jointAngles: seq<real>

    constructor (angles: seq<real>)
      ensures jointAngles == angles
    {
      jointAngles := angles;
    }

    /** `set_joint_angles` on the controllable joints: a forced kinematic set. */
    method SetJointAngles(angles: seq<real>)
      modifies this
      ensures jointAngles == angles
    {
      jointAngles := angles;
    }
  }

  /**
   * The candidate loop for one population: each candidate is applied to the
   * body, scored, and the body is restored to `originalJointAngles`. Returns
   * the new value of `cost` and the fitness values handed to the optimizer.
   */
  method EvaluatePopulation(human: Human, originalJointAngles: seq<real>, masses: seq<real>,
                            ref: Reference, population: seq<Candidate>, costIn: real)
    returns (cost: real, fitnessValues: seq<real>)
    requires PopulationEvaluable(masses, ref, population)
    modifies human
    ensures human.jointAngles == if population == [] then old(human.jointAngles) else originalJointAngles
    ensures cost == PopulationLastCost(masses, ref, population, costIn)
    ensures |fitnessValues| == |population|
    ensures forall k :: 0 <= k < |population| ==> fitnessValues[k] == Evaluate(masses, ref, population[k]).cost
  {
    cost := costIn;
    fitnessValues := [];
    var k := 0;
    while k < |population|
      invariant 0 <= k <= |population|
      invariant human.jointAngles == if k == 0 then old(human.jointAngles) else originalJointAngles
      invariant cost == PopulationLastCost(masses, ref, population[..k], costIn)
      invariant |fitnessValues| == k
      invariant forall q :: 0 <= q < k ==> fitnessValues[q] == Evaluate(masses, ref, population[q]).cost
    {
      var s := population[k];
      human.SetJointAngles(s.angles);
      var curLinkPositions := s.linkPositions;
      var isSelfCollision := Cost.IsNewCollision(s.selfContacts, ref.selfContacts);
      var isEnvCollision := Cost.IsNewCollision(s.envContacts, ref.envContacts);
      var energyChange := Energy.CalIntendedEnergyChange(masses, ref.linkPositions, curLinkPositions);
      var r := Cost.CostFn(s.dist, s.manipulability, isSelfCollision, isEnvCollision, energyChange);
      cost := r.cost;
      human.SetJointAngles(originalJointAngles);
      fitnessValues := fitnessValues + [cost];
      k := k + 1;
    }
    assert population[..k] == population;
  }

  /**
   * One target: capture the reference pose, evaluate every population until
   * the optimizer stops, then leave the body in the optimizer's best pose.
   */
  method OptimizeTarget(human: Human, masses: seq<real>, run: TargetRun, costIn: real) returns (cost: real)
    requires RunEvaluable(masses, run)
    modifies human
    ensures cost == RunLastCost(masses, run.reference, run.generations, costIn)
    ensures human.jointAngles == run.bestX
  {
    var originalJointAngles := human.jointAngles;
    var generations := run.generations;
    cost := costIn;
    var g := 0;
    while g < |generations|
      invariant 0 <= g <= |generations|
      invariant human.jointAngles == originalJointAngles
      invariant cost == RunLastCost(masses, run.reference, generations[..g], costIn)
    {
      var fitnessValues;
      cost, fitnessValues := EvaluatePopulation(human, originalJointAngles, masses, run.reference, generations[g], cost);
      assert generations[..g + 1][..g] == generations[..g];
      g := g + 1;
    }
    assert generations[..g] == generations;
    human.SetJointAngles(run.bestX);
  }

  /** The `actions` dictionary after the given targets: target i's key is i. */
  function Actions(runs: seq<TargetRun>): map<nat, seq<real>> {
    if runs == [] then map[]
    else Actions(runs[..|runs| - 1])[|runs| - 1 := runs[|runs| - 1].bestX]
  }

  /** The keys of `actions` are exactly the target indices, each mapped to that target's best vector. */
  lemma {:induction false} ActionsHoldBestVectors(runs: seq<TargetRun>)
    ensures forall i: nat :: i in Actions(runs) <==> i < |runs|
    ensures forall i :: 0 <= i < |runs| ==> Actions(runs)[i] == runs[i].bestX
  {
    if runs != [] {
      var init := runs[..|runs| - 1];
      ActionsHoldBestVectors(init);
      forall i | 0 <= i < |init|
        ensures init[i] == runs[i]
      {
      }
    }
  }

  /** One more target: its cost carries on from the previous one and is compared once. */
  lemma TrainStep(masses: seq<real>, runs: seq<TargetRun>, idx: nat)
    requires forall i :: 0 <= i < |runs| ==> RunEvaluable(masses, runs[i])
    requires idx < |runs|
    ensures RunEvaluable(masses, runs[idx])
    ensures var run := runs[idx];
            var cost := RunLastCost(masses, run.reference, run.generations, CostAfter(masses, runs[..idx]));
            var previous := TrackBest(ComparedCosts(masses, runs[..idx]), Best(InitialBestCost, 0));
            Actions(runs[..idx + 1]) == Actions(runs[..idx])[idx := run.bestX]
            && CostAfter(masses, runs[..idx + 1]) == cost
            && TrackBest(ComparedCosts(masses, runs[..idx + 1]), Best(InitialBestCost, 0))
               == if cost < previous.cost then Best(cost, idx) else previous
  {
    assert runs[..idx + 1][..idx] == runs[..idx];
    assert Actions(runs[..idx + 1]) == Actions(runs[..idx])[idx := runs[idx].bestX];
    var costs := ComparedCosts(masses, runs[..idx + 1]);
    assert costs[..idx] == ComparedCosts(masses, runs[..idx]);
  }

  /**
   * `train`'s loop over the target points: `actions[idx]` receives each
   * target's best vector and the best index follows the compared costs.
   * The best index is returned here; the source keeps it in a local.
   */
  method Train(human: Human, masses: seq<real>, runs: seq<TargetRun>)
    returns (actions: map<nat, seq<real>>, bestActionIdx: nat)
    requires forall i :: 0 <= i < |runs| ==> RunEvaluable(masses, runs[i])
    modifies human
    ensures forall i: nat :: i in actions <==> i < |runs|
    ensures forall i :: 0 <= i < |runs| ==> actions[i] == runs[i].bestX
    ensures bestActionIdx == TrackBest(ComparedCosts(masses, runs), Best(InitialBestCost, 0)).idx
    ensures runs != [] ==> human.jointAngles == runs[|runs| - 1].bestX
    ensures runs == [] ==> human.jointAngles == old(human.jointAngles)
  {
    actions := map[];
    bestActionIdx := 0;
    var bestCost := InitialBestCost;
    var cost := 0.0;
    var idx := 0;
    if runs == [] {
      // No target point: the loop body would not run.
      return;
    }
    while idx < |runs|
      invariant 0 <= idx <= |runs|
      invariant actions == Actions(runs[..idx])
      invariant cost == CostAfter(masses, runs[..idx])
      invariant Best(bestCost, bestActionIdx) == TrackBest(ComparedCosts(masses, runs[..idx]), Best(InitialBestCost, 0))
      invariant 0 < idx ==> human.jointAngles == runs[idx - 1].bestX
    {
      TrainStep(masses, runs, idx);
      cost := OptimizeTarget(human, masses, runs[idx], cost);
      actions := actions[idx := runs[idx].bestX];
      if cost < bestCost {
        bestCost := cost;
        bestActionIdx := idx;
      }
      idx := idx + 1;
    }
    assert runs[..idx] == runs;
    ActionsHoldBestVectors(runs);
  }

  // ---------------------------------------------------------------------
  // The threshold `10 ^ 9` as written

  /**
   * Starting from 3, costs 5 and 4 leave the best index at 0 although
   * target 1 is cheaper; starting from 10**9 the tracker picks target 1.
   */
  lemma XorThresholdCounterexample()
    ensures var costs := [5.0, 4.0];
            TrackBest(costs, Best(AsWrittenInitialBestCost, 0)).idx == 0
            && TrackBest(costs, Best(InitialBestCost, 0)).idx == 1
  {
    AsWrittenInitialBestCostIsThree();
    TrackBestNoImprovement([5.0, 4.0], 3.0);
    TrackBestIsFirstMinimum([5.0, 4.0], InitialBestCost);
  }
}

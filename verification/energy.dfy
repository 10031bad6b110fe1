/**
 * Potential-energy bookkeeping of the human body model: the link-position
 * snapshot (`get_link_positions`) and the energy change between two
 * snapshots (`cal_energy_change`).
 *
 * Link indices follow the physics engine: -1 is the base, 0 .. numJoints-1
 * the joints' child links. Masses are given as a sequence indexed by link
 * index + 1, so `masses[0]` is the base mass and `|masses| == numJoints + 1`.
 */
module Energy {
  import opened Geometry

  /** Gravitational acceleration along z (m/s^2). */
  const G: real := -9.81

  /** Python list indexing: a negative index counts from the end. */
  function PyIndex<T>(s: seq<T>, i: int): T
    requires -|s| <= i < |s|
  {
    if i < 0 then s[|s| + i] else s[i]
  }

  // ---------------------------------------------------------------------
  // Sums of real sequences

  function Sum(s: seq<real>): real {
    if s == [] then 0.0 else Sum(s[..|s| - 1]) + s[|s| - 1]
  }

  lemma {:induction false} SumAppend(a: seq<real>, b: seq<real>)
    ensures Sum(a + b) == Sum(a) + Sum(b)
  {
    if b == [] {
      assert a + b == a;
    } else {
      assert (a + b)[..|a + b| - 1] == a + b[..|b| - 1];
      SumAppend(a, b[..|b| - 1]);
    }
  }

  lemma {:induction false} SumOfZeros(s: seq<real>)
    requires forall k :: 0 <= k < |s| ==> s[k] == 0.0
    ensures Sum(s) == 0.0
  {
    if s != [] {
      SumOfZeros(s[..|s| - 1]);
    }
  }

  lemma {:induction false} SumNegated(s: seq<real>, t: seq<real>)
    requires |s| == |t|
    requires forall k :: 0 <= k < |s| ==> t[k] == -s[k]
    ensures Sum(t) == -Sum(s)
  {
    if s != [] {
      SumNegated(s[..|s| - 1], t[..|t| - 1]);
    }
  }

  /** A sequence with one non-zero entry sums to that entry. */
  lemma {:induction false} SumSingleNonZero(s: seq<real>, j: nat)
    requires j < |s|
    requires forall k :: 0 <= k < |s| && k != j ==> s[k] == 0.0
    ensures Sum(s) == s[j]
  {
    if j == |s| - 1 {
      SumOfZeros(s[..|s| - 1]);
    } else {
      SumSingleNonZero(s[..|s| - 1], j);
    }
  }

  // ---------------------------------------------------------------------
  // Link-position snapshots

  /**
   * `get_link_positions`: one entry per link index -1 .. numJoints-1, base
   * first; `linkPosition(i)` is the world position the engine reports for
   * link i.
   */
  method GetLinkPositions(numJoints: nat, linkPosition: int -> Vec3) returns (linkPos: seq<Vec3>)
    ensures |linkPos| == numJoints + 1
    ensures forall k :: 0 <= k < |linkPos| ==> linkPos[k] == linkPosition(k - 1)
  {
    linkPos := [];
    var i := -1;
    while i < numJoints
      invariant -1 <= i <= numJoints
      invariant |linkPos| == i + 1
      invariant forall k :: 0 <= k < |linkPos| ==> linkPos[k] == linkPosition(k - 1)
    {
      linkPos := linkPos + [linkPosition(i)];
      i := i + 1;
    }
  }

  // ---------------------------------------------------------------------
  // Energy change, as the source computes it

  /**
   * The loop of `cal_energy_change` indexes both lists with every link
   * index -1 .. |masses|-2; Python raises IndexError unless all of those
   * are in range for both lists.
   */
  predicate Indexable(masses: seq<real>, original: seq<Vec3>, current: seq<Vec3>) {
    1 <= |masses| && 1 <= |original| && 1 <= |current|
    && |masses| - 1 <= |original| && |masses| - 1 <= |current|
  }

  /** Change of `mass * g * z` when z goes from `zInitial` to `zFinal`. */
  function LinkTerm(mass: real, zInitial: real, zFinal: real): real {
    mass * G * (zFinal - zInitial)
  }

  /**
   * The term added for link index i = k - 1: that link's mass, and the
   * z-coordinates at list position i of each snapshot (Python indexing, so
   * the base, i = -1, reads the LAST entry).
   */
  function LinkTerms(masses: seq<real>, original: seq<Vec3>, current: seq<Vec3>): seq<real>
    requires Indexable(masses, original, current)
  {
    seq(|masses|, k requires 0 <= k < |masses| =>
      LinkTerm(masses[k], PyIndex(original, k - 1).z, PyIndex(current, k - 1).z))
  }

  /** Total potential-energy change, summed over link indices -1 .. |masses|-2. */
  function EnergyChange(masses: seq<real>, original: seq<Vec3>, current: seq<Vec3>): real
    requires Indexable(masses, original, current)
  {
    Sum(LinkTerms(masses, original, current))
  }

  /** `cal_energy_change`: the accumulation loop over link indices -1 .. numJoints-1. */
  method CalEnergyChange(masses: seq<real>, originalLinkPositions: seq<Vec3>, currentLinkPositions: seq<Vec3>)
    returns (totalEnergyChange: real)
    requires Indexable(masses, originalLinkPositions, currentLinkPositions)
    ensures totalEnergyChange == EnergyChange(masses, originalLinkPositions, currentLinkPositions)
  {
    var g := G;
    ghost var terms := LinkTerms(masses, originalLinkPositions, currentLinkPositions);
    totalEnergyChange := 0.0;
    var numJoints := |masses| - 1;
    var i := -1;
    while i < numJoints
      invariant -1 <= i <= numJoints
      invariant totalEnergyChange == Sum(terms[..i + 1])
    {
      // getDynamicsInfo(body, i)[0], for the base (i == -1) as for every other link
      var mass := masses[i + 1];
      var potentialEnergyInitial := mass * g * PyIndex(originalLinkPositions, i).z;
      var potentialEnergyFinal := mass * g * PyIndex(currentLinkPositions, i).z;
      assert potentialEnergyFinal - potentialEnergyInitial == terms[i + 1];
      assert terms[..i + 2][..i + 1] == terms[..i + 1];
      totalEnergyChange := totalEnergyChange + (potentialEnergyFinal - potentialEnergyInitial);
      i := i + 1;
    }
    assert terms[..i + 1] == terms;
  }

  // ---------------------------------------------------------------------
  // Properties of the energy change

  /** Unchanged link heights give zero energy change (x and y do not matter). */
  lemma EnergyChangeZeroWhenHeightsUnchanged(masses: seq<real>, original: seq<Vec3>, current: seq<Vec3>)
    requires Indexable(masses, original, current)
    requires |original| == |current|
    requires forall j :: 0 <= j < |original| ==> original[j].z == current[j].z
    ensures EnergyChange(masses, original, current) == 0.0
  {
    SumOfZeros(LinkTerms(masses, original, current));
  }

  /** Swapping the two snapshots negates the energy change. */
  lemma EnergyChangeAntisymmetric(masses: seq<real>, original: seq<Vec3>, current: seq<Vec3>)
    requires Indexable(masses, original, current)
    ensures Indexable(masses, current, original)
    ensures EnergyChange(masses, current, original) == -EnergyChange(masses, original, current)
  {
    SumNegated(LinkTerms(masses, original, current), LinkTerms(masses, current, original));
  }

  /**
   * The mass that `cal_energy_change` pairs with list position j when the
   * snapshots have one entry per link: the base mass for the last position,
   * otherwise the mass of the link one slot further on.
   */
  function SlotMass(masses: seq<real>, j: nat): real
    requires j < |masses|
  {
    if j == |masses| - 1 then masses[0] else masses[j + 1]
  }

  /** The energy change written as a sum over list positions instead of link indices. */
  function SlotTerms(masses: seq<real>, original: seq<Vec3>, current: seq<Vec3>): seq<real>
    requires |original| == |current| == |masses|
  {
    seq(|masses|, j requires 0 <= j < |masses| => LinkTerm(SlotMass(masses, j), original[j].z, current[j].z))
  }

  /**
   * For snapshots with one entry per link (what `get_link_positions`
   * returns) the loop has exactly |masses| terms, reads every list position
   * exactly once, and pairs position j with `SlotMass(masses, j)`.
   */
  lemma EnergyChangeBySlot(masses: seq<real>, original: seq<Vec3>, current: seq<Vec3>)
    requires 1 <= |masses| && |original| == |current| == |masses|
    ensures Indexable(masses, original, current)
    ensures EnergyChange(masses, original, current) == Sum(SlotTerms(masses, original, current))
  {
    var n := |masses|;
    var links := LinkTerms(masses, original, current);
    var slots := SlotTerms(masses, original, current);
    assert links == [slots[n - 1]] + slots[..n - 1];
    SumAppend([slots[n - 1]], slots[..n - 1]);
    assert Sum([slots[n - 1]]) == slots[n - 1] by {
      assert [slots[n - 1]][..0] == [];
    }
    assert slots[..n - 1] + [slots[n - 1]] == slots;
  }

  /**
   * The link index whose height is read for the mass of link i, when the
   * snapshots were taken by `get_link_positions` on a body with numJoints
   * joints: the predecessor link, and for the base the last link.
   */
  function HeightSource(i: int, numJoints: nat): int {
    if i == -1 then numJoints - 1 else i - 1
  }

  /**
   * Composed with `get_link_positions`, the energy change pairs the mass of
   * link i with the height change of link `HeightSource(i)`.
   */
  lemma EnergyChangeOfSnapshots(masses: seq<real>, before: int -> Vec3, after: int -> Vec3,
                                original: seq<Vec3>, current: seq<Vec3>)
    requires 1 <= |masses| && |original| == |current| == |masses|
    requires forall k :: 0 <= k < |original| ==> original[k] == before(k - 1)
    requires forall k :: 0 <= k < |current| ==> current[k] == after(k - 1)
    ensures Indexable(masses, original, current)
    ensures EnergyChange(masses, original, current)
         == Sum(seq(|masses|, k requires 0 <= k < |masses| =>
              LinkTerm(masses[k], before(HeightSource(k - 1, |masses| - 1)).z,
                                  after(HeightSource(k - 1, |masses| - 1)).z)))
  {
    var n := |masses|;
    var bySource := seq(n, k requires 0 <= k < n =>
      LinkTerm(masses[k], before(HeightSource(k - 1, n - 1)).z, after(HeightSource(k - 1, n - 1)).z));
    var links := LinkTerms(masses, original, current);
    forall k | 0 <= k < n
      ensures links[k] == bySource[k]
    {
      var slot := if k == 0 then n - 1 else k - 1;
      assert PyIndex(original, k - 1) == original[slot] == before(slot - 1);
      assert PyIndex(current, k - 1) == current[slot] == after(slot - 1);
    }
    assert links == bySource;
  }

  // ---------------------------------------------------------------------
  // The pairing the energy formula evidently intends: mass of link i with
  // the height change of link i itself.

  /**
   * The intended terms: list position k, which `get_link_positions` fills
   * with link k - 1, paired with that same link's mass `masses[k]`.
   */
  function IntendedLinkTerms(masses: seq<real>, original: seq<Vec3>, current: seq<Vec3>): seq<real>
    requires |original| == |current| == |masses|
  {
    seq(|masses|, k requires 0 <= k < |masses| => LinkTerm(masses[k], original[k].z, current[k].z))
  }

  /** Sum of mass * g * (z_final - z_initial) with each mass paired with its own link's snapshot entry. */
  function IntendedEnergyChange(masses: seq<real>, original: seq<Vec3>, current: seq<Vec3>): real
    requires |original| == |current| == |masses|
  {
    Sum(IntendedLinkTerms(masses, original, current))
  }

  /**
   * `cal_energy_change` with the snapshots read at list position i + 1,
   * where `get_link_positions` stores link i. The training loop of this
   * model scores candidates with this version.
   */
  method CalIntendedEnergyChange(masses: seq<real>, originalLinkPositions: seq<Vec3>, currentLinkPositions: seq<Vec3>)
    returns (totalEnergyChange: real)
    requires |originalLinkPositions| == |currentLinkPositions| == |masses|
    ensures totalEnergyChange == IntendedEnergyChange(masses, originalLinkPositions, currentLinkPositions)
  {
    var g := G;
    ghost var terms := IntendedLinkTerms(masses, originalLinkPositions, currentLinkPositions);
    totalEnergyChange := 0.0;
    var numJoints := |masses| - 1;
    var i := -1;
    while i < numJoints
      invariant -1 <= i <= numJoints
      invariant totalEnergyChange == Sum(terms[..i + 1])
    {
      var mass := masses[i + 1];
      var potentialEnergyInitial := mass * g * originalLinkPositions[i + 1].z;
      var potentialEnergyFinal := mass * g * currentLinkPositions[i + 1].z;
      assert potentialEnergyFinal - potentialEnergyInitial == terms[i + 1];
      assert terms[..i + 2][..i + 1] == terms[..i + 1];
      totalEnergyChange := totalEnergyChange + (potentialEnergyFinal - potentialEnergyInitial);
      i := i + 1;
    }
    assert terms[..i + 1] == terms;
  }

  /** Unchanged link heights give zero intended energy change. */
  lemma IntendedEnergyZeroWhenHeightsUnchanged(masses: seq<real>, original: seq<Vec3>, current: seq<Vec3>)
    requires |original| == |current| == |masses|
    requires forall j :: 0 <= j < |original| ==> original[j].z == current[j].z
    ensures IntendedEnergyChange(masses, original, current) == 0.0
  {
    SumOfZeros(IntendedLinkTerms(masses, original, current));
  }

  /**
   * Composed with `get_link_positions`, the intended energy change pairs
   * the mass of every link i, the base included, with the height change of
   * link i itself.
   */
  lemma IntendedEnergyOfSnapshots(masses: seq<real>, before: int -> Vec3, after: int -> Vec3,
                                  original: seq<Vec3>, current: seq<Vec3>)
    requires |original| == |current| == |masses|
    requires forall k :: 0 <= k < |original| ==> original[k] == before(k - 1)
    requires forall k :: 0 <= k < |current| ==> current[k] == after(k - 1)
    ensures IntendedEnergyChange(masses, original, current)
         == Sum(seq(|masses|, k requires 0 <= k < |masses| => LinkTerm(masses[k], before(k - 1).z, after(k - 1).z)))
  {
    var bySource := seq(|masses|, k requires 0 <= k < |masses| => LinkTerm(masses[k], before(k - 1).z, after(k - 1).z));
    assert IntendedLinkTerms(masses, original, current) == bySource;
  }

  /** The snapshot with the entry at list position j raised by h. */
  function RaiseSlot(positions: seq<Vec3>, j: nat, h: real): (r: seq<Vec3>)
    requires j < |positions|
    ensures |r| == |positions|
  {
    positions[j := Vec3(positions[j].x, positions[j].y, positions[j].z + h)]
  }

  /** Raising one link by h changes the intended energy by that link's mass * g * h. */
  lemma IntendedEnergyRaiseOneLink(masses: seq<real>, original: seq<Vec3>, j: nat, h: real)
    requires |original| == |masses| && j < |masses|
    ensures IntendedEnergyChange(masses, original, RaiseSlot(original, j, h)) == masses[j] * G * h
  {
    var current := RaiseSlot(original, j, h);
    SumSingleNonZero(IntendedLinkTerms(masses, original, current), j);
  }

  /** As written, raising the entry at list position j is charged with `SlotMass(masses, j)` instead. */
  lemma AsWrittenEnergyRaiseOneLink(masses: seq<real>, original: seq<Vec3>, j: nat, h: real)
    requires |original| == |masses| && j < |masses|
    ensures Indexable(masses, original, RaiseSlot(original, j, h))
    ensures EnergyChange(masses, original, RaiseSlot(original, j, h)) == SlotMass(masses, j) * G * h
  {
    var current := RaiseSlot(original, j, h);
    EnergyChangeBySlot(masses, original, current);
    SumSingleNonZero(SlotTerms(masses, original, current), j);
  }

  /**
   * A two-link body (base mass 1, one joint link of mass 2) whose base is
   * raised by 1 while the other link stays: the intended change is
   * 1 * g * 1, the source computes 2 * g * 1.
   */
  lemma ShiftedPairingCounterexample()
    ensures var masses := [1.0, 2.0];
            var original := [Vec3(0.0, 0.0, 0.0), Vec3(0.0, 0.0, 0.0)];
            var current := RaiseSlot(original, 0, 1.0);
            Indexable(masses, original, current)
            && EnergyChange(masses, original, current) == 2.0 * G
            && IntendedEnergyChange(masses, original, current) == G
  {
    var masses := [1.0, 2.0];
    var original := [Vec3(0.0, 0.0, 0.0), Vec3(0.0, 0.0, 0.0)];
    AsWrittenEnergyRaiseOneLink(masses, original, 0, 1.0);
    IntendedEnergyRaiseOneLink(masses, original, 0, 1.0);
  }
}

/**
 * Target-point generation around the right hand (`uniform_sample`,
 * `generate_target_points`) and the fixed debugging target
 * (`get_single_target`).
 *
 * The random draws and the sines and cosines of the drawn angles are
 * inputs: one `Draw` per loop iteration.
 */
module Sampling {
  import opened Geometry

  /**
   * One iteration's draws: the radius r and the sines and cosines of the
   * angles phi and theta.
   */
  datatype Draw = Draw(r: real, sinPhi: real, cosPhi: real, sinTheta: real, cosTheta: real)

  /**
   * What the generator can produce for a given radius: r in
   * [radius/2, radius] and both angles in the first quadrant, so each
   * sine and cosine lies in [0, 1] and sin^2 + cos^2 == 1.
   */
  predicate ValidDraw(d: Draw, radius: real) {
    radius / 2.0 <= d.r <= radius
    && 0.0 <= d.sinPhi <= 1.0 && 0.0 <= d.cosPhi <= 1.0
    && 0.0 <= d.sinTheta <= 1.0 && 0.0 <= d.cosTheta <= 1.0
    && d.sinPhi * d.sinPhi + d.cosPhi * d.cosPhi == 1.0
    && d.sinTheta * d.sinTheta + d.cosTheta * d.cosTheta == 1.0
  }

  /** Spherical to Cartesian offset (dx, dy, dz). */
  function Offset(d: Draw): Vec3 {
    Vec3(d.r * d.sinPhi * d.cosTheta, d.r * d.sinPhi * d.sinTheta, d.r * d.cosPhi)
  }

  /** The offset of a valid draw has length r. */
  lemma OffsetLength(d: Draw, radius: real)
    requires ValidDraw(d, radius)
    ensures SquaredNorm(Offset(d)) == d.r * d.r
  {
    var rs := d.r * d.sinPhi;
    calc {
      SquaredNorm(Offset(d));
      (rs * d.cosTheta) * (rs * d.cosTheta) + (rs * d.sinTheta) * (rs * d.sinTheta) + (d.r * d.cosPhi) * (d.r * d.cosPhi);
      rs * rs * (d.cosTheta * d.cosTheta + d.sinTheta * d.sinTheta) + d.r * d.r * (d.cosPhi * d.cosPhi);
      rs * rs + d.r * d.r * (d.cosPhi * d.cosPhi);
      d.r * d.r * (d.sinPhi * d.sinPhi) + d.r * d.r * (d.cosPhi * d.cosPhi);
      d.r * d.r * (d.sinPhi * d.sinPhi + d.cosPhi * d.cosPhi);
      d.r * d.r;
    }
  }

  lemma SquareMonotone(a: real, b: real)
    requires 0.0 <= a <= b
    ensures a * a <= b * b
  {
    assert a * a <= a * b <= b * b;
  }

  /**
   * A point built from a valid draw lies in the spherical shell between
   * radius/2 and radius around the anchor, in the octant where x, y and z
   * do not decrease.
   */
  lemma SampleInShellOctant(pos: Vec3, d: Draw, radius: real)
    requires ValidDraw(d, radius)
    ensures var off := Sub(Add(pos, Offset(d)), pos);
            (radius / 2.0) * (radius / 2.0) <= SquaredNorm(off) <= radius * radius
            && 0.0 <= off.x && 0.0 <= off.y && 0.0 <= off.z
  {
    var off := Sub(Add(pos, Offset(d)), pos);
    assert off == Offset(d);
    OffsetLength(d, radius);
    SquareMonotone(radius / 2.0, d.r);
    SquareMonotone(d.r, radius);
    assert 0.0 <= d.r * d.sinPhi;
  }

  /** `uniform_sample`: one point `pos + offset` per iteration, for `numSamples` iterations. */
  method UniformSample(pos: Vec3, numSamples: nat, draws: seq<Draw>) returns (points: seq<Vec3>)
    requires numSamples <= |draws|
    ensures |points| == numSamples
    ensures forall i :: 0 <= i < numSamples ==> points[i] == Add(pos, Offset(draws[i]))
  {
    points := [];
    var i := 0;
    while i < numSamples
      invariant 0 <= i <= numSamples
      invariant |points| == i
      invariant forall k :: 0 <= k < i ==> points[k] == Add(pos, Offset(draws[k]))
    {
      var d := draws[i];
      var dx := d.r * d.sinPhi * d.cosTheta;
      var dy := d.r * d.sinPhi * d.sinTheta;
      var dz := d.r * d.cosPhi;
      var xNew := pos.x + dx;
      var yNew := pos.y + dy;
      var zNew := pos.z + dz;
      points := points + [Vec3(xNew, yNew, zNew)];
      i := i + 1;
    }
  }

  /** Sampling radius and number of target points used by `generate_target_points`. */
  const TargetRadius: real := 0.5
  const NumTargetPoints: nat := 10

  /**
   * `generate_target_points`: ten points around the right hand's position,
   * each within [0.25, 0.5] of it when the draws are valid for radius 0.5.
   */
  method GenerateTargetPoints(rightHandPos: Vec3, draws: seq<Draw>) returns (points: seq<Vec3>)
    requires NumTargetPoints <= |draws|
    ensures |points| == NumTargetPoints
    ensures forall i :: 0 <= i < |points| ==> points[i] == Add(rightHandPos, Offset(draws[i]))
    ensures forall i :: 0 <= i < |points| && ValidDraw(draws[i], TargetRadius) ==>
              0.0625 <= SquaredNorm(Sub(points[i], rightHandPos)) <= 0.25
  {
    points := UniformSample(rightHandPos, NumTargetPoints, draws);
    forall i | 0 <= i < |points| && ValidDraw(draws[i], TargetRadius)
      ensures 0.0625 <= SquaredNorm(Sub(points[i], rightHandPos)) <= 0.25
    {
      SampleInShellOctant(rightHandPos, draws[i], TargetRadius);
    }
  }

  /** `get_single_target`: the end-effector position moved by (+0.2, -0.2, +0.2). */
  function SingleTarget(eePos: Vec3): (point: Vec3)
    ensures Sub(point, eePos) == Vec3(0.2, -0.2, 0.2)
  {
    var y := eePos.y - 0.2;
    var x := eePos.x + 0.2;
    var z := eePos.z + 0.2;
    Vec3(x, y, z)
  }

  /** Moving the end effector moves the debugging target by the same displacement. */
  lemma SingleTargetTranslates(eePos: Vec3, delta: Vec3)
    ensures SingleTarget(Add(eePos, delta)) == Add(SingleTarget(eePos), delta)
  {
  }
}

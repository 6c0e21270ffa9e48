/**
 * Symbolic world matrices and the angle accumulator shared by the procedural cubes.
 *
 * A matrix is kept as the ordered list of the DirectXMath factors it is the product of,
 * leftmost factor first; the identity is the empty product and `*` is concatenation.
 * Nothing is evaluated: FLOAT is `real`, and a sine stays the term `Sin(x)`.
 */
module Transforms {

  /** A scalar argument of a transform: a number, or the sine of a number (uninterpreted). */
  datatype Scalar = Num(value: real) | Sin(argument: real)

  /** One factor of a world matrix, as produced by an `XMMatrix*` constructor. */
  datatype Transform =
    | Scaling(sx: real, sy: real, sz: real)
    | RotationX(ax: real)
    | RotationY(ay: real)
    | RotationZ(az: real)
    | Translation(tx: Scalar, ty: Scalar, tz: Scalar)

  type Matrix = seq<Transform>

  /** `XMMatrixIdentity()`. */
  const Identity: Matrix := []

  /** The matrix product `a * b`, kept symbolic. */
  function Mul(a: Matrix, b: Matrix): Matrix { a + b }

  /** `XMMatrixScaling(x, y, z)`. */
  function Scale(x: real, y: real, z: real): Matrix { [Scaling(x, y, z)] }

  /** `XMMatrixRotationX(a)`, `XMMatrixRotationY(a)`, `XMMatrixRotationZ(a)`. */
  function RotateX(a: real): Matrix { [RotationX(a)] }
  function RotateY(a: real): Matrix { [RotationY(a)] }
  function RotateZ(a: real): Matrix { [RotationZ(a)] }

  /** `XMMatrixTranslation(x, y, z)`. */
  function Translate(x: Scalar, y: Scalar, z: Scalar): Matrix { [Translation(x, y, z)] }

  /**
   * One step of the angle accumulator of CustomCube and OrbitCube: add the frame's delta,
   * then subtract 360 once if the sum reached 360. It is a single subtraction, not a modulo.
   */
  function AdvanceAngle(angle: real, deltaTime: real): (r: real)
    ensures r == angle + deltaTime || r == angle + deltaTime - 360.0
    ensures r == angle + deltaTime - 360.0 <==> angle + deltaTime >= 360.0
    ensures r >= 360.0 <==> angle + deltaTime >= 720.0
    ensures 0.0 <= angle < 360.0 && 0.0 <= deltaTime < 360.0 ==> 0.0 <= r < 360.0
  {
    var sum := angle + deltaTime;
    if sum >= 360.0 then sum - 360.0 else sum
  }

  /** The angle after one `Update` per delta, in order, starting from `angle`. */
  function AngleAfter(angle: real, deltas: seq<real>): real
    decreases |deltas|
  {
    if deltas == [] then angle else AngleAfter(AdvanceAngle(angle, deltas[0]), deltas[1..])
  }

  /** How many of those updates subtracted 360. */
  function WrapCount(angle: real, deltas: seq<real>): nat
    decreases |deltas|
  {
    if deltas == [] then 0
    else (if angle + deltas[0] >= 360.0 then 1 else 0) + WrapCount(AdvanceAngle(angle, deltas[0]), deltas[1..])
  }

  function Sum(deltas: seq<real>): real
    decreases |deltas|
  {
    if deltas == [] then 0.0 else deltas[0] + Sum(deltas[1..])
  }

  /** Appending one delta adds it to the sum. */
  lemma {:induction false} SumAppend(deltas: seq<real>, d: real)
    ensures Sum(deltas + [d]) == Sum(deltas) + d
    decreases |deltas|
  {
    if deltas != [] {
      assert (deltas + [d])[1..] == deltas[1..] + [d];
      SumAppend(deltas[1..], d);
    } else {
      assert Sum([d]) == d + Sum([]);
    }
  }

  /** The accumulated angle is the start plus every delta, less 360 for each wrap. */
  lemma {:induction false} AngleAfterIsSumLessWraps(angle: real, deltas: seq<real>)
    ensures AngleAfter(angle, deltas) == angle + Sum(deltas) - 360.0 * (WrapCount(angle, deltas) as real)
    decreases |deltas|
  {
    if deltas != [] {
      AngleAfterIsSumLessWraps(AdvanceAngle(angle, deltas[0]), deltas[1..]);
    }
  }

  /** Starting in [0, 360) and fed deltas in [0, 360), the angle never leaves [0, 360). */
  lemma {:induction false} AngleStaysInRange(angle: real, deltas: seq<real>)
    requires 0.0 <= angle < 360.0
    requires forall i :: 0 <= i < |deltas| ==> 0.0 <= deltas[i] < 360.0
    ensures 0.0 <= AngleAfter(angle, deltas) < 360.0
    decreases |deltas|
  {
    if deltas != [] {
      AngleStaysInRange(AdvanceAngle(angle, deltas[0]), deltas[1..]);
    }
  }

  /** A single delta of 720 or more leaves the angle at 360 or above: there is only one wrap. */
  lemma LargeDeltaEscapesRange(angle: real, deltaTime: real)
    requires 0.0 <= angle && deltaTime >= 720.0
    ensures AdvanceAngle(angle, deltaTime) >= 360.0
  {
  }
}

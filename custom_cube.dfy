/** The spinning cube of Source/Game/Cube/CustomCube.cpp. */
module CustomCubes {
  import opened Transforms

  /** World matrix for a given angle: Scale(0.5) * RotY(-angle/2) * Translate(0, 3, 0) * RotX(3 angle). */
  function CustomWorld(angle: real): Matrix
  {
    [Scaling(0.5, 0.5, 0.5), RotationY(-angle * 0.5),
     Translation(Num(0.0), Num(3.0), Num(0.0)), RotationX(angle * 3.0)]
  }

  class CustomCube {
    var angle: real
    var world: Matrix

    /** `angle` starts at 0; the base class is taken to start from the identity matrix. */
    constructor ()
      ensures angle == 0.0 && world == Identity
    {
      angle := 0.0;
      world := Identity;
    }

    method Update(deltaTime: real)
      modifies this
      ensures angle == AdvanceAngle(old(angle), deltaTime)
      ensures world == CustomWorld(angle)
    {
      angle := angle + deltaTime;
      if angle >= 360.0 {
        angle := angle - 360.0;
      }

      var mSpin := Identity;
      var mTranslation := Identity;
      var mScale := Identity;
      var mOrbit := Identity;

      mTranslation := Translate(Num(0.0), Num(3.0), Num(0.0));
      mSpin := Mul(mSpin, RotateY(-angle * 0.5));
      mScale := Scale(0.5, 0.5, 0.5);
      mOrbit := RotateX(angle * 3.0);

      world := Mul(Mul(Mul(mScale, mSpin), mTranslation), mOrbit);
    }
  }

  /** Two fresh cubes fed the same deltas end with identical world matrices. */
  method Deterministic(deltas: seq<real>) returns (a: CustomCube, b: CustomCube)
    ensures a.angle == b.angle == AngleAfter(0.0, deltas)
    ensures |deltas| > 0 ==> a.world == b.world == CustomWorld(AngleAfter(0.0, deltas))
  {
    a := new CustomCube();
    b := new CustomCube();
    var i := 0;
    while i < |deltas|
      invariant 0 <= i <= |deltas|
      invariant a != b
      invariant a.angle == b.angle && AngleAfter(a.angle, deltas[i..]) == AngleAfter(0.0, deltas)
      invariant i > 0 ==> a.world == b.world == CustomWorld(a.angle)
      modifies a, b
    {
      a.Update(deltas[i]);
      b.Update(deltas[i]);
      assert deltas[i..][1..] == deltas[i + 1..];
      i := i + 1;
    }
  }
}

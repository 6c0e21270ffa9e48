/** The orbiting cube of Source/Game/Cube/OrbitCube.cpp. */
module OrbitCubes {
  import opened Transforms

  /** World matrix for a given angle: Scale(0.3) * RotZ(-angle) * Translate(-4, 0, 0) * RotY(-2 angle). */
  function OrbitWorld(angle: real): Matrix
  {
    [Scaling(0.3, 0.3, 0.3), RotationZ(-angle),
     Translation(Num(-4.0), Num(0.0), Num(0.0)), RotationY(-angle * 2.0)]
  }

  class OrbitCube {
    var angle: real
    var world: Matrix

    /** `angle` starts at 0; the base class is taken to start from the identity matrix. */
    constructor ()
      ensures angle == 0.0 && world == Identity
    {
      angle := 0.0;
      world := Identity;
    }

    method Update(deltaTime: real)
      modifies this
      ensures angle == AdvanceAngle(old(angle), deltaTime)
      ensures world == OrbitWorld(angle)
    {
      angle := angle + deltaTime;
      if angle >= 360.0 {
        angle := angle - 360.0;
      }

      var mSpin := Identity;
      var mTranslate := Identity;
      var mOrbit := Identity;
      var mScale := Identity;

      mSpin := Mul(mSpin, RotateZ(-angle));
      mTranslate := Translate(Num(-4.0), Num(0.0), Num(0.0));
      mOrbit := Mul(mOrbit, RotateY(-angle * 2.0));
      mScale := Scale(0.3, 0.3, 0.3);

      world := Mul(Mul(Mul(mScale, mSpin), mTranslate), mOrbit);
    }
  }
}

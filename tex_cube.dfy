/** The textured cube of Source/Game/Cube/TexCube.cpp. */
module TexCubes {
  import opened Transforms

  /**
   * The function-static `s_totalTime` of `TexCube::Update`: one accumulator for the whole
   * process, shared by every TexCube.
   */
  class TotalTime {
    var seconds: real

    constructor ()
      ensures seconds == 0.0
    {
      seconds := 0.0;
    }
  }

  /** World matrix for an accumulated time t: Translate(4, sin t, 0) * RotY(t). */
  function TexWorld(t: real): Matrix
  {
    [Translation(Num(4.0), Sin(t), Num(0.0)), RotationY(t)]
  }

  class TexCube {
    const texturePath: string
    const totalTime: TotalTime
    var world: Matrix

    /** `totalTime` is the process-wide accumulator every instance refers to. */
    constructor (texturePath: string, totalTime: TotalTime)
      ensures this.texturePath == texturePath && this.totalTime == totalTime
      ensures world == Identity
    {
      this.texturePath := texturePath;
      this.totalTime := totalTime;
      world := Identity;
    }

    method Update(deltaTime: real)
      modifies this, totalTime
      ensures totalTime.seconds == old(totalTime.seconds) + deltaTime
      ensures world == TexWorld(totalTime.seconds)
    {
      totalTime.seconds := totalTime.seconds + deltaTime;
      world := Mul(Translate(Num(4.0), Sin(totalTime.seconds), Num(0.0)), RotateY(totalTime.seconds));
    }
  }

  /**
   * Calls on two instances that share the accumulator: every delta lands in the one total,
   * whichever instance received it, and each world matrix reflects the total at its own call.
   */
  method SharedAccumulation(a: TexCube, b: TexCube, d1: real, d2: real, d3: real)
    requires a != b && a.totalTime == b.totalTime
    modifies a, b, a.totalTime
    ensures a.totalTime.seconds == old(a.totalTime.seconds) + d1 + d2 + d3
    ensures a.world == TexWorld(old(a.totalTime.seconds) + d1 + d2 + d3)
    ensures b.world == TexWorld(old(a.totalTime.seconds) + d1 + d2)
  {
    a.Update(d1);
    b.Update(d2);
    a.Update(d3);
  }

  /**
   * Any interleaving of calls on two cubes: `toFirst[i]` says which cube receives delta i.
   * The shared total ends as the sum of every delta, whichever cube received it.
   */
  method AccumulateAcross(deltas: seq<real>, toFirst: seq<bool>) returns (total: real)
    requires |toFirst| == |deltas|
    ensures total == Sum(deltas)
  {
    var shared := new TotalTime();
    var first := new TexCube("first", shared);
    var second := new TexCube("second", shared);
    var i := 0;
    while i < |deltas|
      invariant 0 <= i <= |deltas|
      invariant first.totalTime == shared && second.totalTime == shared
      invariant shared.seconds == Sum(deltas[..i])
      modifies first, second, shared
    {
      SumAppend(deltas[..i], deltas[i]);
      assert deltas[..i + 1] == deltas[..i] + [deltas[i]];
      if toFirst[i] {
        first.Update(deltas[i]);
      } else {
        second.Update(deltas[i]);
      }
      i := i + 1;
    }
    assert deltas[..i] == deltas;
    total := shared.seconds;
  }
}

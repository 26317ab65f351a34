/**
 * The cloud layer: how each cloud sprite is placed (`initCloud`) and how it
 * drifts (the cloud loop of `animate`).
 */
module Clouds {
  import opened Draws

  /** Amount subtracted from every cloud's z rotation once per frame. */
  const ROTATION_STEP: real := 0.001
  /** Height of the cloud plane. */
  const CLOUD_HEIGHT: real := 400.0
  /** Opacity given to the shared cloud material. */
  const CLOUD_OPACITY: real := 0.8

  /** Position, z rotation and opacity of one cloud mesh. */
  datatype Cloud = Cloud(x: real, y: real, z: real, rotationZ: real, opacity: real)

  /** A cloud placed from three draws over a `width` x `height` viewport. */
  function Spawn(width: nat, height: nat, rx: real, rz: real, rr: real): (c: Cloud)
    requires IsDraw(rx) && IsDraw(rz) && IsDraw(rr)
    ensures -(width as real) / 2.0 <= c.x <= (width as real) / 2.0
    ensures width > 0 ==> c.x < (width as real) / 2.0
    ensures -(height as real) / 2.0 - 100.0 <= c.z <= (height as real) / 2.0 - 100.0
    ensures height > 0 ==> c.z < (height as real) / 2.0 - 100.0
    ensures c.y == CLOUD_HEIGHT && c.opacity == CLOUD_OPACITY
    ensures 0.0 <= c.rotationZ < 360.0
  {
    var w, h := width as real, height as real;
    assert width > 0 ==> w > 0.0;
    assert height > 0 ==> h > 0.0;
    Cloud(Centred(rx, w), CLOUD_HEIGHT, Centred(rz, h) - 100.0, rr * 360.0, CLOUD_OPACITY)
  }

  /** One frame of drift. */
  function Rotate(c: Cloud): (d: Cloud)
    ensures d.rotationZ < c.rotationZ && c.rotationZ - d.rotationZ == ROTATION_STEP
    ensures d.x == c.x && d.y == c.y && d.z == c.z && d.opacity == c.opacity
  {
    c.(rotationZ := c.rotationZ - ROTATION_STEP)
  }

  /** The cloud after `n` frames. */
  function Rotated(c: Cloud, n: nat): Cloud
    decreases n
  {
    if n == 0 then c else Rotate(Rotated(c, n - 1))
  }

  /**
   * Rotating `n` times is one rotation by `n` steps: nothing but the z
   * rotation ever changes, and under exact arithmetic no drift accumulates.
   */
  lemma {:induction false} RotatedTimes(c: Cloud, n: nat)
    ensures Rotated(c, n) == c.(rotationZ := c.rotationZ - (n as real) * ROTATION_STEP)
    decreases n
  {
    if n > 0 {
      RotatedTimes(c, n - 1);
      assert (n as real) * ROTATION_STEP == ((n - 1) as real) * ROTATION_STEP + ROTATION_STEP;
    }
  }

  /** The clouds `initCloud` pushes, one per triple of draws. */
  method SpawnAll(width: nat, height: nat, draws: seq<(real, real, real)>) returns (clouds: seq<Cloud>)
    requires forall i :: 0 <= i < |draws| ==> IsDraw(draws[i].0) && IsDraw(draws[i].1) && IsDraw(draws[i].2)
    ensures |clouds| == |draws|
    ensures forall i :: 0 <= i < |clouds| ==>
      clouds[i] == Spawn(width, height, draws[i].0, draws[i].1, draws[i].2)
  {
    clouds := [];
    var i := 0;
    while i < |draws|
      invariant 0 <= i <= |draws| && |clouds| == i
      invariant forall j :: 0 <= j < i ==> clouds[j] == Spawn(width, height, draws[j].0, draws[j].1, draws[j].2)
    {
      clouds := clouds + [Spawn(width, height, draws[i].0, draws[i].1, draws[i].2)];
      i := i + 1;
    }
  }
}

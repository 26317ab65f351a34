/**
 * The rain-drop particle field: how one drop is spawned (`getRainGeometry`)
 * and how it moves in one frame (the rain loop of `animate`).
 *
 * A drop is a vertex whose x and z stay at the spawn coordinates
 * `originalX` and `originalZ`; only its height `y` and its `velocity` move.
 */
module Drops {
  import opened Draws

  /** Amount subtracted from every drop's velocity once per frame. */
  const GRAVITY: real := 0.4
  /** Height a recycled drop restarts from (`rangeY.max`). */
  const CEILING: real := 200.0
  /** The near-camera depth band, exclusive at both ends (`rangeZ`). */
  const BAND_MIN: real := -50.0
  const BAND_MAX: real := 10.0
  /** Lowest value the per-frame recycle floor can take. */
  const LOWEST_FLOOR: real := -340.0

  datatype Drop = Drop(y: real, originalX: real, originalZ: real, velocity: real)

  /** Drops in the band fall at half speed. */
  predicate InBand(originalZ: real) { BAND_MIN < originalZ < BAND_MAX }

  /** The state every drop keeps: it never moves upwards and never above the ceiling. */
  predicate Settled(d: Drop) { d.velocity <= 0.0 && d.y <= CEILING }

  /** `Math.random() * 200 - 340`, re-rolled for each drop in each frame. */
  function RecycleFloor(r: real): (f: real)
    requires IsDraw(r)
    ensures LOWEST_FLOOR <= f < LOWEST_FLOOR + 200.0
  {
    r * 200.0 - 340.0
  }

  /** A freshly spawned drop, from the three draws of `getRainGeometry`. */
  function Spawn(rx: real, ry: real, rz: real): (d: Drop)
    requires IsDraw(rx) && IsDraw(ry) && IsDraw(rz)
    ensures -50.0 <= d.originalX < 50.0
    ensures -200.0 <= d.y < 200.0
    ensures -300.0 <= d.originalZ < 100.0
    ensures d.velocity == 0.0
    ensures Settled(d)
  {
    Drop(ry * 400.0 - 200.0, rx * 100.0 - 50.0, rz * 400.0 - 300.0, 0.0)
  }

  /**
   * Height after applying the already decremented velocity `v`: the whole
   * of it outside the band, half of it inside. A velocity that is not
   * positive never lifts the drop.
   */
  function Fallen(d: Drop, v: real): (y: real)
    ensures InBand(d.originalZ) ==> y - d.y == v / 2.0
    ensures !InBand(d.originalZ) ==> y - d.y == v
    ensures v <= 0.0 ==> d.y + v <= y <= d.y
  {
    if InBand(d.originalZ) then d.y + v / 2.0 else d.y + v
  }

  /** One frame for one drop, with the draw `r` for its recycle floor. */
  function Step(d: Drop, r: real): (e: Drop)
    requires IsDraw(r)
    ensures e.originalX == d.originalX && e.originalZ == d.originalZ
    ensures RecycleFloor(r) <= e.y
    ensures Settled(d) ==> Settled(e)
  {
    var v := d.velocity - GRAVITY;
    var y := Fallen(d, v);
    if y < RecycleFloor(r) then Drop(CEILING, d.originalX, d.originalZ, 0.0)
    else Drop(y, d.originalX, d.originalZ, v)
  }

  /**
   * Either the drop fell by its new velocity (half of it inside the band)
   * and stayed on or above the floor, or it went below the floor and was
   * recycled to the ceiling at rest.
   */
  lemma StepCases(d: Drop, r: real)
    requires IsDraw(r)
    ensures var e := Step(d, r);
      var v := d.velocity - GRAVITY;
      var fell := if InBand(d.originalZ) then v / 2.0 else v;
      (d.y + fell >= RecycleFloor(r) && e.velocity == v && e.y == d.y + fell) ||
      (d.y + fell < RecycleFloor(r) && e.velocity == 0.0 && e.y == CEILING)
  {
  }

  /** A drop at rest above the floor zone falls 0.2 inside the band and 0.4 outside it. */
  lemma FirstFrameFromRest(d: Drop, r: real)
    requires IsDraw(r) && d.velocity == 0.0 && d.y >= -139.0
    ensures InBand(d.originalZ) ==> Step(d, r).y == d.y - 0.2
    ensures !InBand(d.originalZ) ==> Step(d, r).y == d.y - 0.4
    ensures Step(d, r).velocity == -0.4
  {
  }

  /** The drop after a run of frames, one recycle-floor draw per frame. */
  function Fall(d: Drop, rs: seq<real>): Drop
    requires AllDraws(rs)
    decreases |rs|
  {
    if rs == [] then d else Fall(Step(d, rs[0]), rs[1..])
  }

  /**
   * Over any number of frames a drop keeps its spawn x and z, never rises
   * above the ceiling, never gets a positive velocity, and after at least
   * one frame is never below the lowest recycle floor.
   */
  lemma {:induction false} FallBounded(d: Drop, rs: seq<real>)
    requires AllDraws(rs) && Settled(d)
    ensures Fall(d, rs).originalX == d.originalX && Fall(d, rs).originalZ == d.originalZ
    ensures Settled(Fall(d, rs))
    ensures rs != [] ==> LOWEST_FLOOR <= Fall(d, rs).y
    decreases |rs|
  {
    if rs != [] {
      var e := Step(d, rs[0]);
      FallBounded(e, rs[1..]);
      if rs[1..] == [] {
        assert Fall(d, rs) == e;
      }
    }
  }

  /** The drop field that `getRainGeometry` pushes, one drop per triple of draws. */
  method SpawnAll(draws: seq<(real, real, real)>) returns (drops: seq<Drop>)
    requires forall i :: 0 <= i < |draws| ==> IsDraw(draws[i].0) && IsDraw(draws[i].1) && IsDraw(draws[i].2)
    ensures |drops| == |draws|
    ensures forall i :: 0 <= i < |drops| ==> drops[i] == Spawn(draws[i].0, draws[i].1, draws[i].2)
    ensures forall i :: 0 <= i < |drops| ==> Settled(drops[i])
  {
    drops := [];
    var i := 0;
    while i < |draws|
      invariant 0 <= i <= |draws| && |drops| == i
      invariant forall j :: 0 <= j < i ==> drops[j] == Spawn(draws[j].0, draws[j].1, draws[j].2)
    {
      drops := drops + [Spawn(draws[i].0, draws[i].1, draws[i].2)];
      i := i + 1;
    }
  }
}

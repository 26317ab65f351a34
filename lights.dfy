/**
 * The two point lights and the rules that drive them: the switch between
 * them (`changePointLight`) and the flicker that moves and repowers one of
 * them (the last block of `animate`).
 */
module Lights {
  import opened Draws

  /** The part of a scene point light the effect reads and writes. */
  class PointLight {
    var x: real
    var y: real
    var z: real
    var power: real

    /** A light at the origin with the given power. */
    constructor (power: real)
      ensures this.power == power && x == 0.0 && y == 0.0 && z == 0.0
    {
      this.power := power;
      x, y, z := 0.0, 0.0, 0.0;
    }
  }

  /** A draw above this moves the current pointer. */
  const SWITCH_ABOVE: real := 0.95
  /** A draw above this, with light 1 current, moves the pointer to light 2. */
  const SECOND_ABOVE: real := 0.98
  /** Without lightning, a draw above this flickers the light. */
  const FLICKER_ABOVE: real := 0.7
  /** Without lightning, only a light dimmer than this is moved. */
  const MOVE_BELOW: real := 100.0
  /** Spread of the random part of the new power. */
  const POWER_SPREAD: real := 500.0
  /** Base of the new power with and without lightning. */
  const LIGHTNING_BASE: real := 100.0
  const IDLE_BASE: real := 50.0

  /**
   * What `changePointLight` does: leave everything as it is, make light 2
   * current and put light 1 out, or make light 1 current and put light 2 out.
   */
  datatype Switch = Stay | ToSecond | ToFirst

  /**
   * The switch chosen with light 1 current or not (`onFirst`), in forced
   * mode or not (`isShining`), from the draw `r`. Forced mode first points
   * at light 1 and replaces the draw by 1, so it always moves on to light 2.
   */
  function SwitchFor(onFirst: bool, isShining: bool, r: real): (s: Switch)
    requires IsDraw(r)
    ensures isShining ==> s == ToSecond
    ensures !isShining ==> (s == Stay <==> r <= SWITCH_ABOVE)
    ensures !isShining ==> (s == ToSecond <==> r > SECOND_ABOVE && onFirst)
    ensures !isShining ==> (s == ToFirst <==> r > SWITCH_ABOVE && !(r > SECOND_ABOVE && onFirst))
  {
    var first := if isShining then true else onFirst;
    var draw := if isShining then 1.0 else r;
    if draw > SWITCH_ABOVE then
      if draw > SECOND_ABOVE && first then ToSecond else ToFirst
    else Stay
  }

  /** Whether light 1 is current after the switch, given whether it was before. */
  function FirstAfter(s: Switch, wasFirst: bool): (isFirst: bool)
    ensures s == Stay ==> isFirst == wasFirst
    ensures s != Stay ==> (isFirst <==> s == ToFirst)
  {
    match s
    case Stay => wasFirst
    case ToSecond => false
    case ToFirst => true
  }

  /**
   * The power of light 1 (`isFirst`) or light 2 after the switch. A switch to
   * light 2 puts out light 1; a switch to light 1 puts out light 2, even when
   * light 1 was already current. Every other power is kept.
   */
  function PowerAfter(s: Switch, isFirst: bool, power: real): (p: real)
    ensures p == power || p == 0.0
    ensures p == 0.0 <== (s == ToSecond && isFirst) || (s == ToFirst && !isFirst)
    ensures p == power <== s == Stay || (s == ToSecond && !isFirst) || (s == ToFirst && isFirst)
  {
    match s
    case Stay => power
    case ToSecond => if isFirst then 0.0 else power
    case ToFirst => if isFirst then power else 0.0
  }

  /** Whether the flicker block runs this frame: always with lightning, else on a draw above 0.7. */
  predicate Flickers(isLightning: bool, rGate: real) {
    isLightning || rGate > FLICKER_ABOVE
  }

  /** Whether a flickering light is moved: always with lightning, else only while dim. */
  predicate Moves(isLightning: bool, power: real) {
    isLightning || power < MOVE_BELOW
  }

  /** `Math.random() * 500 + (isLightning ? 100 : 50)`. */
  function NewPower(isLightning: bool, r: real): (p: real)
    requires IsDraw(r)
    ensures isLightning ==> LIGHTNING_BASE <= p < LIGHTNING_BASE + POWER_SPREAD
    ensures !isLightning ==> IDLE_BASE <= p < IDLE_BASE + POWER_SPREAD
  {
    r * POWER_SPREAD + (if isLightning then LIGHTNING_BASE else IDLE_BASE)
  }

  /** The new x: a point across the viewport width, centred on 0. */
  function NewX(width: nat, r: real): (x: real)
    requires IsDraw(r)
    ensures -(width as real) / 2.0 <= x <= (width as real) / 2.0
    ensures width > 0 ==> x < (width as real) / 2.0
  {
    var w := width as real;
    assert width > 0 ==> w > 0.0;
    Centred(r, w)
  }

  /** The new y: a point between 0 and the viewport height. */
  function NewY(height: nat, r: real): (y: real)
    requires IsDraw(r)
    ensures 0.0 <= y <= height as real
    ensures height > 0 ==> y < height as real
  {
    var h := height as real;
    ScaledBelow(r, h);
    r * h
  }
}

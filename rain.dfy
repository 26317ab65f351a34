/**
 * The `Rain` effect object: the sizes and counts fixed at start-up, the drop
 * and cloud fields, the two point lights with the current-light pointer, the
 * lightning timer and the ambient track, and the per-frame step that moves
 * them all.
 */
module RainScene {
  import opened Options
  import opened Draws
  import opened Lights
  import Viewport
  import UserAgent
  import Drops
  import Clouds
  import LightningTimer
  import AudioLoop

  /** One triple of spawn draws per entity. */
  predicate AllTriples(ds: seq<(real, real, real)>) {
    forall i :: 0 <= i < |ds| ==> IsDraw(ds[i].0) && IsDraw(ds[i].1) && IsDraw(ds[i].2)
  }

  class Rain {
    const width: nat
    const height: nat
    const isMobile: bool
    const rainCount: nat
    const drops: array<Drops.Drop>
    const clouds: array<Clouds.Cloud>
    const light1: PointLight
    const light2: PointLight
    /** The light `pointLight` refers to: always one of the two. */
    var current: PointLight
    /** When the pending lightning timer fires; `None` when no timer is pending. */
    var deadline: Option<int>
    var audio: AudioLoop.Track

    /**
     * The state every operation keeps: two distinct lights with the pointer
     * on one of them, powers never negative, one drop per counted drop and
     * every drop at or below the ceiling and not rising, a valid track.
     */
    ghost predicate Valid()
      reads this, drops, light1, light2
    {
      light1 != light2 && (current == light1 || current == light2) &&
      light1.power >= 0.0 && light2.power >= 0.0 &&
      drops.Length == rainCount &&
      (forall i :: 0 <= i < drops.Length ==> Drops.Settled(drops[i])) &&
      AudioLoop.Valid(audio)
    }

    /**
     * `init()` up to the first frame: the capped size, the mobile check,
     * the muted track, the counts, the two lights with light 1 current, and
     * the drop and cloud fields from their spawn draws. The caller runs the
     * first `Animate` next, as `init()` does.
     */
    constructor (clientWidth: nat, clientHeight: nat, userAgent: string,
                 dropDraws: seq<(real, real, real)>, cloudDraws: seq<(real, real, real)>,
                 power1: real, power2: real)
      requires |dropDraws| == Viewport.RainCount(Viewport.Cap(clientWidth), Viewport.Cap(clientHeight))
      requires |cloudDraws| == Viewport.CloudCount(Viewport.Cap(clientWidth), Viewport.Cap(clientHeight))
      requires AllTriples(dropDraws) && AllTriples(cloudDraws)
      requires power1 >= 0.0 && power2 >= 0.0
      ensures Valid()
      ensures fresh(drops) && fresh(clouds) && fresh(light1) && fresh(light2)
      ensures width == Viewport.Cap(clientWidth) && height == Viewport.Cap(clientHeight)
      ensures isMobile <==> (exists k :: 0 <= k < |UserAgent.MOBILE_KEYWORDS| &&
                                      UserAgent.OccursIn(UserAgent.MOBILE_KEYWORDS[k], userAgent))
      ensures rainCount == Viewport.RainCount(width, height)
      ensures forall i :: 0 <= i < drops.Length ==>
        drops[i] == Drops.Spawn(dropDraws[i].0, dropDraws[i].1, dropDraws[i].2)
      ensures clouds.Length == Viewport.CloudCount(width, height)
      ensures forall i :: 0 <= i < clouds.Length ==>
        clouds[i] == Clouds.Spawn(width, height, cloudDraws[i].0, cloudDraws[i].1, cloudDraws[i].2)
      ensures current == light1 && light1.power == power1 && light2.power == power2
      ensures light1.x == light1.y == light1.z == light2.x == light2.y == light2.z == 0.0
      ensures deadline == None
      ensures audio == AudioLoop.Track(0.0, None, 1.0, true)
    {
      var mobile := UserAgent.CheckMobile(userAgent);
      isMobile := mobile;
      audio := AudioLoop.Track(0.0, None, 1.0, true);
      var w, h := Viewport.Cap(clientWidth), Viewport.Cap(clientHeight);
      width, height := w, h;
      rainCount := Viewport.RainCount(w, h);
      var first := new PointLight(power1);
      var second := new PointLight(power2);
      light1, light2, current := first, second, first;
      var spawnedDrops := Drops.SpawnAll(dropDraws);
      drops := new Drops.Drop[|spawnedDrops|](i requires 0 <= i < |spawnedDrops| => spawnedDrops[i]);
      var spawnedClouds := Clouds.SpawnAll(w, h, cloudDraws);
      clouds := new Clouds.Cloud[|spawnedClouds|](i requires 0 <= i < |spawnedClouds| => spawnedClouds[i]);
      deadline := None;
    }

    /**
     * `changePointLight(isShining)` with its draw `r`: the pointer and the
     * powers move as the chosen switch says, positions stay.
     */
    method ChangePointLight(isShining: bool, r: real)
      requires Valid() && IsDraw(r)
      modifies this`current, light1`power, light2`power
      ensures Valid()
      ensures var s := SwitchFor(old(current) == light1, isShining, r);
        (current == light1) == FirstAfter(s, old(current) == light1) &&
        light1.power == PowerAfter(s, true, old(light1.power)) &&
        light2.power == PowerAfter(s, false, old(light2.power))
    {
      var draw := r;
      if isShining {
        current := light1;
        draw := 1.0;
      }
      if draw > SWITCH_ABOVE {
        if draw > SECOND_ABOVE && current == light1 {
          current := light2;
          light1.power := 0.0;
        } else {
          current := light1;
          light2.power := 0.0;
        }
      }
    }

    /**
     * `lightning()` at time `now`: any pending timer is replaced by one
     * firing 1000 ms later, and the forced switch always ends on light 2
     * with light 1 put out.
     */
    method Lightning(now: int, r: real)
      requires Valid() && IsDraw(r)
      modifies this`deadline, this`current, light1`power, light2`power
      ensures Valid()
      ensures deadline == LightningTimer.Arm(now)
      ensures current == light2 && light1.power == 0.0 && light2.power == old(light2.power)
    {
      deadline := LightningTimer.Arm(now);
      ChangePointLight(true, r);
    }

    /** The timer callback, run by the event loop once `now` reaches the deadline. */
    method ExpireTimer(now: int)
      requires Valid()
      modifies this`deadline
      ensures Valid()
      ensures deadline == LightningTimer.Expire(old(deadline), now)
    {
      if deadline.Some? && deadline.value <= now {
        deadline := None;
      }
    }

    /** The cloud loop: every cloud turns by one step and nothing else changes. */
    method RotateClouds()
      modifies clouds
      ensures forall i :: 0 <= i < clouds.Length ==> clouds[i] == Clouds.Rotate(old(clouds[i]))
    {
      var i := 0;
      while i < clouds.Length
        invariant 0 <= i <= clouds.Length
        invariant forall j :: 0 <= j < i ==> clouds[j] == Clouds.Rotate(old(clouds[j]))
        invariant forall j :: i <= j < clouds.Length ==> clouds[j] == old(clouds[j])
      {
        clouds[i] := Clouds.Rotate(clouds[i]);
        i := i + 1;
      }
    }

    /** The rain loop, with one recycle-floor draw per drop. */
    method UpdateDrops(rs: seq<real>)
      requires Valid() && |rs| == drops.Length && AllDraws(rs)
      modifies drops
      ensures Valid()
      ensures forall i :: 0 <= i < drops.Length ==> drops[i] == Drops.Step(old(drops[i]), rs[i])
    {
      var i := 0;
      while i < drops.Length
        invariant 0 <= i <= drops.Length
        invariant forall j :: 0 <= j < i ==> drops[j] == Drops.Step(old(drops[j]), rs[j])
        invariant forall j :: i <= j < drops.Length ==> drops[j] == old(drops[j])
        invariant forall j :: 0 <= j < drops.Length ==> Drops.Settled(drops[j])
      {
        drops[i] := Drops.Step(drops[i], rs[i]);
        i := i + 1;
      }
    }

    /**
     * The flicker block on `light`: when it runs, the light is moved if
     * lightning or dim, and repowered; when it does not, the light is left
     * exactly as it was.
     */
    method Flicker(light: PointLight, isLightning: bool, rGate: real, rX: real, rY: real, rPower: real)
      requires Valid() && (light == light1 || light == light2)
      requires IsDraw(rGate) && IsDraw(rX) && IsDraw(rY) && IsDraw(rPower)
      modifies light
      ensures Valid()
      ensures Flickers(isLightning, rGate) ==> light.power == NewPower(isLightning, rPower)
      ensures Flickers(isLightning, rGate) && Moves(isLightning, old(light.power)) ==>
        light.x == NewX(width, rX) && light.y == NewY(height, rY) && light.z == 0.0
      ensures !(Flickers(isLightning, rGate) && Moves(isLightning, old(light.power))) ==>
        light.x == old(light.x) && light.y == old(light.y) && light.z == old(light.z)
      ensures !Flickers(isLightning, rGate) ==> light.power == old(light.power)
    {
      if isLightning || rGate > FLICKER_ABOVE {
        if isLightning || light.power < MOVE_BELOW {
          light.x, light.y, light.z := NewX(width, rX), NewY(height, rY), 0.0;
        }
        light.power := NewPower(isLightning, rPower);
      }
    }

    /**
     * `animate()` at time `now`. The lightning flag is read and the light
     * captured first; without lightning the pointer may switch; then the
     * clouds turn, the drops fall, and the flicker acts on the CAPTURED
     * light, which may no longer be the current one.
     */
    method Animate(now: int, rSwitch: real, rs: seq<real>, rGate: real, rX: real, rY: real, rPower: real)
      requires Valid()
      requires IsDraw(rSwitch) && IsDraw(rGate) && IsDraw(rX) && IsDraw(rY) && IsDraw(rPower)
      requires |rs| == drops.Length && AllDraws(rs)
      modifies this`deadline, this`current, light1, light2, clouds, drops
      ensures Valid()
      ensures deadline == LightningTimer.Expire(old(deadline), now)
      ensures forall i :: 0 <= i < clouds.Length ==> clouds[i] == Clouds.Rotate(old(clouds[i]))
      ensures forall i :: 0 <= i < drops.Length ==> drops[i] == Drops.Step(old(drops[i]), rs[i])
      ensures var lit := LightningTimer.Flashing(old(deadline), now);
        var wasFirst := old(current) == light1;
        var s := if lit then Stay else SwitchFor(wasFirst, false, rSwitch);
        (current == light1) == FirstAfter(s, wasFirst)
      ensures var lit := LightningTimer.Flashing(old(deadline), now);
        var wasFirst := old(current) == light1;
        var s := if lit then Stay else SwitchFor(wasFirst, false, rSwitch);
        var captured, other := old(current), if wasFirst then light2 else light1;
        var before := PowerAfter(s, wasFirst, old(captured.power));
        other.power == PowerAfter(s, !wasFirst, old(other.power)) &&
        other.x == old(other.x) && other.y == old(other.y) && other.z == old(other.z) &&
        captured.power == (if Flickers(lit, rGate) then NewPower(lit, rPower) else before) &&
        (if Flickers(lit, rGate) && Moves(lit, before)
         then captured.x == NewX(width, rX) && captured.y == NewY(height, rY) && captured.z == 0.0
         else captured.x == old(captured.x) && captured.y == old(captured.y) && captured.z == old(captured.z))
    {
      ExpireTimer(now);
      var isLightning := deadline.Some?;
      var pointLight := current;
      if !isLightning {
        ChangePointLight(false, rSwitch);
      }
      RotateClouds();
      UpdateDrops(rs);
      Flicker(pointLight, isLightning, rGate, rX, rY, rPower);
    }

    /** `checkAudioLoop()`: one frame of the loop fade. */
    method CheckAudioLoop()
      requires Valid()
      modifies this`audio
      ensures Valid()
      ensures audio == AudioLoop.LoopStep(old(audio))
    {
      if !audio.muted {
        var percent := AudioLoop.Percent(audio.currentTime, audio.duration);
        if AudioLoop.Above(percent, AudioLoop.FADE_OUT_AFTER) {
          if audio.volume > AudioLoop.QUIET {
            audio := audio.(volume := audio.volume - AudioLoop.FADE_STEP);
          }
          if AudioLoop.Above(percent, AudioLoop.RESTART_AFTER) || audio.volume <= AudioLoop.QUIET {
            audio := audio.(currentTime := 0.0);
          }
        } else {
          if audio.volume < AudioLoop.LOUD {
            audio := audio.(volume := audio.volume + AudioLoop.FADE_STEP);
          }
        }
      }
    }

    /** `mute(isMute)`: only the muted flag changes. */
    method Mute(isMute: bool)
      requires Valid()
      modifies this`audio
      ensures Valid()
      ensures audio == AudioLoop.Mute(old(audio), isMute)
    {
      audio := audio.(muted := isMute);
    }

    /** The `requestAnimationFrame` callback: the audio fade, then the next frame. */
    method Frame(now: int, rSwitch: real, rs: seq<real>, rGate: real, rX: real, rY: real, rPower: real)
      requires Valid()
      requires IsDraw(rSwitch) && IsDraw(rGate) && IsDraw(rX) && IsDraw(rY) && IsDraw(rPower)
      requires |rs| == drops.Length && AllDraws(rs)
      modifies this`deadline, this`current, this`audio, light1, light2, clouds, drops
      ensures Valid()
      ensures audio == AudioLoop.LoopStep(old(audio))
      ensures deadline == LightningTimer.Expire(old(deadline), now)
      ensures forall i :: 0 <= i < clouds.Length ==> clouds[i] == Clouds.Rotate(old(clouds[i]))
      ensures forall i :: 0 <= i < drops.Length ==> drops[i] == Drops.Step(old(drops[i]), rs[i])
      ensures var lit := LightningTimer.Flashing(old(deadline), now);
        var wasFirst := old(current) == light1;
        var s := if lit then Stay else SwitchFor(wasFirst, false, rSwitch);
        (current == light1) == FirstAfter(s, wasFirst)
      ensures var lit := LightningTimer.Flashing(old(deadline), now);
        var wasFirst := old(current) == light1;
        var s := if lit then Stay else SwitchFor(wasFirst, false, rSwitch);
        var captured, other := old(current), if wasFirst then light2 else light1;
        var before := PowerAfter(s, wasFirst, old(captured.power));
        other.power == PowerAfter(s, !wasFirst, old(other.power)) &&
        other.x == old(other.x) && other.y == old(other.y) && other.z == old(other.z) &&
        captured.power == (if Flickers(lit, rGate) then NewPower(lit, rPower) else before) &&
        (if Flickers(lit, rGate) && Moves(lit, before)
         then captured.x == NewX(width, rX) && captured.y == NewY(height, rY) && captured.z == 0.0
         else captured.x == old(captured.x) && captured.y == old(captured.y) && captured.z == old(captured.z))
    {
      CheckAudioLoop();
      Animate(now, rSwitch, rs, rGate, rX, rY, rPower);
    }
  }
}

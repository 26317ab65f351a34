/**
 * The ambient track's loop fade (`checkAudioLoop`) and mute switch (`mute`).
 * Near the end of the track the volume fades out and playback restarts
 * from the beginning; elsewhere it fades back in.
 */
module AudioLoop {
  import opened Options

  /** Fraction of the track after which the fade-out starts. */
  const FADE_OUT_AFTER: real := 0.85
  /** Fraction of the track after which playback always restarts. */
  const RESTART_AFTER: real := 0.98
  /** Volume change per frame. */
  const FADE_STEP: real := 0.005
  /** The fade-out stops, and playback restarts, at this volume. */
  const QUIET: real := 0.3
  /** The fade-in stops at this volume. */
  const LOUD: real := 0.99

  /**
   * The outcome of the floating-point division `currentTime / duration`: a
   * finite ratio, +Infinity (a positive time over a zero duration) or NaN (an
   * unknown duration, or 0 / 0). NaN fails every comparison.
   */
  datatype Ratio = Finite(value: real) | PosInf | NaN

  /** "percent > t" as the floating-point comparison decides it. */
  predicate Above(p: Ratio, t: real) {
    p.PosInf? || (p.Finite? && p.value > t)
  }

  /** The playback state of the track; `duration` is `None` until it is known. */
  datatype Track = Track(currentTime: real, duration: Option<real>, volume: real, muted: bool)

  predicate Valid(a: Track) {
    a.currentTime >= 0.0 && (a.duration.Some? ==> a.duration.value >= 0.0) && 0.0 <= a.volume <= 1.0
  }

  /** The played fraction of the track. */
  function Percent(currentTime: real, duration: Option<real>): (p: Ratio)
    requires currentTime >= 0.0 && (duration.Some? ==> duration.value >= 0.0)
    ensures p.Finite? <==> duration.Some? && duration.value > 0.0
    ensures p.Finite? ==> p.value * duration.value == currentTime
    ensures p.PosInf? <==> duration == Some(0.0) && currentTime > 0.0
  {
    match duration
    case None => NaN
    case Some(d) =>
      if d > 0.0 then Finite(currentTime / d)
      else if currentTime > 0.0 then PosInf
      else NaN
  }

  /** Whether this frame is in the fade-out part of the track. */
  predicate FadingOut(a: Track)
    requires Valid(a)
  {
    Above(Percent(a.currentTime, a.duration), FADE_OUT_AFTER)
  }

  /** One frame of `checkAudioLoop`. */
  function LoopStep(a: Track): (b: Track)
    requires Valid(a)
    ensures Valid(b)
    ensures a.muted ==> b == a
    ensures b.muted == a.muted && b.duration == a.duration
    ensures b.currentTime == a.currentTime || b.currentTime == 0.0
    ensures b.volume == a.volume || b.volume == a.volume - FADE_STEP || b.volume == a.volume + FADE_STEP
    ensures b.volume == a.volume - FADE_STEP <==> !a.muted && FadingOut(a) && a.volume > QUIET
    ensures b.volume == a.volume + FADE_STEP <==> !a.muted && !FadingOut(a) && a.volume < LOUD
    ensures b.currentTime != a.currentTime ==> !a.muted && FadingOut(a)
  {
    if a.muted then a
    else
      var percent := Percent(a.currentTime, a.duration);
      if Above(percent, FADE_OUT_AFTER) then
        var volume := if a.volume > QUIET then a.volume - FADE_STEP else a.volume;
        var time := if Above(percent, RESTART_AFTER) || volume <= QUIET then 0.0 else a.currentTime;
        a.(volume := volume, currentTime := time)
      else
        a.(volume := if a.volume < LOUD then a.volume + FADE_STEP else a.volume)
  }

  /**
   * The fade never lifts the volume above 0.995 once it is there, and never
   * lowers a volume that is already at or below 0.3.
   */
  lemma VolumeBounds(a: Track)
    requires Valid(a)
    ensures a.volume <= LOUD + FADE_STEP ==> LoopStep(a).volume <= LOUD + FADE_STEP
    ensures a.volume <= QUIET ==> LoopStep(a).volume >= a.volume
  {
  }

  /**
   * In the fade-out part playback restarts exactly when the track is past
   * 98% or the volume, after this frame's step, is at or below 0.3.
   */
  lemma RestartRule(a: Track)
    requires Valid(a) && !a.muted && FadingOut(a)
    ensures LoopStep(a).currentTime == 0.0 <==>
      Above(Percent(a.currentTime, a.duration), RESTART_AFTER) || LoopStep(a).volume <= QUIET
  {
  }

  /** At 90% of the track: volume 0.5 fades to 0.495, and volume 0.3 restarts playback unchanged. */
  lemma FadeExamples(t: Track)
    requires t.duration == Some(100.0) && t.currentTime == 90.0 && !t.muted
    ensures t.volume == 0.5 ==> LoopStep(t) == t.(volume := 0.495)
    ensures t.volume == 0.3 ==> LoopStep(t) == t.(currentTime := 0.0)
  {
  }

  /** Until the duration is known, or with a zero duration at time 0, the volume only fades in. */
  lemma UnknownDurationFadesIn(a: Track)
    requires Valid(a) && !a.muted && (a.duration.None? || (a.duration == Some(0.0) && a.currentTime == 0.0))
    ensures LoopStep(a).currentTime == a.currentTime
    ensures LoopStep(a).volume == if a.volume < LOUD then a.volume + FADE_STEP else a.volume
  {
  }

  /** `mute(isMute)`: the flag takes the requested value and nothing else changes. */
  function Mute(a: Track, isMute: bool): (b: Track)
    ensures b.muted == isMute
    ensures b.currentTime == a.currentTime && b.duration == a.duration && b.volume == a.volume
  {
    a.(muted := isMute)
  }
}

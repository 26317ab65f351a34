/**
 * The lightning debounce. The source keeps one `setTimeout` handle that a
 * click (or a touch end) cancels and re-arms for 1000 ms, and whose callback
 * clears it; the effect is flashing while a handle is held. Here the handle
 * is the deadline it would fire at, on a millisecond clock.
 */
module LightningTimer {
  import opened Options

  /** Length of a flash, in milliseconds. */
  const FLASH_MS: int := 1000

  /** Reference definition: flashing at `now` means an armed deadline still lies ahead. */
  predicate Flashing(deadline: Option<int>, now: int) {
    deadline.Some? && now < deadline.value
  }

  /** The deadline `lightning()` leaves: any earlier one is cancelled and a fresh one armed. */
  function Arm(now: int): (deadline: Option<int>)
    ensures Flashing(deadline, now)
    ensures forall t :: Flashing(deadline, t) <==> t < now + FLASH_MS
  {
    Some(now + FLASH_MS)
  }

  /**
   * The timer callback, which has run by `now` exactly when the deadline
   * has passed: the handle is still held exactly when the effect is flashing.
   */
  function Expire(deadline: Option<int>, now: int): (after: Option<int>)
    ensures after.Some? <==> Flashing(deadline, now)
    ensures after.Some? ==> after == deadline
  {
    if deadline.Some? && deadline.value <= now then None else deadline
  }

  /** The deadline after `lightning()` is called at each of the given times in turn. */
  function TriggerAll(deadline: Option<int>, times: seq<int>): Option<int>
    decreases |times|
  {
    if times == [] then deadline else TriggerAll(Arm(times[0]), times[1..])
  }

  /** Triggers do not add up: only the last one decides the deadline. */
  lemma {:induction false} LastTriggerWins(deadline: Option<int>, times: seq<int>)
    requires times != []
    ensures TriggerAll(deadline, times) == Some(times[|times| - 1] + FLASH_MS)
    decreases |times|
  {
    if times[1..] != [] {
      LastTriggerWins(Arm(times[0]), times[1..]);
    }
  }

  /** Flashing after a run of triggers means less than 1000 ms have passed since the last one. */
  lemma FlashingMeansRecent(deadline: Option<int>, times: seq<int>, t: int)
    requires times != []
    ensures Flashing(TriggerAll(deadline, times), t) <==> t < times[|times| - 1] + FLASH_MS
  {
    LastTriggerWins(deadline, times);
  }

  /**
   * One trigger at 0 flashes at once and no longer at 1000; a second
   * trigger at 500 keeps the flash at 1200 and ends it by 1500.
   */
  lemma DebounceTimeline()
    ensures Flashing(TriggerAll(None, [0]), 0) && !Flashing(TriggerAll(None, [0]), 1000)
    ensures Flashing(TriggerAll(None, [0, 500]), 1200)
    ensures !Flashing(TriggerAll(None, [0, 500]), 1500)
  {
    LastTriggerWins(None, [0, 500]);
  }
}

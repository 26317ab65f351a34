/**
 * Viewport capping and the entity counts derived from it once, at start-up
 * (the `size` record of the constructor, `initRainCount` and the cloud count
 * of `initCloud`).
 */
module Viewport {
  /** Largest width or height, in pixels, the effect ever uses. */
  const MAX_SIZE: nat := 1000
  /** Pixels of viewport area per rain drop. */
  const AREA_PER_DROP: nat := 50
  /** Pixels of viewport area per cloud sprite. */
  const AREA_PER_CLOUD: nat := 10000

  /** `Math.min(client, 1000)`: the minimum of the element's size and the cap. */
  function Cap(client: nat): (s: nat)
    ensures s <= MAX_SIZE && s <= client
    ensures s == client || s == MAX_SIZE
  {
    if client < MAX_SIZE then client else MAX_SIZE
  }

  /** A product of two capped sizes never exceeds the capped area. */
  lemma AreaBound(w: nat, h: nat)
    ensures w <= MAX_SIZE && h <= MAX_SIZE ==> w * h <= MAX_SIZE * MAX_SIZE
  {
    if w <= MAX_SIZE && h <= MAX_SIZE {
      assert w * h <= MAX_SIZE * h;
      assert MAX_SIZE * h <= MAX_SIZE * MAX_SIZE;
    }
  }

  /** `Math.floor(width * height / 50)`: the number of rain drops. */
  function RainCount(w: nat, h: nat): (n: nat)
    ensures n * AREA_PER_DROP <= w * h < (n + 1) * AREA_PER_DROP
    ensures w <= MAX_SIZE && h <= MAX_SIZE ==> n <= 20000
  {
    AreaBound(w, h);
    (w * h) / AREA_PER_DROP
  }

  /** `Math.floor(width * height / 10000)`: the number of cloud sprites. */
  function CloudCount(w: nat, h: nat): (n: nat)
    ensures n * AREA_PER_CLOUD <= w * h < (n + 1) * AREA_PER_CLOUD
    ensures w <= MAX_SIZE && h <= MAX_SIZE ==> n <= 100
  {
    AreaBound(w, h);
    (w * h) / AREA_PER_CLOUD
  }

  /** Whatever the element's size, the counts stay within 20000 drops and 100 clouds. */
  lemma CountsBounded(clientWidth: nat, clientHeight: nat)
    ensures RainCount(Cap(clientWidth), Cap(clientHeight)) <= 20000
    ensures CloudCount(Cap(clientWidth), Cap(clientHeight)) <= 100
  {
  }

  /** An element of at least 1000 x 1000 pixels gets exactly 20000 drops and 100 clouds. */
  lemma FullViewport(clientWidth: nat, clientHeight: nat)
    requires clientWidth >= MAX_SIZE && clientHeight >= MAX_SIZE
    ensures Cap(clientWidth) == MAX_SIZE && Cap(clientHeight) == MAX_SIZE
    ensures RainCount(Cap(clientWidth), Cap(clientHeight)) == 20000
    ensures CloudCount(Cap(clientWidth), Cap(clientHeight)) == 100
  {
  }
}

/** Elapsed time. */
module Clock {

  /** `Instant::elapsed().as_millis()`: never negative. */
  function Elapsed(now: int, t: int): nat { if now > t then now - t else 0 }

  /** `Instant::elapsed().as_secs()`. */
  function Secs(now: int, t: int): nat { Elapsed(now, t) / 1000 }
}

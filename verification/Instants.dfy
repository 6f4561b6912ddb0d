/** Points in time: real numbers of seconds. */
module Instants {

  type Instant = real

  predicate Before(a: Instant, b: Instant) {
    a < b
  }

  predicate AtMost(a: Instant, b: Instant) {
    a <= b
  }

  /** A whole second; the Unix time of an instant is its floor. */
  function Second(sec: int): Instant {
    sec as real
  }
}

/** The injected time source (src/token_bucket/token_bucket.h). Time points are real seconds. */
module Clocks {
  class FakeClock {
    var current: real

    constructor ()
      ensures current == 0.0
    {
      current := 0.0;
    }

    function Now(): real
      reads this
    {
      current
    }

    method Advance(duration: real)
      modifies this
      ensures Now() == old(Now()) + duration
    {
      current := current + duration;
    }

    method SetTime(time: real)
      modifies this
      ensures Now() == time
    {
      current := time;
    }
  }
}

/**
 * A timer that is driven by calls to Tick.
 */
module Timers {
  import opened Types
  import opened State

  /** The slow-path timer of one instance; owner stands for its callback. */
  class TickingTimer {
    const owner: InstanceID
    var ticksElapsed: nat
    var paused: bool

    ghost function Value(): Timer
      reads this
    {
      Timer(ticksElapsed, paused)
    }

    constructor (owner: InstanceID)
      ensures this.owner == owner && Value() == Timer(0, true)
    {
      this.owner := owner;
      ticksElapsed, paused := 0, true;
    }

    /** Counts one tick; fired says that the callback is due. */
    method Tick() returns (fired: bool)
      modifies this
      ensures old(paused) ==> !fired && Value() == old(Value())
      ensures !old(paused) ==>
                && Value() == Timer(old(ticksElapsed) + 1, fired)
                && (fired <==> old(ticksElapsed) + 1 >= SLOW_PATH_TIMEOUT)
    {
      fired := false;
      if paused {
        return;
      }
      ticksElapsed := ticksElapsed + 1;
      if ticksElapsed >= SLOW_PATH_TIMEOUT {
        paused := true;
        fired := true;
      }
    }

    method Reset()
      modifies this
      ensures Value() == Timer(0, false)
    {
      paused := false;
      ticksElapsed := 0;
    }

    method Stop()
      modifies this
      ensures Value() == Timer(0, true)
    {
      paused := true;
      ticksElapsed := 0;
    }

    predicate IsSet()
      reads this
    {
      !paused
    }
  }
}

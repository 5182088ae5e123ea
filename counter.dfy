/** `mutexRunner`: the live-worker counter of one conveyor. The two packages
    (pipeline and Minions) carry identical copies; both are modelled here. The
    mutex only serialises the updates, so in this sequential model each
    operation is a plain update of `x`. */
module Counter {

  class MutexRunner {
    var x: int

    /** `new(mutexRunner)`: the zero value. */
    constructor ()
      ensures x == 0
    {
      x := 0;
    }

    /** `popRun`: one worker has left; returns the new count. */
    method PopRun() returns (i: int)
      modifies this
      ensures x == old(x) - 1
      ensures i == x
    {
      x := x - 1;
      i := x;
    }

    /** `addRun`: one more worker; returns the new count, which becomes that
        worker's id. */
    method AddRun() returns (i: int)
      modifies this
      ensures x == old(x) + 1
      ensures i == x
    {
      x := x + 1;
      i := x;
    }

    /** `getCores`: reads the count and changes nothing. */
    method GetCores() returns (cores: int)
      ensures cores == x
    {
      cores := x;
    }
  }
}

/** Go channels and the name-keyed maps of channels the pipeline shares. A Go
    channel and a Go map are references: every holder sees the same one, so
    both are classes here. */
module Channels {

  /** A buffered channel: `buf` holds what was sent and not yet received, in
      order. Blocking is not modelled; a receive is only taken when `buf` is
      non-empty, as a `select` only takes a ready arm. */
  class Port<T> {
    var buf: seq<T>
    const capacity: nat

    /** `make(chan T, capacity)`. */
    constructor (capacity: nat)
      ensures this.capacity == capacity && buf == []
    {
      this.capacity := capacity;
      buf := [];
    }

    /** `<-ch` on a non-empty channel: the oldest value. */
    method Receive() returns (v: T)
      requires buf != []
      modifies this
      ensures v == old(buf)[0] && buf == old(buf)[1..]
    {
      v := buf[0];
      buf := buf[1..];
    }

    /** `len(ch)`. */
    method Len() returns (n: nat)
      ensures n == |buf|
    {
      n := |buf|;
    }
  }

  /** `map[string]chan T`, shared by reference. */
  class Registry<T> {
    var ports: map<string, Port<T>>

    /** `make(map[string]chan T)`. */
    constructor ()
      ensures ports == map[]
    {
      ports := map[];
    }

    /** `m[name]`: the channel under `name`, or nil when there is none. */
    function Lookup(name: string): (p: Port?<T>)
      reads this
      ensures p != null <==> name in ports
      ensures p != null ==> p == ports[name]
    {
      if name in ports then ports[name] else null
    }
  }
}

/**
 * The two Go runtime primitives the crawler core touches: channels, seen only
 * through the values sent on them, and sync.WaitGroup, seen only through its
 * counter. Blocking, receiving and capacity enforcement are not modelled: a
 * send is an append to the channel's history.
 */
module GoRuntime {

  /** A channel made by `make(chan T, capacity)`; `sent` lists every value sent on it, in order. */
  class Channel<T> {
    const capacity: int
    var sent: seq<T>

    constructor (capacity: int)
      ensures this.capacity == capacity && sent == []
    {
      this.capacity := capacity;
      sent := [];
    }

    /** `ch <- x` */
    method Send(x: T)
      modifies this
      ensures sent == old(sent) + [x]
    {
      sent := sent + [x];
    }
  }

  /** A sync.WaitGroup; `Done` lowers the counter by one. */
  class WaitGroup {
    var counter: int

    constructor ()
      ensures counter == 0
    {
      counter := 0;
    }

    method Done()
      modifies this
      ensures counter == old(counter) - 1
    {
      counter := counter - 1;
    }
  }
}

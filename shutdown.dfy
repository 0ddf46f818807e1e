/**
 * The process-wide registry of pollers (`SignalHandler`): on Ctrl+C it asks
 * every registered poller to stop.
 */
module Shutdown {
  import opened Driver

  class SignalHandler {
    var threads: seq<DriverThread>

    constructor ()
      ensures threads == []
    {
      threads := [];
    }

    /** `add_thread`: registers `th` after the threads already registered. */
    method AddThread(th: DriverThread)
      modifies this
      ensures threads == old(threads) + [th]
    {
      threads := threads + [th];
    }

    /**
     * `signal`: asks every registered poller, in registration order, to stop.
     * Only their `keep_running` flags change, so signalling again changes nothing.
     */
    method Signal()
      modifies threads
      ensures threads == old(threads)
      ensures forall i :: 0 <= i < |threads| ==> !threads[i].keepRunning
    {
      for i := 0 to |threads|
        invariant forall j :: 0 <= j < i ==> !threads[j].keepRunning
      {
        threads[i].Signal();
      }
    }
  }
}

/**
 * The poller (`DriverThread`): each pass of its loop decodes one report and
 * hands each pressed button's key code to the injector of that buzzer slot;
 * when its loop ends it signals its four injectors.
 */
module Driver {
  import opened Wrappers
  import opened Report
  import opened Injector

  /**
   * `deviceindex`: the evdev key code of every global button, 20 per
   * receiver (5 per buzzer) for two receivers: A..T, then U..Y, 0..9 and
   * comma, dot, slash, backslash, minus.
   */
  const DeviceIndex: seq<KeyCode> := [
    30, 48, 46, 32, 18,   33, 34, 35, 23, 36,   37, 38, 50, 49, 24,   25, 16, 19, 31, 20,
    22, 47, 17, 45, 21,   11,  2,  3,  4,  5,    6,  7,  8,  9, 10,   51, 52, 53, 43, 12
  ]

  /** `ecodes.KEY_A`, the key of the first receiver's first button. */
  const KEY_A: KeyCode := 30

  /** A receiver's window `deviceindex[offset .. offset + 20]` lies inside the table. */
  predicate OffsetFits(offset: int, deviceindex: seq<KeyCode>) {
    0 <= offset && offset + 20 <= |deviceindex|
  }

  /** What the poller hands slot's injector for decoded value `v`: nothing for -1, else `deviceindex[v + offset]`. */
  function Route(v: int, deviceindex: seq<KeyCode>, offset: int): Option<KeyCode>
    requires v == NoButton || 0 <= v < 20
    requires OffsetFits(offset, deviceindex)
  {
    if v == NoButton then None else Some(deviceindex[v + offset])
  }

  /** An injector's state after it is handed `r`. */
  function Deliver(s: Slot, r: Option<KeyCode>): Slot {
    match r
    case None => s
    case Some(k) => Offer(s, k)
  }

  /**
   * Buzzer `i` of a receiver only ever reaches keys of its own block of five
   * in the receiver's window, and a failed read reaches none.
   */
  lemma RouteWindow(read: Option<seq<bv8>>, i: nat, deviceindex: seq<KeyCode>, offset: int)
    requires i < 4 && OffsetFits(offset, deviceindex)
    ensures Route(ReadPacket(read)[i], deviceindex, offset).None? <==> ReadPacket(read)[i] == NoButton
    ensures read.None? ==> Route(ReadPacket(read)[i], deviceindex, offset).None?
    ensures Route(ReadPacket(read)[i], deviceindex, offset).Some? ==>
      exists j :: offset + 5 * i <= j < offset + 5 * i + 5 &&
        Route(ReadPacket(read)[i], deviceindex, offset) == Some(deviceindex[j])
  {
    var v := ReadPacket(read)[i];
    if v != NoButton {
      assert Route(v, deviceindex, offset) == Some(deviceindex[v + offset]);
    }
  }

  /** With `index * 20` as the offset, only receivers 0 and 1 have their window inside the 40-entry table. */
  lemma ReceiverOffsets(index: int)
    ensures |DeviceIndex| == 40
    ensures OffsetFits(index * 20, DeviceIndex) <==> 0 <= index < 2
  {
  }

  /**
   * A report with only button 0 of buzzer 0 pressed (whatever the high
   * nibble of byte 4), on the first receiver, reaches only injector 0 with
   * `KEY_A`, which a waiting injector then presses and releases.
   */
  lemma FirstButtonScenario(pkt: seq<bv8>)
    requires |pkt| >= 5 && pkt[2] == 0x01 && pkt[3] == 0 && pkt[4] & 0x0F == 0
    ensures ReadPacket(Some(pkt)) == [0, NoButton, NoButton, NoButton]
    ensures Route(0, DeviceIndex, 0) == Some(KEY_A)
    ensures Output(Deliver(Initial, Route(0, DeviceIndex, 0))) == Press(KEY_A)
  {
    SingleButton(pkt, 0, 0);
  }

  class DriverThread {
    /** The four injectors, one per buzzer slot. */
    const threads: seq<KeyboardSimu>
    /** Start of this receiver's window in the key table: 20 times its position. */
    const offset: int
    var keepRunning: bool

    ghost predicate Valid()
      reads this, threads
    {
      |threads| == 4 &&
      (forall i, j :: 0 <= i < j < 4 ==> threads[i] != threads[j]) &&
      forall i :: 0 <= i < 4 ==> threads[i].Valid()
    }

    constructor (offset: int)
      ensures this.offset == offset && keepRunning && Valid()
      ensures forall i :: 0 <= i < 4 ==>
        fresh(threads[i]) && threads[i].thNo == i && threads[i].State() == Initial && threads[i].written == []
    {
      var t0 := new KeyboardSimu(0);
      var t1 := new KeyboardSimu(1);
      var t2 := new KeyboardSimu(2);
      var t3 := new KeyboardSimu(3);
      threads := [t0, t1, t2, t3];
      this.offset := offset;
      keepRunning := true;
    }

    /**
     * The body of the `run` loop: decode one read and hand each pressed
     * button's key code to the injector of its slot. Injectors whose slot is
     * -1 are untouched; no injector writes anything.
     */
    method Dispatch(read: Option<seq<bv8>>, deviceindex: seq<KeyCode>)
      requires Valid() && OffsetFits(offset, deviceindex)
      modifies threads
      ensures Valid()
      ensures forall i :: 0 <= i < 4 ==> threads[i].written == old(threads[i].written)
      ensures forall i :: 0 <= i < 4 ==>
        threads[i].State() == Deliver(old(threads[i].State()), Route(ReadPacket(read)[i], deviceindex, offset))
    {
      var ctrlBtnArray := ReadPacket(read);
      HandOut(ctrlBtnArray, deviceindex);
    }

    /** The loop over the four decoded slot values (`range(len(ctrlBtnArray))`). */
    method HandOut(ctrlBtnArray: seq<int>, deviceindex: seq<KeyCode>)
      requires Valid() && OffsetFits(offset, deviceindex) && InRange(ctrlBtnArray)
      modifies threads
      ensures Valid()
      ensures forall i :: 0 <= i < 4 ==> threads[i].written == old(threads[i].written)
      ensures forall i :: 0 <= i < 4 ==>
        threads[i].State() == Deliver(old(threads[i].State()), Route(ctrlBtnArray[i], deviceindex, offset))
    {
      for index := 0 to 4
        invariant Valid()
        invariant forall i :: 0 <= i < 4 ==> threads[i].written == old(threads[i].written)
        invariant forall i :: 0 <= i < index ==>
          threads[i].State() == Deliver(old(threads[i].State()), Route(ctrlBtnArray[i], deviceindex, offset))
        invariant forall i :: index <= i < 4 ==> threads[i].State() == old(threads[i].State())
      {
        if ctrlBtnArray[index] != NoButton {
          threads[index].SimulateKey(deviceindex[ctrlBtnArray[index] + offset]);
        }
      }
    }

    /** What `run` does after its loop: signal each of the four injectors. */
    method SignalInjectors()
      requires Valid()
      modifies threads
      ensures Valid()
      ensures forall i :: 0 <= i < 4 ==>
        threads[i].State() == Stop(old(threads[i].State())) && threads[i].written == old(threads[i].written)
    {
      threads[0].Signal();
      threads[1].Signal();
      threads[2].Signal();
      threads[3].Signal();
    }

    /** `signal()`: the loop ends at its next test. */
    method Signal()
      modifies this`keepRunning
      ensures !keepRunning
    {
      keepRunning := false;
    }
  }
}

/**
 * The per-buzzer key injector (`KeyboardSimuThread`): a one-key debounce
 * state machine whose virtual keyboard is stood for by the log of key events
 * it writes.
 *
 * Each method runs as one atomic step; the pure functions below give the
 * effect of each step, and the lemmas follow any sequence of steps.
 */
module Injector {
  /** An evdev key code. */
  type KeyCode = int

  /** `ecodes.KEY_Q`, the key an injector holds before its first press. */
  const KEY_Q: KeyCode := 16

  /** Values of an `EV_KEY` event. */
  const KeyDown: int := 1
  const KeyUp: int := 0

  /** One `ui.write(ecodes.EV_KEY, code, value)`. */
  datatype KeyEvent = KeyEvent(code: KeyCode, value: int)

  /** The fields `waitingOnKey`, `key` and `keep_running` of an injector. */
  datatype Slot = Slot(waitingOnKey: bool, key: KeyCode, keepRunning: bool)

  /** The state `__init__` leaves. */
  const Initial: Slot := Slot(true, KEY_Q, true)

  /** A full press of `k`: key down, then (after the dwell) key up. */
  function Press(k: KeyCode): seq<KeyEvent> {
    [KeyEvent(k, KeyDown), KeyEvent(k, KeyUp)]
  }

  /** `simulateKey(k)`: a waiting injector takes the key; a busy one drops it. */
  function Offer(s: Slot, k: KeyCode): Slot {
    if s.waitingOnKey then s.(key := k, waitingOnKey := false) else s
  }

  /** The events one pass of the `run` loop writes: a press of the held key, if one is pending. */
  function Output(s: Slot): seq<KeyEvent> {
    if s.keepRunning && !s.waitingOnKey then Press(s.key) else []
  }

  /** The state after one pass of the `run` loop; once `keep_running` is false the loop has exited. */
  function Iterate(s: Slot): Slot {
    if s.keepRunning then s.(waitingOnKey := true) else s
  }

  /** `signal()`. */
  function Stop(s: Slot): Slot {
    s.(keepRunning := false)
  }

  /** The calls an injector receives. */
  datatype Call = SimulateKey(k: KeyCode) | RunOnce | Signal

  /** The state and written events after a sequence of calls. */
  datatype Trace = Trace(slot: Slot, log: seq<KeyEvent>)

  function Replay(s: Slot, calls: seq<Call>): Trace
    decreases |calls|
  {
    if calls == [] then Trace(s, [])
    else
      var next := match calls[0]
        case SimulateKey(k) => Trace(Offer(s, k), [])
        case RunOnce => Trace(Iterate(s), Output(s))
        case Signal => Trace(Stop(s), []);
      var rest := Replay(next.slot, calls[1..]);
      Trace(rest.slot, next.log + rest.log)
  }

  /** The log is a sequence of complete presses: every key down is followed at once by the key up of the same key. */
  predicate Paired(log: seq<KeyEvent>)
    decreases |log|
  {
    log == [] || (|log| >= 2 && log[..2] == Press(log[0].code) && Paired(log[2..]))
  }

  /** Key downs minus key ups of `k` in `log`: 1 while `k` is held down. */
  function Held(log: seq<KeyEvent>, k: KeyCode): int
    decreases |log|
  {
    if log == [] then 0
    else
      (if log[0].code != k then 0 else if log[0].value == KeyDown then 1 else if log[0].value == KeyUp then -1 else 0)
      + Held(log[1..], k)
  }

  /** Key downs minus key ups of all keys: the number of keys held down. */
  function Down(log: seq<KeyEvent>): int
    decreases |log|
  {
    if log == [] then 0
    else (if log[0].value == KeyDown then 1 else if log[0].value == KeyUp then -1 else 0) + Down(log[1..])
  }

  lemma {:induction false} PairedAppend(a: seq<KeyEvent>, b: seq<KeyEvent>)
    requires Paired(a) && Paired(b)
    ensures Paired(a + b)
    decreases |a|
  {
    if a == [] {
      assert a + b == b;
    } else {
      assert (a + b)[..2] == a[..2];
      assert (a + b)[2..] == a[2..] + b;
      PairedAppend(a[2..], b);
    }
  }

  /** Complete presses leave no key held down. */
  lemma {:induction false} PairedReleasesAll(log: seq<KeyEvent>, k: KeyCode)
    requires Paired(log)
    ensures Held(log, k) == 0
    decreases |log|
  {
    if log != [] {
      assert log[1..][1..] == log[2..];
      PairedReleasesAll(log[2..], k);
    }
  }

  /** At every point of a log of complete presses at most one key is down: one active key at a time. */
  lemma {:induction false} PairedOneKeyAtATime(log: seq<KeyEvent>, n: nat)
    requires Paired(log) && n <= |log|
    ensures Down(log[..n]) == n % 2
    decreases |log|
  {
    if n > 0 {
      assert log[..n][1..] == log[1..n];
      if n == 1 {
        assert log[1..n] == [];
      } else {
        assert log[1..n][1..] == log[2..][..n - 2];
        PairedOneKeyAtATime(log[2..], n - 2);
      }
    }
  }

  /** Whatever the order of calls, an injector writes only complete presses, so no key is left pressed. */
  lemma {:induction false} ReplayPaired(s: Slot, calls: seq<Call>)
    ensures Paired(Replay(s, calls).log)
    decreases |calls|
  {
    if calls != [] {
      var next := match calls[0]
        case SimulateKey(k) => Offer(s, k)
        case RunOnce => Iterate(s)
        case Signal => Stop(s);
      var first := if calls[0].RunOnce? then Output(s) else [];
      assert Paired(first) by {
        if first != [] {
          assert first[2..] == [];
        }
      }
      ReplayPaired(next, calls[1..]);
      PairedAppend(first, Replay(next, calls[1..]).log);
    }
  }

  /** Once signalled, an injector writes nothing more, even if a key was pending. */
  lemma {:induction false} SilentAfterStop(s: Slot, calls: seq<Call>)
    requires !s.keepRunning
    ensures Replay(s, calls).log == []
    ensures !Replay(s, calls).slot.keepRunning
    decreases |calls|
  {
    if calls != [] {
      var next := match calls[0]
        case SimulateKey(k) => Offer(s, k)
        case RunOnce => Iterate(s)
        case Signal => Stop(s);
      SilentAfterStop(next, calls[1..]);
    }
  }

  /** A busy injector drops every offered key: the held key is kept and no second press is written. */
  lemma DropWhileBusy(s: Slot, k1: KeyCode, k2: KeyCode)
    requires s.waitingOnKey && s.keepRunning
    ensures Offer(Offer(s, k1), k2) == Offer(s, k1)
    ensures Replay(s, [SimulateKey(k1), SimulateKey(k2), RunOnce]).log == Press(k1)
    ensures Replay(s, [SimulateKey(k1), SimulateKey(k2), RunOnce]).slot == s.(key := k1)
  {
    var calls := [SimulateKey(k1), SimulateKey(k2), RunOnce];
    var s1 := Offer(s, k1);
    var s2 := Offer(s1, k2);
    assert calls[1..] == [SimulateKey(k2), RunOnce];
    assert calls[1..][1..] == [RunOnce];
    assert [RunOnce][1..] == [];
    assert Replay(s2, [RunOnce]) == Trace(Iterate(s2), Output(s2));
    assert Replay(s1, calls[1..]) == Trace(Iterate(s2), Output(s2));
  }

  /** A press cycle: an offered key is pressed and released by the next pass, which makes the injector wait again. */
  lemma PressCycle(s: Slot, k: KeyCode)
    requires s.waitingOnKey && s.keepRunning
    ensures Output(Offer(s, k)) == Press(k)
    ensures Iterate(Offer(s, k)) == s.(key := k)
    ensures Output(s) == [] && Iterate(s) == s
  {
  }

  class KeyboardSimu {
    const thNo: int
    var keepRunning: bool
    var waitingOnKey: bool
    var key: KeyCode
    /** Every `ui.write` of an `EV_KEY` event on this injector's virtual keyboard, in order. */
    var written: seq<KeyEvent>

    function State(): Slot
      reads this
    {
      Slot(waitingOnKey, key, keepRunning)
    }

    ghost predicate Valid()
      reads this`written
    {
      Paired(written)
    }

    constructor (thNo: int)
      ensures this.thNo == thNo && State() == Initial && written == [] && Valid()
    {
      this.thNo := thNo;
      keepRunning := true;
      waitingOnKey := true;
      key := KEY_Q;
      written := [];
    }

    /** `simulateKey`. */
    method SimulateKey(k: KeyCode)
      modifies this`key, this`waitingOnKey
      ensures State() == Offer(old(State()), k) && written == old(written)
    {
      if waitingOnKey {
        key := k;
        waitingOnKey := false;
      }
    }

    /**
     * One test of the `run` loop's condition and, when it holds, one pass of
     * its body. `continued` is false when the loop has exited.
     */
    method RunOnce() returns (continued: bool)
      requires Valid()
      modifies this`written, this`waitingOnKey
      ensures Valid()
      ensures continued == old(keepRunning)
      ensures State() == Iterate(old(State()))
      ensures written == old(written) + Output(old(State()))
    {
      continued := keepRunning;
      if keepRunning {
        if !waitingOnKey {
          written := written + [KeyEvent(key, KeyDown)];
          // held down for the dwell time
          written := written + [KeyEvent(key, KeyUp)];
          waitingOnKey := true;
        }
        // idle sleep before the next test of keep_running
      }
      assert written == old(written) + Output(old(State()));
      assert Paired(Output(old(State()))) by {
        assert Press(old(key))[2..] == [];
      }
      PairedAppend(old(written), Output(old(State())));
    }

    /** `signal()`. */
    method Signal()
      modifies this`keepRunning
      ensures State() == Stop(old(State())) && written == old(written)
    {
      keepRunning := false;
    }
  }
}

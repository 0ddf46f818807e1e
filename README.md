# Buzz! buzzers userspace driver — verified model of its core

The driver binds a Buzz! wireless receiver (up to four buzzers, five buttons
each) to virtual keyboards. A poller thread (`DriverThread`) repeatedly reads
an 8-byte report from the receiver. It decodes the report into one value per
buzzer slot: the global button index that is pressed, or -1. It then hands the
matching key code to that slot's injector thread (`KeyboardSimuThread`). An
injector presses and releases one key at a time and drops keys offered while
it is busy. A signal handler (`SignalHandler`) asks every poller to stop, and
each poller signals its four injectors when its loop ends.

Modules:

- `Report` (report.dfy): the decoding in `Controller.read_packet`. It is a pure
  function of the read result, written as the source's chain of twenty tests in
  source order. A `Scan` records the slots written so far and whether an index
  past the end of the packet has raised. Per-buzzer priority functions
  (`Buzzer0` .. `Buzzer3`, gathered in `Decoded`) and the wiring table
  `Buzzers` (one block of five `Wire`s per buzzer) are the reference
  definitions the decoder is proved against.
- `Receiver` (receiver.dfy): the `SLOTS` table and `get_controller_handle`.
- `Injector` (injector.dfy): the class `KeyboardSimu`, with the fields
  `waitingOnKey`, `key` and `keepRunning`. Its virtual keyboard is stood for by
  `written`, the log of `EV_KEY` events. The pure step functions
  `Offer`/`Iterate`/`Output`/`Stop` and `Replay`, which follows any sequence of
  calls, carry the lemmas.
- `Driver` (driver.dfy): the class `DriverThread` (its four injectors, its
  offset and `keepRunning`), one pass of its loop body, and its end-of-run
  signalling. The key table `deviceindex` and the offset are parameters.
  `DeviceIndex` holds the source's 40 evdev key codes.
- `Shutdown` (shutdown.dfy): the class `SignalHandler`.

Each method is one atomic step; the threads themselves are not modelled.

Behaviour of the code worth knowing:

- A truncated packet is not reset to all -1. The slots filled before the
  out-of-range index are returned (`TruncatedReport`).
- When several bits of one buzzer are set, the test that comes LAST in the
  chain wins (`LaterTestWins`). It is not the first match.
- A key that is offered but not yet pressed when an injector is signalled is
  never pressed (`SilentAfterStop`).

## Model

| member | source | states |
|---|---|---|
| `Report.Test` | buzzBuzzers.py:102-103 | one bit test writes only its own slot, and only with its own button; reading past the end of the packet raises, and once raised nothing changes |
| `Report.Chain` | buzzBuzzers.py:102-147 | tests run in order keep the four slots, keep every slot -1 or one of its own buzzer's buttons, and do nothing after a raise |
| `Report.FirstBlock` | buzzBuzzers.py:101-111 | from an empty slot 0: with byte 2 present, slot 0 becomes the priority value `Buzzer0(byte 2)` and nothing else changes; otherwise the scan raises with the slots unchanged |
| `Report.SecondBlock` | buzzBuzzers.py:113-123 | from an empty slot 1: slot 1 becomes `Buzzer1(byte 2, byte 3)`; if byte 3 is missing, only the button-5 test has run before the raise |
| `Report.ThirdBlock` | buzzBuzzers.py:125-135 | from an empty slot 2: slot 2 becomes `Buzzer2(byte 3)` and nothing else changes |
| `Report.FourthBlock` | buzzBuzzers.py:137-147 | from an empty slot 3: slot 3 becomes `Buzzer3(byte 3, byte 4)`; if byte 4 is missing, only the button-15 test has run before the raise |
| `Report.Decompile` | buzzBuzzers.py:96-147 | every slot ends as -1 or one of its own five buttons (slot i in 5i..5i+4) |
| `Report.DecompileAllBlocks` | buzzBuzzers.py:101-147 | on a packet of 5 or more bytes the twenty tests give exactly the four priority values over bytes 2-4; on a 4-byte packet, slots 0-2 and the button-15 test |
| `Report.ReadPacket` | buzzBuzzers.py:95-158 | the result has 4 slots, each -1 or one of its own buzzer's buttons; a failed read gives all -1 |
| `Report.GuardIsRedundant` | buzzBuzzers.py:100-147 | for every packet, including short ones, the idle-marker guard never changes the result |
| `Report.FullReport` | buzzBuzzers.py:100-147 | a packet of 5 or more bytes decodes, slot by slot, to the priority definitions over bytes 2-4 |
| `Report.IdleReports` | buzzBuzzers.py:96-158 | a failed read, or status bytes exactly (0x00, 0x00, 0xF0), gives `[-1,-1,-1,-1]` |
| `Report.TruncatedReport` | buzzBuzzers.py:100-158 | a packet ending before byte 2 gives all -1; a 3-byte packet keeps slot 0 and the button-5 test; a 4-byte packet keeps slots 0-2 and the button-15 test |
| `Report.HighNibbleIgnored` | buzzBuzzers.py:140-147 | the high nibble of byte 4 takes no part in the priority decoding |
| `Report.StatusBitsOnly` | buzzBuzzers.py:100-147 | a full report's result depends only on bytes 2 and 3 and the low nibble of byte 4 |
| `Report.SingleInBlock` | buzzBuzzers.py:102-147 | for every wire of the table: its bit alone decodes to its button in its own slot and -1 elsewhere |
| `Report.LaterInBlock` | buzzBuzzers.py:102-147 | for every two wires of one block: both bits together decode to the button of the later test, -1 elsewhere |
| `Report.SingleButton` | buzzBuzzers.py:95-158 | a report with exactly one wired bit set returns that button in its slot and -1 in the other three |
| `Report.LaterTestWins` | buzzBuzzers.py:95-158 | a report with two bits of one buzzer set returns the button whose test comes later in the chain; the other slots are -1 |
| `Receiver.GetControllerHandle` | buzzBuzzers.py:74-75 | defined exactly for Python indices -4..3 into `SLOTS` (line 26); slot n gets IN endpoint 0x81+2n, with the direction bit set, and OUT endpoint with the same number and the direction bit clear |
| `Injector.KeyboardSimu.constructor` | buzzBuzzers.py:212-218 | starts waiting, holding `KEY_Q`, running, with nothing written |
| `Injector.KeyboardSimu.SimulateKey` | buzzBuzzers.py:240-244 | a waiting injector takes the key and becomes busy; a busy one is unchanged; only `key` and `waitingOnKey` may change, so nothing is written |
| `Injector.KeyboardSimu.RunOnce` | buzzBuzzers.py:222-235 | returns the loop condition; a busy, running injector appends exactly (key,1) then (key,0) and waits again; otherwise nothing is appended; the log stays made of complete presses |
| `Injector.KeyboardSimu.Signal` | buzzBuzzers.py:247-249 | clears `keep_running` and changes nothing else |
| `Injector.PressCycle` | buzzBuzzers.py:222-244 | an offered key is pressed and released by the next pass, which leaves the injector waiting; a waiting injector's pass writes nothing |
| `Injector.DropWhileBusy` | buzzBuzzers.py:240-244 | a second key offered to a busy injector is dropped: the first key is kept, and only its press is written |
| `Injector.ReplayPaired` | buzzBuzzers.py:222-249 | for any sequence of calls, the log alternates key down / key up on the same key |
| `Injector.PairedReleasesAll` | buzzBuzzers.py:226-232 | a log of complete presses leaves every key released |
| `Injector.PairedOneKeyAtATime` | buzzBuzzers.py:226-232 | at every point of such a log, at most one key is down |
| `Injector.SilentAfterStop` | buzzBuzzers.py:222-249 | after `signal`, no call writes any event, and the injector stays stopped |
| `Driver.RouteWindow` | buzzBuzzers.py:192-195 | slot i receives a key exactly when its value is not -1; the key comes from the i-th block of five in the receiver's window; a failed read routes nothing |
| `Driver.ReceiverOffsets` | buzzBuzzers.py:342-345 | with offset index*20 and the 40-entry table, every lookup is in bounds exactly for receivers 0 and 1 |
| `Driver.FirstButtonScenario` | buzzBuzzers.py:189-195 | a report with only bit 0x01 of byte 2 set (byte 4's high nibble free) decodes to button 0 of slot 0 alone, which on the first receiver is `KEY_A`, pressed and released by a waiting injector |
| `Driver.DriverThread.constructor` | buzzBuzzers.py:169-174 | four distinct fresh injectors numbered 0-3 in their initial state; running; the given offset |
| `Driver.DriverThread.Dispatch` | buzzBuzzers.py:189-195 | for each slot i of the decoded read, only injector i is offered `deviceindex[v + offset]`, and only when its value v is not -1; other injectors are untouched; nothing is written |
| `Driver.DriverThread.HandOut` | buzzBuzzers.py:190-195 | the `for index in range(len(ctrlBtnArray))` loop over the four decoded slot values: injector i is offered its key exactly when slot i is not -1; the injectors stay distinct and their logs unchanged |
| `Driver.DriverThread.SignalInjectors` | buzzBuzzers.py:197-200 | all four injectors have `keep_running` cleared, with nothing else changed |
| `Driver.DriverThread.Signal` | buzzBuzzers.py:205-207 | clears the poller's `keep_running` and nothing else |
| `Shutdown.SignalHandler.constructor` | buzzBuzzers.py:257-258 | starts with no registered threads |
| `Shutdown.SignalHandler.AddThread` | buzzBuzzers.py:260-261 | appends the thread and keeps the earlier entries in order |
| `Shutdown.SignalHandler.Signal` | buzzBuzzers.py:263-266 | every registered poller has `keep_running` cleared; the list and everything else are unchanged, so a repeat is idempotent |

## Left out

- USB access through pyusb is foreign I/O and is not modelled. This covers opening the device, kernel-driver detach, configuration, interface claim, `releaseInterface`, `reset`, and bus enumeration (`WirelessReceiver`, lines 33-73 and 327-334). The result of `interruptRead` is an input, `Option<seq<bv8>>`. None stands for a read that raised, such as a timeout.
- The evdev `UInput` device (creation, `syn`, `close`) is not modelled. Its `write` calls are recorded in the `written` log.
- The sleeps (300 ms dwell, 100 ms idle) and the 1000 ms read timeout are real time and are not modelled.
- The poller's `while self.keep_running:` loop (line 187) is not a method of its own: one pass is `Dispatch`, the loop's end is `SignalInjectors`, and `Signal` clears the flag the loop tests.
- Thread start and scheduling are not modelled. This includes the unsynchronised sharing of `waitingOnKey`/`key` between a poller and its injectors, and the main thread's `is_alive` busy-wait and release ordering. Every method is one atomic step, so the order in which `SignalHandler.Signal` visits the pollers cannot be observed in the model.
- `Driver.DriverThread.Dispatch` and `Driver.DriverThread.HandOut`: require the receiver's 20-entry window to fit the key table. A third receiver (offset 40) would raise an uncaught IndexError at its first button press, ending that poller without signalling its injectors. The model does not include that path.
- `Controller.__init__`'s unused `driver_fn`/`present` fields, the `signal.signal` registration, the `print` statements and the commented-out `find_receiver` are not modelled.

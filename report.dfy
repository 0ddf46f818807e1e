/**
 * Decoding of one receiver report (`Controller.read_packet`).
 *
 * The wireless receiver multiplexes the buttons of four buzzers into the
 * status bytes 2, 3 and 4 of an 8-byte report. The decoder returns one value
 * per buzzer slot: the global button index 0..19 that is pressed, or -1.
 * Each slot is written by a chain of `if` tests in a fixed order, so when
 * several bits of a slot are set the LAST matching test wins.
 */
module Report {
  import opened Wrappers

  /** Slot value meaning "no button of this buzzer is pressed". */
  const NoButton: int := -1

  /** `[-1] * 4`: the value returned for a failed read or an idle report. */
  const Idle: seq<int> := [NoButton, NoButton, NoButton, NoButton]

  /** Buzzer `i` may only report -1 or one of its own five buttons 5*i .. 5*i+4. */
  predicate InRange(r: seq<int>) {
    |r| == 4 && forall i :: 0 <= i < 4 ==> r[i] == NoButton || 5 * i <= r[i] < 5 * i + 5
  }

  /** One test of the chain: `if bool(pkt[byte] & mask): ctrlBtnArray[slot] = button`. */
  datatype Wire = Wire(byte: nat, mask: bv8, slot: nat, button: int)

  /** A test that writes one of its own buzzer's buttons into that buzzer's slot. */
  predicate Wired(w: Wire) {
    w.slot < 4 && 5 * w.slot <= w.button < 5 * w.slot + 5
  }

  predicate AllWired(ws: seq<Wire>) {
    forall i :: 0 <= i < |ws| ==> Wired(ws[i])
  }

  // The twenty tests of `read_packet`, block by block, in the driver's test order.

  const FirstWires: seq<Wire> :=
    [Wire(2, 0x01, 0, 0), Wire(2, 0x10, 0, 4), Wire(2, 0x08, 0, 3), Wire(2, 0x04, 0, 2), Wire(2, 0x02, 0, 1)]
  const SecondWires: seq<Wire> :=
    [Wire(2, 0x20, 1, 5), Wire(3, 0x02, 1, 9), Wire(3, 0x01, 1, 8), Wire(2, 0x80, 1, 7), Wire(2, 0x40, 1, 6)]
  const ThirdWires: seq<Wire> :=
    [Wire(3, 0x04, 2, 10), Wire(3, 0x40, 2, 14), Wire(3, 0x20, 2, 13), Wire(3, 0x10, 2, 12), Wire(3, 0x08, 2, 11)]
  const FourthWires: seq<Wire> :=
    [Wire(3, 0x80, 3, 15), Wire(4, 0x08, 3, 19), Wire(4, 0x04, 3, 18), Wire(4, 0x02, 3, 17), Wire(4, 0x01, 3, 16)]

  /** The four blocks: the receiver's bit-to-button wiring. */
  const Buzzers: seq<seq<Wire>> := [FirstWires, SecondWires, ThirdWires, FourthWires]

  /**
   * Progress through the chain: the slot array written so far, and whether an
   * index past the end of the packet has raised, which skips every later test
   * and hands the partly filled array to the `except` clause.
   */
  datatype Scan = Scan(slots: seq<int>, raised: bool)

  /** One test: it writes only its own slot, and only its own button; after a raise nothing changes. */
  function Test(pkt: seq<bv8>, w: Wire, s: Scan): (r: Scan)
    requires w.slot < |s.slots|
    ensures r.slots == s.slots || r.slots == s.slots[w.slot := w.button]
    ensures r.raised <==> s.raised || w.byte >= |pkt|
    ensures r.raised ==> r.slots == s.slots
  {
    if s.raised then s
    else if w.byte >= |pkt| then s.(raised := true)
    else if pkt[w.byte] & w.mask != 0 then s.(slots := s.slots[w.slot := w.button])
    else s
  }

  /** The tests `ws` performed one after another. */
  function Chain(pkt: seq<bv8>, ws: seq<Wire>, s: Scan): (r: Scan)
    requires AllWired(ws) && |s.slots| == 4
    ensures |r.slots| == 4
    ensures s.raised ==> r == s
    ensures InRange(s.slots) ==> InRange(r.slots)
    decreases |ws|
  {
    if ws == [] then s else Chain(pkt, ws[1..], Test(pkt, ws[0], s))
  }

  lemma BlocksWired()
    ensures AllWired(FirstWires) && AllWired(SecondWires) && AllWired(ThirdWires) && AllWired(FourthWires)
  {
  }

  /** The four blocks of tests in the driver's order, starting from `[-1] * 4`. */
  function Decompile(pkt: seq<bv8>): (r: Scan)
    ensures InRange(r.slots)
  {
    BlocksWired();
    var s0 := Scan(Idle, false);
    assert InRange(s0.slots);
    var s1 := Chain(pkt, FirstWires, s0);
    var s2 := Chain(pkt, SecondWires, s1);
    var s3 := Chain(pkt, ThirdWires, s2);
    Chain(pkt, FourthWires, s3)
  }

  /**
   * The idle-marker guard `pkt[2] != 0 or pkt[3] != 0 or pkt[4] != 0xF0`,
   * evaluated left to right with short-circuiting; None when it indexes past
   * the end of the packet.
   */
  function NotIdleMarker(pkt: seq<bv8>): Option<bool> {
    if |pkt| <= 2 then None
    else if pkt[2] != 0 then Some(true)
    else if |pkt| <= 3 then None
    else if pkt[3] != 0 then Some(true)
    else if |pkt| <= 4 then None
    else Some(pkt[4] != 0xF0)
  }

  /**
   * `read_packet` after the interrupt read: `read` is None when the read
   * raised (timeout or bus error), otherwise the bytes it returned.
   */
  function ReadPacket(read: Option<seq<bv8>>): (r: seq<int>)
    ensures InRange(r)
    ensures read.None? ==> r == Idle
  {
    match read
    case None => Idle
    case Some(pkt) =>
      match NotIdleMarker(pkt)
      case None => Idle
      case Some(decode) => if decode then Decompile(pkt).slots else Idle
  }

  // Reference definitions: for each buzzer, its five buttons listed from the
  // highest priority down (the reverse of the order in which they are tested).

  function Buzzer0(b2: bv8): int {
    if b2 & 0x02 != 0 then 1
    else if b2 & 0x04 != 0 then 2
    else if b2 & 0x08 != 0 then 3
    else if b2 & 0x10 != 0 then 4
    else if b2 & 0x01 != 0 then 0
    else NoButton
  }

  function Buzzer1(b2: bv8, b3: bv8): int {
    if b2 & 0x40 != 0 then 6
    else if b2 & 0x80 != 0 then 7
    else if b3 & 0x01 != 0 then 8
    else if b3 & 0x02 != 0 then 9
    else if b2 & 0x20 != 0 then 5
    else NoButton
  }

  function Buzzer2(b3: bv8): int {
    if b3 & 0x08 != 0 then 11
    else if b3 & 0x10 != 0 then 12
    else if b3 & 0x20 != 0 then 13
    else if b3 & 0x40 != 0 then 14
    else if b3 & 0x04 != 0 then 10
    else NoButton
  }

  function Buzzer3(b3: bv8, b4: bv8): int {
    if b4 & 0x01 != 0 then 16
    else if b4 & 0x02 != 0 then 17
    else if b4 & 0x04 != 0 then 18
    else if b4 & 0x08 != 0 then 19
    else if b3 & 0x80 != 0 then 15
    else NoButton
  }

  /** The reference decoding of status bytes 2, 3 and 4: each buzzer's priority value. */
  function Decoded(b2: bv8, b3: bv8, b4: bv8): seq<int> {
    [Buzzer0(b2), Buzzer1(b2, b3), Buzzer2(b3), Buzzer3(b3, b4)]
  }

  /** A block of five tests is the five tests nested. */
  lemma Unroll5(pkt: seq<bv8>, ws: seq<Wire>, s: Scan)
    requires |ws| == 5 && AllWired(ws) && |s.slots| == 4
    ensures Chain(pkt, ws, s) ==
      Test(pkt, ws[4], Test(pkt, ws[3], Test(pkt, ws[2], Test(pkt, ws[1], Test(pkt, ws[0], s)))))
  {
    var s1 := Test(pkt, ws[0], s);
    var s2 := Test(pkt, ws[1], s1);
    var s3 := Test(pkt, ws[2], s2);
    var s4 := Test(pkt, ws[3], s3);
    var s5 := Test(pkt, ws[4], s4);
    assert ws[4..][1..] == [];
    assert Chain(pkt, ws[4..], s4) == s5;
    assert ws[3..][1..] == ws[4..];
    assert Chain(pkt, ws[3..], s3) == s5;
    assert ws[2..][1..] == ws[3..];
    assert Chain(pkt, ws[2..], s2) == s5;
    assert ws[1..][1..] == ws[2..];
    assert Chain(pkt, ws[1..], s1) == s5;
  }

  // Each block of five tests on its own, from any array whose own slot is
  // still -1.

  lemma FirstBlock(pkt: seq<bv8>, s: Scan)
    requires |s.slots| == 4 && s.slots[0] == NoButton && !s.raised
    ensures |pkt| >= 3 ==> Chain(pkt, FirstWires, s) == s.(slots := s.slots[0 := Buzzer0(pkt[2])])
    ensures |pkt| < 3 ==> Chain(pkt, FirstWires, s) == s.(raised := true)
  {
    BlocksWired();
    Unroll5(pkt, FirstWires, s);
  }

  lemma SecondBlock(pkt: seq<bv8>, s: Scan)
    requires |s.slots| == 4 && s.slots[1] == NoButton && !s.raised && |pkt| >= 3
    ensures |pkt| >= 4 ==> Chain(pkt, SecondWires, s) == s.(slots := s.slots[1 := Buzzer1(pkt[2], pkt[3])])
    ensures |pkt| == 3 ==>
      Chain(pkt, SecondWires, s) == Scan(s.slots[1 := if pkt[2] & 0x20 != 0 then 5 else NoButton], true)
  {
    BlocksWired();
    Unroll5(pkt, SecondWires, s);
  }

  lemma ThirdBlock(pkt: seq<bv8>, s: Scan)
    requires |s.slots| == 4 && s.slots[2] == NoButton && !s.raised && |pkt| >= 4
    ensures Chain(pkt, ThirdWires, s) == s.(slots := s.slots[2 := Buzzer2(pkt[3])])
  {
    BlocksWired();
    Unroll5(pkt, ThirdWires, s);
  }

  lemma FourthBlock(pkt: seq<bv8>, s: Scan)
    requires |s.slots| == 4 && s.slots[3] == NoButton && !s.raised && |pkt| >= 4
    ensures |pkt| >= 5 ==> Chain(pkt, FourthWires, s) == s.(slots := s.slots[3 := Buzzer3(pkt[3], pkt[4])])
    ensures |pkt| == 4 ==>
      Chain(pkt, FourthWires, s) == Scan(s.slots[3 := if pkt[3] & 0x80 != 0 then 15 else NoButton], true)
  {
    BlocksWired();
    Unroll5(pkt, FourthWires, s);
  }

  // The blocks in sequence, each starting where the previous one left the
  // slot array: its own slot still -1, the earlier slots holding any values
  // b0, b1, b2.

  /** The first buzzer's five tests, all on byte 2. */
  lemma FirstBuzzer(pkt: seq<bv8>, s: Scan)
    requires s == Scan(Idle, false)
    ensures |pkt| >= 3 ==> Chain(pkt, FirstWires, s) == Scan([Buzzer0(pkt[2]), NoButton, NoButton, NoButton], false)
    ensures |pkt| < 3 ==> Chain(pkt, FirstWires, s) == Scan(Idle, true)
  {
    FirstBlock(pkt, s);
    if |pkt| >= 3 {
      assert s.slots[0 := Buzzer0(pkt[2])] == [Buzzer0(pkt[2]), NoButton, NoButton, NoButton];
    }
  }

  /** The second buzzer's five tests, on bytes 2, 3, 3, 2 and 2: a 3-byte packet gets as far as button 5. */
  lemma SecondBuzzer(pkt: seq<bv8>, s: Scan, b0: int)
    requires |pkt| >= 3 && s == Scan([b0, NoButton, NoButton, NoButton], false)
    ensures |pkt| >= 4 ==> Chain(pkt, SecondWires, s) == Scan([b0, Buzzer1(pkt[2], pkt[3]), NoButton, NoButton], false)
    ensures |pkt| == 3 ==>
      Chain(pkt, SecondWires, s) == Scan([b0, if pkt[2] & 0x20 != 0 then 5 else NoButton, NoButton, NoButton], true)
  {
    SecondBlock(pkt, s);
    if |pkt| >= 4 {
      assert s.slots[1 := Buzzer1(pkt[2], pkt[3])] == [b0, Buzzer1(pkt[2], pkt[3]), NoButton, NoButton];
    } else {
      var v := if pkt[2] & 0x20 != 0 then 5 else NoButton;
      assert s.slots[1 := v] == [b0, v, NoButton, NoButton];
    }
  }

  /** The third buzzer's five tests, all on byte 3. */
  lemma ThirdBuzzer(pkt: seq<bv8>, s: Scan, b0: int, b1: int)
    requires |pkt| >= 4 && s == Scan([b0, b1, NoButton, NoButton], false)
    ensures Chain(pkt, ThirdWires, s) == Scan([b0, b1, Buzzer2(pkt[3]), NoButton], false)
  {
    ThirdBlock(pkt, s);
    assert s.slots[2 := Buzzer2(pkt[3])] == [b0, b1, Buzzer2(pkt[3]), NoButton];
  }

  /** The fourth buzzer's five tests, on byte 3 and then four times on byte 4: a 4-byte packet gets as far as button 15. */
  lemma FourthBuzzer(pkt: seq<bv8>, s: Scan, b0: int, b1: int, b2: int)
    requires |pkt| >= 4 && s == Scan([b0, b1, b2, NoButton], false)
    ensures |pkt| >= 5 ==> Chain(pkt, FourthWires, s) == Scan([b0, b1, b2, Buzzer3(pkt[3], pkt[4])], false)
    ensures |pkt| == 4 ==>
      Chain(pkt, FourthWires, s) == Scan([b0, b1, b2, if pkt[3] & 0x80 != 0 then 15 else NoButton], true)
  {
    FourthBlock(pkt, s);
    if |pkt| >= 5 {
      assert s.slots[3 := Buzzer3(pkt[3], pkt[4])] == [b0, b1, b2, Buzzer3(pkt[3], pkt[4])];
    } else {
      var v := if pkt[3] & 0x80 != 0 then 15 else NoButton;
      assert s.slots[3 := v] == [b0, b1, b2, v];
    }
  }

  // The decoder by packet length: the first buzzer needs byte 2, the second
  // and third byte 3, the fourth byte 4. A block cut short by the end of the
  // packet keeps the tests that ran before the raise; later blocks do nothing.

  lemma DecompileNoStatus(pkt: seq<bv8>)
    requires |pkt| < 3
    ensures Decompile(pkt).slots == Idle
  {
    FirstBuzzer(pkt, Scan(Idle, false));
  }

  lemma DecompileThreeBytes(pkt: seq<bv8>)
    requires |pkt| == 3
    ensures Decompile(pkt).slots == [Buzzer0(pkt[2]), if pkt[2] & 0x20 != 0 then 5 else NoButton, NoButton, NoButton]
  {
    BlocksWired();
    var s0 := Scan(Idle, false);
    FirstBuzzer(pkt, s0);
    SecondBuzzer(pkt, Chain(pkt, FirstWires, s0), Buzzer0(pkt[2]));
  }

  /** Bytes 2 and 3 present: all four blocks run; without byte 4 the last block stops after button 15's test. */
  lemma DecompileAllBlocks(pkt: seq<bv8>)
    requires |pkt| >= 4
    ensures |pkt| == 4 ==>
      Decompile(pkt).slots ==
      [Buzzer0(pkt[2]), Buzzer1(pkt[2], pkt[3]), Buzzer2(pkt[3]), if pkt[3] & 0x80 != 0 then 15 else NoButton]
    ensures |pkt| >= 5 ==> Decompile(pkt).slots == Decoded(pkt[2], pkt[3], pkt[4])
  {
    BlocksWired();
    var b0, b1, b2 := Buzzer0(pkt[2]), Buzzer1(pkt[2], pkt[3]), Buzzer2(pkt[3]);
    var s0 := Scan(Idle, false);
    FirstBuzzer(pkt, s0);
    var s1 := Chain(pkt, FirstWires, s0);
    SecondBuzzer(pkt, s1, b0);
    var s2 := Chain(pkt, SecondWires, s1);
    ThirdBuzzer(pkt, s2, b0, b1);
    FourthBuzzer(pkt, Chain(pkt, ThirdWires, s2), b0, b1, b2);
  }

  /** The idle-marker guard never changes the outcome: every packet decodes as if the twenty tests ran unguarded. */
  lemma GuardIsRedundant(pkt: seq<bv8>)
    ensures ReadPacket(Some(pkt)) == Decompile(pkt).slots
  {
    if |pkt| < 3 {
      DecompileNoStatus(pkt);
    } else if |pkt| == 3 {
      DecompileThreeBytes(pkt);
    } else if |pkt| == 4 {
      DecompileAllBlocks(pkt);
    } else {
      DecompileAllBlocks(pkt);
    }
  }

  /** A full report decodes slot by slot to the priority definitions. */
  lemma FullReport(pkt: seq<bv8>)
    requires |pkt| >= 5
    ensures ReadPacket(Some(pkt)) == Decoded(pkt[2], pkt[3], pkt[4])
  {
    GuardIsRedundant(pkt);
    DecompileAllBlocks(pkt);
  }

  /** A failed read, and a complete report whose status bytes are the idle marker, decode to all -1. */
  lemma IdleReports(read: Option<seq<bv8>>)
    requires read.Some? ==> |read.value| >= 5 && read.value[2] == 0 && read.value[3] == 0 && read.value[4] == 0xF0
    ensures ReadPacket(read) == Idle
  {
  }

  /**
   * A packet shorter than five bytes is not reset to all -1: the slots
   * filled before the first out-of-range index are returned. A 3-byte packet
   * keeps the first buzzer and the test of button 5, a 4-byte packet the
   * first three buzzers and the test of button 15.
   */
  lemma TruncatedReport(pkt: seq<bv8>)
    requires |pkt| < 5
    ensures |pkt| < 3 ==> ReadPacket(Some(pkt)) == Idle
    ensures |pkt| == 3 ==>
      ReadPacket(Some(pkt)) == [Buzzer0(pkt[2]), if pkt[2] & 0x20 != 0 then 5 else NoButton, NoButton, NoButton]
    ensures |pkt| == 4 ==>
      ReadPacket(Some(pkt)) ==
      [Buzzer0(pkt[2]), Buzzer1(pkt[2], pkt[3]), Buzzer2(pkt[3]), if pkt[3] & 0x80 != 0 then 15 else NoButton]
  {
    GuardIsRedundant(pkt);
    if |pkt| < 3 {
      DecompileNoStatus(pkt);
    } else if |pkt| == 3 {
      DecompileThreeBytes(pkt);
    } else {
      DecompileAllBlocks(pkt);
    }
  }

  /** The high nibble of byte 4 (the idle marker's 0xF0) takes no part in the decoding. */
  lemma HighNibbleIgnored(b2: bv8, b3: bv8, b4: bv8)
    ensures Decoded(b2, b3, b4) == Decoded(b2, b3, b4 & 0x0F)
  {
  }

  /** A complete report's decoding depends only on bytes 2 and 3 and the low nibble of byte 4. */
  lemma StatusBitsOnly(p: seq<bv8>, q: seq<bv8>)
    requires |p| >= 5 && |q| >= 5
    requires p[2] == q[2] && p[3] == q[3] && p[4] & 0x0F == q[4] & 0x0F
    ensures ReadPacket(Some(p)) == ReadPacket(Some(q))
  {
    FullReport(p);
    FullReport(q);
    HighNibbleIgnored(p[2], p[3], p[4]);
    HighNibbleIgnored(q[2], q[3], q[4]);
  }

  function Bits(w: Wire, byte: nat): bv8 {
    if w.byte == byte then w.mask else 0
  }

  /** The status of `pkt` has exactly the bits of tests `a` and `b` set (byte 4's high nibble is free). */
  predicate Shows(pkt: seq<bv8>, a: Wire, b: Wire) {
    |pkt| >= 5 &&
    pkt[2] == Bits(a, 2) | Bits(b, 2) &&
    pkt[3] == Bits(a, 3) | Bits(b, 3) &&
    pkt[4] & 0x0F == Bits(a, 4) | Bits(b, 4)
  }

  /** The reference decoding of the status bytes in which exactly the bits of tests `a` and `b` are set. */
  function DecodedPair(a: Wire, b: Wire): seq<int> {
    Decoded(Bits(a, 2) | Bits(b, 2), Bits(a, 3) | Bits(b, 3), Bits(a, 4) | Bits(b, 4))
  }

  lemma SingleInBlock(ws: seq<Wire>, g: nat, k: nat)
    requires g < 4 && ws == Buzzers[g] && k < 5
    ensures DecodedPair(ws[k], ws[k]) == Idle[g := ws[k].button]
  {
    if g == 0 {
      assert ws == FirstWires;
    } else if g == 1 {
      assert ws == SecondWires;
    } else if g == 2 {
      assert ws == ThirdWires;
    } else {
      assert ws == FourthWires;
    }
  }

  lemma LaterInBlock(ws: seq<Wire>, g: nat, j: nat, k: nat)
    requires g < 4 && ws == Buzzers[g] && j < k < 5
    ensures DecodedPair(ws[j], ws[k]) == Idle[g := ws[k].button]
  {
    if g == 0 {
      assert ws == FirstWires;
    } else if g == 1 {
      assert ws == SecondWires;
    } else if g == 2 {
      assert ws == ThirdWires;
    } else {
      assert ws == FourthWires;
    }
  }

  /** A report in which exactly one button is pressed decodes to that button in its buzzer's slot and -1 elsewhere. */
  lemma SingleButton(pkt: seq<bv8>, g: nat, k: nat)
    requires g < 4 && k < 5 && Shows(pkt, Buzzers[g][k], Buzzers[g][k])
    ensures ReadPacket(Some(pkt)) == Idle[g := Buzzers[g][k].button]
  {
    FullReport(pkt);
    HighNibbleIgnored(pkt[2], pkt[3], pkt[4]);
    SingleInBlock(Buzzers[g], g, k);
  }

  /**
   * Two buttons of one buzzer pressed together: the slot holds the button
   * whose test comes later in `read_packet`, the other slots -1.
   */
  lemma LaterTestWins(pkt: seq<bv8>, g: nat, j: nat, k: nat)
    requires g < 4 && j < k < 5 && Shows(pkt, Buzzers[g][j], Buzzers[g][k])
    ensures ReadPacket(Some(pkt)) == Idle[g := Buzzers[g][k].button]
  {
    FullReport(pkt);
    HighNibbleIgnored(pkt[2], pkt[3], pkt[4]);
    LaterInBlock(Buzzers[g], g, j, k);
  }
}

/**
 * The wireless receiver's fixed USB layout (`SLOTS`) and the lookup that
 * hands a controller its device handle and endpoints.
 */
module Receiver {
  import opened Wrappers

  /**
   * One controller slot of the receiver: the USB interface number, the
   * interrupt-IN endpoint read for button reports, and the OUT endpoint
   * meant for LED and rumble settings.
   */
  datatype SlotLayout = SlotLayout(interface: nat, inEndpoint: bv8, outEndpoint: bv8)

  /** `SLOTS`: four controllers on four interfaces, two endpoints each. */
  const Slots: seq<SlotLayout> := [
    SlotLayout(0, 0x81, 0x01),
    SlotLayout(2, 0x83, 0x03),
    SlotLayout(4, 0x85, 0x05),
    SlotLayout(6, 0x87, 0x07)
  ]

  /** What a `Controller` is built from: the shared device handle and its two endpoint addresses. */
  datatype ControllerHandle<H> = ControllerHandle(dev: H, inEndpoint: bv8, outEndpoint: bv8)

  /**
   * `get_controller_handle(number)`: indexes `SLOTS` as Python does, so
   * -4 .. -1 count from the end and any other number raises (None here).
   * Slot `n`'s IN endpoint is 0x81 + 2n with the direction bit set; its OUT
   * endpoint has the same endpoint number with the direction bit clear.
   */
  function GetControllerHandle<H>(dev: H, number: int): (r: Option<ControllerHandle<H>>)
    ensures r.Some? <==> -|Slots| <= number < |Slots|
    ensures r.Some? ==>
      var n := if number < 0 then number + 4 else number;
      r.value.dev == dev &&
      r.value.inEndpoint as int == 0x81 + 2 * n &&
      r.value.inEndpoint & 0x80 == 0x80 &&
      r.value.outEndpoint == r.value.inEndpoint & 0x7F
  {
    if 0 <= number < |Slots| then
      Some(ControllerHandle(dev, Slots[number].inEndpoint, Slots[number].outEndpoint))
    else if -|Slots| <= number < 0 then
      Some(ControllerHandle(dev, Slots[number + |Slots|].inEndpoint, Slots[number + |Slots|].outEndpoint))
    else
      None
  }
}

/**
 * The packet that flows from a device's buffer to the gateway: the dictionary
 * built in device.py with the `received_at` key that network.py adds on arrival.
 */
module Packets {
  import opened Wrappers

  /** `receivedAt` is None while the packet is buffered or in flight. */
  datatype Packet = Packet(timestamp: real, value: real, device: string, receivedAt: Option<real>)

  predicate Received(p: Packet) {
    p.receivedAt.Some?
  }

  /** Time from generation to arrival at the gateway. */
  function Latency(p: Packet): real
    requires Received(p)
  {
    p.receivedAt.value - p.timestamp
  }
}

/** The gateway of network.py: it stamps and collects the packets the devices deliver. */
module Network {
  import opened Wrappers
  import opened Packets

  const GatewayName: string := "Central Gateway"

  /** Bounds of the pause before each interference notice. */
  const MinInterference: real := 5.0
  const MaxInterference: real := 10.0

  /** The packet as the gateway keeps it: arrival time set, everything else as sent. */
  function Stamp(p: Packet, now: real): (q: Packet)
    ensures Received(q) && q.receivedAt == Some(now)
    ensures q.timestamp == p.timestamp && q.value == p.value && q.device == p.device
    ensures Latency(q) == now - p.timestamp
  {
    p.(receivedAt := Some(now))
  }

  class IoTNetwork {
    /** Append-only: arrival order. */
    var receivedPackets: seq<Packet>
    const gateway: string

    constructor ()
      ensures receivedPackets == [] && gateway == GatewayName
    {
      receivedPackets := [];
      gateway := GatewayName;
    }

    /** Called by a device's transmission process once the packet's delay has elapsed. */
    method ReceivePacket(packet: Packet, now: real)
      modifies this
      ensures receivedPackets == old(receivedPackets) + [Stamp(packet, now)]
      ensures |receivedPackets| == |old(receivedPackets)| + 1
      ensures receivedPackets[..|old(receivedPackets)|] == old(receivedPackets)
    {
      receivedPackets := receivedPackets + [Stamp(packet, now)];
    }

    /**
     * One turn of the interference process: it asks to sleep for the drawn
     * pause and then only logs, so it reads and writes no state.
     */
    method SimulateInterferenceStep(pause: real) returns (timeout: real)
      requires MinInterference <= pause <= MaxInterference
      ensures timeout == pause
      ensures MinInterference <= timeout <= MaxInterference
    {
      timeout := pause;
    }
  }
}

/**
 The value shapes shared by every part of the monitor: flow keys, packet
 events, parse results, and the immutable views of a tracked session and of a
 request log.  Epochs are exact reals.  A time text is either unset, the
 rendering of an epoch, or a text loaded from a row.
 */
module Model {

  datatype FlowKey = FlowKey(srcIP: string, srcPort: int, dstIP: string, dstPort: int) {
    function Reverse(): FlowKey {
      FlowKey(dstIP, dstPort, srcIP, srcPort)
    }
  }

  /** Two flow keys name the same connection, in either direction. */
  predicate SamePair(f: FlowKey, g: FlowKey) {
    f == g || f == g.Reverse()
  }

  datatype Protocol = Tcp | Udp

  datatype PacketEvent = PacketEvent(
    epoch: real, srcIP: string, srcPort: int, dstIP: string, dstPort: int,
    length: nat, protocol: Protocol, isClose: bool)
  {
    function Flow(): FlowKey {
      FlowKey(srcIP, srcPort, dstIP, dstPort)
    }

    /** The flow seen from the client: swapped when the packet leaves port 443. */
    function ClientFlow(): FlowKey {
      if srcPort == 443 then Flow().Reverse() else Flow()
    }
  }

  /** What one capture file yields; `lastEpoch` is zero when it holds no packet. */
  datatype ParseResult = ParseResult(
    packetEvents: seq<PacketEvent>, payloadHints: map<FlowKey, string>, lastEpoch: real)

  datatype TimeText = Unset | OfEpoch(epoch: real) | Stored(text: string)

  datatype Status = Open | Closed

  datatype SessionId = SessionId(sessionKey: string, iface: string, flow: FlowKey, vendor: string, domain: string)

  datatype RequestView = RequestView(
    requestKey: string, sessionKey: string, seenAt: TimeText,
    uplinkBytes: int, downlinkBytes: int, totalBytes: int)

  /**
   The state of a tracked session.  `logs` lists the request logs it has
   produced since it was registered or restored; the pending request of the
   running program is the last of them.
   */
  datatype SessionView = SessionView(
    id: SessionId, firstSeen: TimeText, lastSeen: TimeText, closedAt: TimeText, status: Status,
    uplinkBytes: int, downlinkBytes: int, totalBytes: int, requestCount: int, packetCount: int,
    firstSeenEpoch: real, lastSeenEpoch: real, logs: seq<RequestView>)

  /** Conversion of a float to an integer truncates toward zero. */
  function Trunc(r: real): int {
    if r >= 0.0 then r.Floor else -((-r).Floor)
  }
}

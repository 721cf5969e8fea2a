/** The message that travels from the kernel hook to both user-space processes
    (`struct pckt_info`), its 5-tuple, and the two result types shared by the model. */
module Packets {

  type UInt32 = x: int | 0 <= x < 0x1_0000_0000
  type Port = x: int | 0 <= x < 0x1_0000

  datatype Option<+T> = None | Some(value: T)

  /** A call that may throw a C++ exception. */
  datatype Outcome<+T> = Returns(value: T) | Throws

  /** `payloadSize` is never filled in by the kernel module, so it is arbitrary. */
  datatype PacketInfo = PacketInfo(
    srcIp: UInt32, dstIp: UInt32, srcPort: Port, dstPort: Port, payloadSize: UInt32, proto: char)

  datatype Flow = Flow(srcIp: UInt32, dstIp: UInt32, srcPort: Port, dstPort: Port, proto: char)

  function FlowOf(p: PacketInfo): Flow {
    Flow(p.srcIp, p.dstIp, p.srcPort, p.dstPort, p.proto)
  }

  /** The two protocols the kernel module reports. */
  predicate Supported(p: PacketInfo) { p.proto == 'T' || p.proto == 'U' }

  /** The receiver's test for the terminate message: addresses and ports are all zero. */
  predicate IsStop(p: PacketInfo) {
    p.dstIp == 0 && p.srcIp == 0 && p.srcPort == 0 && p.dstPort == 0
  }

  const STOP_MESSAGE := PacketInfo(0, 0, 0, 0, 0, 0 as char)

  const UNKNOWN_PID := -1
}

/** How the port named in a package selects a filter table and a sending channel. */
module Routing {
  import opened CanFrames
  import opened FilterTables

  // The instance name is what the hardware library selects the channel by.
  datatype CanIpcConfig = CanIpcConfig(instance: string, devPort: DevPort)

  // The sender copies the instance name into a buffer of this size.
  const INSTANCE_BUFFER: nat := 16

  // Filters: every port, valid or not, is sent to port 5's tables.
  function LibGetCanDevPort(port: uint32): DevPort {
    match port
    case 0 => 5
    case 1 => 5
    case 2 => 5
    case 3 => 5
    case 4 => 5
    case _ => 5
  }

  // Sending: each port has its own channel, and an unknown one is taken as port 5. The name
  // and its terminator fit the sender's buffer.
  function LibSetCanIpcHandle(port: uint32): (config: CanIpcConfig)
    ensures |config.instance| < 16
  {
    match port
    case 0 => CanIpcConfig("can5_ins0ch4", 5)
    case 1 => CanIpcConfig("can6_ins0ch6", 6)
    case 2 => CanIpcConfig("can7_ins0ch7", 7)
    case 3 => CanIpcConfig("can8_ins0ch2", 8)
    case 4 => CanIpcConfig("can9_ins0ch3", 9)
    case _ => CanIpcConfig("can5_ins0ch4", 5)
  }

  /** Port p of the five is CAN channel 5 + p, and any other is channel 5. The instance name has that
      number, and the number of the controller's channel behind it. */
  lemma ChannelOfPort(p: uint32)
    ensures var q, config := if p <= 4 then p else 0, LibSetCanIpcHandle(p);
            && config.devPort == 5 + q
            && config.instance == "can" + ["56789"[q]] + "_ins0ch" + ["46723"[q]]
  {
  }

  // The ports that are port 5 for sending: the first, and every invalid one.
  predicate MeansPortFive(port: uint32) { port == 0 || port > 4 }

  /** Two ports send through the same library instance exactly if they have the same channel
      number, which happens exactly if they are the same port or both mean port 5; and a port's
      frames are filtered where they are sent exactly if it means port 5. */
  lemma ChannelIdentifiesPort(p: uint32, q: uint32)
    ensures LibSetCanIpcHandle(p).instance == LibSetCanIpcHandle(q).instance
       <==> LibSetCanIpcHandle(p).devPort == LibSetCanIpcHandle(q).devPort
    ensures LibSetCanIpcHandle(p) == LibSetCanIpcHandle(q) <==> p == q || (MeansPortFive(p) && MeansPortFive(q))
    ensures LibSetCanIpcHandle(p).devPort == LibGetCanDevPort(p) <==> MeansPortFive(p)
  {
    NameTellsChannel(p);
    NameTellsChannel(q);
  }

  // The fourth character of an instance name is the digit of its channel.
  lemma NameTellsChannel(p: uint32)
    ensures var config := LibSetCanIpcHandle(p);
            |config.instance| > 3 && config.instance[3] as int == '0' as int + config.devPort
  {
  }
}

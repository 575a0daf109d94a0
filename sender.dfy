/** The sACN sender: per-universe sequencing, packet arguments and the choice
    of destination, around collaborators that are not part of this model. */
module Sender {
  import opened Types
  import opened Sequencing

  /** `SACNCommon.SACN_PORT`, the UDP port registered for sACN. */
  const SACN_PORT: int32 := 5568

  /** The default of the `priority` parameter of both `Send` overloads. */
  const DefaultPriority: uint8 := 100

  /** The arguments handed to the `SACNPacket` constructor, in its order. */
  datatype PacketArgs = PacketArgs(
    universeID: uint16,
    sourceName: string,
    uuid: Guid,
    sequenceID: uint8,
    data: seq<uint8>,
    priority: uint8)

  /** Where a datagram is handed to the socket: an `IPEndPoint`, or a
      hostname and port that the socket resolves itself. */
  datatype Destination =
    | EndPoint(address: IPAddress, port: int32)
    | HostPort(hostname: string, port: int32)

  /** The code this model does not contain, as total functions:
      whether `new SACNPacket(...)` returns rather than throws, what
      `SACNPacket.ToArray()` yields (`None` where it throws),
      `SACNCommon.GetMulticastAddress`, and whether `UdpClient.SendAsync`
      completes rather than throws. */
  datatype Collaborators = Collaborators(
    packetAccepts: PacketArgs -> bool,
    packetBytes: PacketArgs -> Option<seq<uint8>>,
    multicastAddress: uint16 -> IPAddress,
    transmit: (seq<uint8>, Destination) -> bool)

  /** The sender's settable properties other than the socket, as read by a send. */
  datatype Settings = Settings(
    uuid: Guid,
    sourceName: string,
    unicastAddress: Option<IPAddress>,
    port: int32)
  {
    /** The `Multicast` property: no unicast address has been set. */
    predicate Multicast()
      ensures Multicast() <==> unicastAddress == None
    {
      unicastAddress.None?
    }

    /** `GetEndPoint`: the universe's multicast group while `Multicast` holds,
        the fixed unicast address otherwise, always at the given port. */
    function GetEndPoint(universeID: uint16, port: int32, multicastAddress: uint16 -> IPAddress): (e: Destination)
      ensures e.EndPoint? && e.port == port
      ensures unicastAddress == None ==> e.address == multicastAddress(universeID)
      ensures unicastAddress != None ==> e.address == unicastAddress.value
    {
      if Multicast() then EndPoint(multicastAddress(universeID), port)
      else EndPoint(unicastAddress.value, port)
    }
  }

  /** Which overload is called: the first routes through `GetEndPoint`,
      the second sends to a hostname. */
  datatype Target = ViaEndPoint | ToHost(hostname: string)

  /** One call of `Send`. */
  datatype Request = Request(target: Target, universeID: uint16, data: seq<uint8>, priority: uint8)

  /** How a call ended. */
  datatype Status =
    | ConstructorThrew                   // `new SACNPacket` threw; nothing was stored
    | ToArrayThrew                       // the counter was stored, then `ToArray` threw
    | TransmitThrew(dest: Destination)   // the counter was stored, then `SendAsync` threw
    | Transmitted(dest: Destination)

  datatype SendResult = SendResult(packet: PacketArgs, status: Status)

  /** The destination a request's datagram is handed to. */
  function DestinationOf(s: Settings, req: Request, world: Collaborators): (d: Destination)
    ensures d.port == s.port
    // the hostname overload sends to the hostname, never to an address from `GetEndPoint`
    ensures req.target.ToHost? ==> d == HostPort(req.target.hostname, s.port)
    // the other overload is redirected to the unicast address whenever one is set
    ensures req.target.ViaEndPoint? ==>
              && d.EndPoint?
              && d.address == if s.unicastAddress == None then world.multicastAddress(req.universeID)
                              else s.unicastAddress.value
  {
    match req.target
    case ViaEndPoint => s.GetEndPoint(req.universeID, s.port, world.multicastAddress)
    case ToHost(hostname) => HostPort(hostname, s.port)
  }

  /** One send, as a function of the settings, the sequence map before the
      call and the request: the result and the sequence map after it. */
  function Perform(s: Settings, ids: map<uint16, uint8>, req: Request, world: Collaborators)
    : (r: (SendResult, map<uint16, uint8>))
    // the packet carries the stored number, 0 for an unseen universe, and the current identity
    ensures r.0.packet == PacketArgs(req.universeID, s.sourceName, s.uuid,
                                     if req.universeID in ids then ids[req.universeID] else 0,
                                     req.data, req.priority)
    ensures r.0.status.ConstructorThrew? <==> !world.packetAccepts(r.0.packet)
    // a throwing constructor leaves the map as it was
    ensures r.0.status.ConstructorThrew? ==> r.1 == ids
    // otherwise exactly the universe's entry is (re)written, with the successor mod 256
    ensures !r.0.status.ConstructorThrew? ==>
              && r.1.Keys == ids.Keys + {req.universeID}
              && r.1[req.universeID] as int == (r.0.packet.sequenceID as int + 1) % 256
              && forall v :: v in ids && v != req.universeID ==> r.1[v] == ids[v]
    // after the store, `ToArray` throws exactly when it yields no bytes
    ensures !r.0.status.ConstructorThrew? ==> (r.0.status.ToArrayThrew? <==> world.packetBytes(r.0.packet).None?)
    // otherwise the packet's bytes go to the request's destination at the sender's port,
    // and the call reports success exactly when the transmission completes
    ensures r.0.status.Transmitted? || r.0.status.TransmitThrew? ==>
              && world.packetBytes(r.0.packet).Some?
              && r.0.status.dest == DestinationOf(s, req, world)
              && r.0.status.dest.port == s.port
              && (r.0.status.Transmitted? <==> world.transmit(world.packetBytes(r.0.packet).value, r.0.status.dest))
  {
    var packet := PacketArgs(req.universeID, s.sourceName, s.uuid,
                             NextSequence(ids, req.universeID), req.data, req.priority);
    if !world.packetAccepts(packet) then
      (SendResult(packet, ConstructorThrew), ids)
    else
      var stored := Advance(ids, req.universeID);
      match world.packetBytes(packet)
      case None => (SendResult(packet, ToArrayThrew), stored)
      case Some(bytes) =>
        var dest := DestinationOf(s, req, world);
        var status := if world.transmit(bytes, dest) then Transmitted(dest) else TransmitThrew(dest);
        (SendResult(packet, status), stored)
  }

  class SACNSender {
    var UUID: Guid
    var UnicastAddress: Option<IPAddress>
    var Port: int32
    var SourceName: string
    var sequenceIds: map<uint16, uint8>

    /** The settable properties as a send reads them. */
    function CurrentSettings(): Settings
      reads this
    {
      Settings(UUID, SourceName, UnicastAddress, Port)
    }

    constructor (uuid: Guid, sourceName: string, port: int32)
      ensures UUID == uuid && SourceName == sourceName && Port == port
      ensures UnicastAddress == None && sequenceIds == map[]
    {
      SourceName := sourceName;
      UUID := uuid;
      Port := port;
      UnicastAddress := None;
      sequenceIds := map[];
    }

    /** The two-argument constructor: the registered sACN port. */
    constructor WithDefaultPort(uuid: Guid, sourceName: string)
      ensures UUID == uuid && SourceName == sourceName && Port == SACN_PORT
      ensures UnicastAddress == None && sequenceIds == map[]
    {
      SourceName := sourceName;
      UUID := uuid;
      Port := SACN_PORT;
      UnicastAddress := None;
      sequenceIds := map[];
    }

    /** The first `Send` overload ("multicast send"), whose destination is
        whatever `GetEndPoint` chooses. */
    method Send(world: Collaborators, universeID: uint16, data: seq<uint8>, priority: uint8 := DefaultPriority)
      returns (result: SendResult)
      modifies this`sequenceIds
      ensures (result, sequenceIds) == Perform(CurrentSettings(), old(sequenceIds), Request(ViaEndPoint, universeID, data, priority), world)
    {
      var sequenceID: uint8 := 0;
      if universeID in sequenceIds {
        sequenceID := sequenceIds[universeID];
      }
      var packet := PacketArgs(universeID, SourceName, UUID, sequenceID, data, priority);
      sequenceID := WrappingIncrement(sequenceID);
      if !world.packetAccepts(packet) {
        return SendResult(packet, ConstructorThrew);
      }
      sequenceIds := sequenceIds[universeID := sequenceID];

      var packetBytes := world.packetBytes(packet);
      if packetBytes.None? {
        return SendResult(packet, ToArrayThrew);
      }
      var dest := CurrentSettings().GetEndPoint(universeID, Port, world.multicastAddress);
      if world.transmit(packetBytes.value, dest) {
        result := SendResult(packet, Transmitted(dest));
      } else {
        result := SendResult(packet, TransmitThrew(dest));
      }
    }

    /** The second `Send` overload ("unicast send") to a hostname; it does not
        consult `GetEndPoint`. */
    method SendToHost(world: Collaborators, hostname: string, universeID: uint16, data: seq<uint8>, priority: uint8 := DefaultPriority)
      returns (result: SendResult)
      modifies this`sequenceIds
      ensures (result, sequenceIds) == Perform(CurrentSettings(), old(sequenceIds), Request(ToHost(hostname), universeID, data, priority), world)
    {
      var sequenceID: uint8 := 0;
      if universeID in sequenceIds {
        sequenceID := sequenceIds[universeID];
      }
      var packet := PacketArgs(universeID, SourceName, UUID, sequenceID, data, priority);
      sequenceID := WrappingIncrement(sequenceID);
      if !world.packetAccepts(packet) {
        return SendResult(packet, ConstructorThrew);
      }
      sequenceIds := sequenceIds[universeID := sequenceID];

      var packetBytes := world.packetBytes(packet);
      if packetBytes.None? {
        return SendResult(packet, ToArrayThrew);
      }
      var dest := HostPort(hostname, Port);
      if world.transmit(packetBytes.value, dest) {
        result := SendResult(packet, Transmitted(dest));
      } else {
        result := SendResult(packet, TransmitThrew(dest));
      }
    }
  }
}

# sACN sender: sequence numbers and destinations

A Dafny model of `SACNSender`, the sending side of kadmium-sacn-core, a C#
implementation of streaming ACN (ANSI E1.31). The sender keeps, per DMX
universe, the 8-bit Sequence Number of the framing layer (section 6.2.6 of
ANSI E1.31-2016). It builds each packet from the universe, its own source
name and CID (`UUID`), the stored sequence number, the slot data and a
priority, and hands the encoded datagram to a UDP socket.

- `types.dfy` (`Types`): `byte`, `UInt16` and `int` as bounded integer
  newtypes, `Guid` as sixteen bytes, `IPAddress`, and an `Option` that stands
  for a nullable reference.
- `sequencing.dfy` (`Sequencing`): the counter arithmetic. It defines the
  wrapping byte increment, the `TryGetValue` default of 0, the store of the
  successor, and `Counting(s, n)`, the numbers s, s+1, … modulo 256.
- `sender.dfy` (`Sender`): the class `SACNSender` and its fields, constructors
  and both `Send` overloads. The first overload is `Send`; the hostname
  overload is `SendToHost`, because Dafny has no overloading. It also holds
  the `Settings` snapshot with `Multicast` and `GetEndPoint`, and `Perform`,
  the function that specifies one send.
- `runs.dfy` (`Runs`): `Run`, successive sends on one sender, and the
  lemmas about sequence numbers across many calls.

The code this model does not contain is passed to every send as a
`Collaborators` value of total functions:
- whether `new SACNPacket(...)` returns or throws;
- what `SACNPacket.ToArray()` yields, or that it throws;
- `SACNCommon.GetMulticastAddress`;
- whether `UdpClient.SendAsync` completes or throws.

An exception is modelled as a `Status` in the result. In the source,
`sequenceID++` is evaluated as an argument before the `SACNPacket`
constructor runs. So the packet carries the pre-increment value. If the
constructor throws, the store on the following line never runs and the map
is unchanged (`ConstructorThrew`). A throw from `ToArray` (`ToArrayThrew`)
or from the transmission (`TransmitThrew`) comes after the store, so the
counter stays advanced.

Where the doc comment (`/// Multicast send`, SACNSender.cs:31) and E1.31
suggest otherwise, the model follows the code:
- The first `Send` overload is documented as a multicast send. The code
  sends it to `UnicastAddress` whenever that is set (`GetEndPoint`).
- E1.31 allows universe ids 1–63999 and at most 512 slots. The sender
  itself rejects neither an id outside that range nor a payload of another
  length. Whether `SACNPacket` rejects them, and in its constructor or in
  `ToArray`, is not visible here. A rejection in the constructor is a
  `ConstructorThrew` that leaves the counter unchanged; a rejection in
  `ToArray` is a `ToArrayThrew` that leaves it advanced. The model covers
  both cases.

No lock guards the counter map.

`SACN_PORT` is 5568, the UDP port registered for sACN. The file that
defines it, `SACNCommon.cs`, is not part of this model.

## Model

| member | source | states |
|---|---|---|
| `Sequencing.WrappingIncrement` | src/kadmium-sacn-core/SACNSender.cs:38-39 | the byte post-increment gives (b + 1) mod 256: b + 1 below 255, and 255 wraps to 0 |
| `Sequencing.NextSequence` | src/kadmium-sacn-core/SACNSender.cs:37 | `TryGetValue` into a byte: the stored number for a universe in the map, 0 for one that is not |
| `Sequencing.Advance` | src/kadmium-sacn-core/SACNSender.cs:38-39 | the store after the post-increment: the universe's key is present afterwards with (old number + 1) mod 256; no key is removed and every other value is unchanged |
| `Sequencing.CountingStep` | src/kadmium-sacn-core/SACNSender.cs:37-39 | counting n+1 numbers from s is s followed by counting n from the wrapped successor of s |
| `Sequencing.CountingDistinct` | src/kadmium-sacn-core/SACNSender.cs:37-39 | at most 256 consecutive sequence numbers on one universe are pairwise distinct |
| `Sender.Settings.Multicast` | src/kadmium-sacn-core/SACNSender.cs:14 | holds exactly when no unicast address is set |
| `Sender.Settings.GetEndPoint` | src/kadmium-sacn-core/SACNSender.cs:61-71 | the endpoint is the universe's multicast address when no unicast address is set, and the unicast address otherwise; its port is always the given port |
| `Sender.DestinationOf` | src/kadmium-sacn-core/SACNSender.cs:42-58 | the destination of each overload, always at the sender's port: the hostname for the hostname overload; for the other, the unicast address when one is set and the universe's multicast address otherwise |
| `Sender.Perform` | src/kadmium-sacn-core/SACNSender.cs:35-59 | one send: the packet carries the stored number (0 for an unseen universe), the current source name and UUID, the data and the priority. A throwing packet constructor leaves the map unchanged. Otherwise only the universe's entry is written, with the old value + 1 mod 256, and other keys and values stay the same. `ToArrayThrew` is reported exactly when `ToArray` throws. Otherwise the packet's bytes go to the request's destination at the sender's port, and `Transmitted` is reported exactly when the transmission completes |
| `Sender.SACNSender.constructor` | src/kadmium-sacn-core/SACNSender.cs:18-26 | sets the UUID, source name and port; no unicast address; empty sequence map |
| `Sender.SACNSender.WithDefaultPort` | src/kadmium-sacn-core/SACNSender.cs:28 | as the constructor, with port `SACN_PORT` (5568) |
| `Sender.SACNSender.Send` | src/kadmium-sacn-core/SACNSender.cs:35-43 | the endpoint overload: its result and the new sequence map are those of `Perform` with the destination from `GetEndPoint`; only `sequenceIds` changes; priority defaults to 100 |
| `Sender.SACNSender.SendToHost` | src/kadmium-sacn-core/SACNSender.cs:51-59 | the hostname overload: the same, with the hostname and `Port` as destination, bypassing `GetEndPoint` |
| `Runs.PerformNextSequence` | src/kadmium-sacn-core/SACNSender.cs:37-39 | after one send a universe's number has advanced by one exactly when a packet was built for it, and is unchanged otherwise |
| `Runs.RunStampsContiguous` | src/kadmium-sacn-core/SACNSender.cs:37-55 | over any interleaving of both overloads, all universes and failures, with the sender's properties free to change between calls, the packets built for a universe carry s0, s0+1, … mod 256 from its stored number s0; the number stored at the end is s0 plus their count, mod 256 |
| `Runs.RunLeavesOtherUniverses` | src/kadmium-sacn-core/SACNSender.cs:39 | a universe no call names keeps its entry, or keeps having none |
| `Runs.AllBuilt` | src/kadmium-sacn-core/SACNSender.cs:38 | when the packet constructor accepts every packet for the universe, each call on it builds one packet |
| `Runs.SuccessiveSends` | src/kadmium-sacn-core/SACNSender.cs:37-39 | N accepted sends on one universe carry s0 … s0+N-1 mod 256 and leave s0+N mod 256 stored; after 256 sends the counter is back at s0 |
| `Runs.OverloadsSequenceAlike` | src/kadmium-sacn-core/SACNSender.cs:37-55 | the packet and the new map do not depend on which overload is called |
| `Runs.NoRollbackAfterStore` | src/kadmium-sacn-core/SACNSender.cs:38-42 | after `ToArray` or the transmission throws, the next packet on that universe carries the following number |
| `Runs.RunStampsDistinct` | src/kadmium-sacn-core/SACNSender.cs:37-55 | over any mix of calls, at most 256 packets built for one universe carry pairwise distinct sequence numbers |

## Left out

- The `UdpClient` socket, `SendAsync` and the async `Task` machinery are I/O. Transmission is a collaborator that either completes or throws.
- Name resolution of the hostname overload is done by the socket library. The model records the hostname and port handed to it.
- `IPEndPoint`'s own range check on the port is part of the socket library. A throw there comes after the counter store, so it counts as a failed transmission.
- Both `SetMulticastInterface` overloads are socket-option pass-throughs with console logging, and are not modelled.
- `Close` has an empty body and is not modelled.
- The byte layout produced by `SACNPacket.ToArray()` and the formula of `SACNCommon.GetMulticastAddress` are not modelled. The files that define them are not part of this model, so both stay uninterpreted functions.
- A C# `null` source name or data array is not modelled. A rejection of one by `SACNPacket` falls under `packetAccepts` (the constructor throws, the counter is unchanged) or under `packetBytes` (`ToArray` throws, the counter is advanced), depending on where `SACNPacket` checks.
- `WrappingIncrement` assumes C#'s default unchecked arithmetic, where `sequenceID++` wraps 255 to 0. If the project were built with overflow checking, the increment at 255 would throw before the constructor runs and that universe would stay at 255. The project file is not part of this model.
- Concurrency is not modelled. The dictionary is used without a lock, so concurrent sends on one universe are not serialised by this code.

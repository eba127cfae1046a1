# Reliable UDP layer of SimpleNetworkSync, in Dafny

This project models the reliable-delivery layer that the SimpleNetworkSync
client and server share. The layer has three parts:

- **Wire codec** (`Network.Packet`). A packet goes out as one frame: a kind
  byte (Data = 1, Ack = 2), the 32-bit sequence number in little-endian
  order, then the payload. `module Wire` (`packet.dfy`) holds the packet
  factories, `ToBytes` (an array filled in place) and `FromBytes` (a
  `Result` that fails on a buffer shorter than five bytes). It also proves
  the round trips between them.
- **Peer session** (`Network.ClientSession`). Each remote endpoint has one
  session. It holds an outgoing counter, a map of packets still waiting for
  an Ack, the next expected incoming number, the set of numbers received,
  and a last-activity time. `module Sessions` (`client_session.dfy`) gives
  the session's steps as functions over a `SessionState` value. It also
  defines the class `ClientSession`, whose methods are proved to perform
  those steps. The counters wrap modulo 2^32, as C# `uint` does.
- **Transport engine** (`Network.ReliableUdpTransport`). The engine keeps a
  registry of sessions keyed by endpoint. Its handlers send data, handle
  incoming Data and Ack packets, retransmit unacknowledged packets older
  than 1000 ms, and evict sessions idle for more than 30000 ms.
  - `module Engine` (`engine.dfy`) states each handler as a transition on
    an `EngineState` value.
  - `module EngineProperties` (`engine_properties.dfy`) proves what the
    handlers promise.
  - `module Transport` (`transport.dfy`) is the class
    `ReliableUdpTransport`, which holds a map of `ClientSession` objects.
    Each of its handler methods is proved to perform the matching `Engine`
    transition.

Datagrams sent to the socket and payloads handed to the `OnReceive` event
are recorded in one effect log, in the order they happen. `DateTime.Now` is
a parameter `now`, in milliseconds. A received datagram is a parameter of
`ReceiveDatagram`, together with the sender's endpoint.

The registry invariant `Engine.Consistent` has two parts. Every session is
stored under its own endpoint. Every received number of a session lies
below its expected number. Every handler keeps this invariant; a received
Data packet keeps it provided no expected number is about to wrap. Under
the invariant, a Data packet is delivered exactly when it carries the
expected number. Without the invariant, the "ahead of expected" branch of
`TryProcessReceiveSequence` would deliver any number already seen.

## Model

| member | source | states |
|---|---|---|
| Wire.CreateDataPacket | WSimpleNetworkServer/Network/Packet.cs:21-29 | a Data packet frames as kind 1, the sequence number's four bytes, then the data |
| Wire.CreateAckPacket | WSimpleNetworkServer/Network/Packet.cs:36-44 | an Ack packet frames as kind 2 and the sequence number's four bytes, with no payload |
| Wire.ToBytes | WSimpleNetworkServer/Network/Packet.cs:49-58 | the buffer has length 5 + payload; byte 0 is the kind; bytes 1..4 are the little-endian sequence number; bytes 5.. are the payload verbatim |
| Wire.FromBytes | WSimpleNetworkServer/Network/Packet.cs:64-72 | fails exactly on buffers shorter than 5 bytes; any kind byte is accepted; on success the buffer is the packet's frame and the payload has length \|data\| - 5 |
| Wire.UInt32BytesRoundTrip | WSimpleNetworkServer/Network/Packet.cs:54 | decoding the four bytes of a sequence number gives the number back |
| Wire.UInt32BytesInverse | WSimpleNetworkServer/Network/Packet.cs:69 | encoding a decoded 4-byte group gives the same four bytes back |
| Wire.FromBytesOfFrame | WSimpleNetworkServer/Network/Packet.cs:49-72 | FromBytes(ToBytes(p)) == p for every packet, whatever its kind |
| Wire.FrameInjective | WSimpleNetworkServer/Network/Packet.cs:49-58 | two packets with the same frame are equal |
| Sessions.WrapIncrement | WSimpleUdpClient/Network/ClientSession.cs:48 | an unchecked uint `++`: adds one below 2^32 - 1 and wraps to 0 at it |
| Sessions.NewSession | WSimpleUdpClient/Network/ClientSession.cs:12-38 | a new session belongs to its endpoint, is stamped now, and satisfies the received-below-expected invariant |
| Sessions.ClientSession.constructor | WSimpleUdpClient/Network/ClientSession.cs:34-38 | the object starts with counters 0, empty pending map and received set, stamped now |
| Sessions.ClientSession.TryProcessReceiveSequence | WSimpleUdpClient/Network/ClientSession.cs:40-65 | stamps the activity time; the answer and the new state are the three-way classification of ProcessReceiveSequence |
| Sessions.ClientSession.GetNextSequenceNumber | WSimpleUdpClient/Network/ClientSession.cs:67-73 | returns the old counter and leaves it incremented modulo 2^32; nothing else changes |
| Sessions.AllocationsCountUp | WSimpleUdpClient/Network/ClientSession.cs:67-73 | n successive allocations return counter, counter+1, ..., counter+n-1 when no wrap occurs |
| Sessions.FreshSessionAllocatesFromZero | WSimpleUdpClient/Network/ClientSession.cs:12-73 | n allocations on a fresh session return 0..n-1 |
| Sessions.AllocationTouchesOnlyCounter | WSimpleUdpClient/Network/ClientSession.cs:67-73 | allocation changes only the send counter, and not the activity time |
| Sessions.InOrderIsDelivered | WSimpleUdpClient/Network/ClientSession.cs:46-52 | the expected number is accepted for delivery, expected advances by one, and the number joins the received set |
| Sessions.StaleIsRefused | WSimpleUdpClient/Network/ClientSession.cs:59-63 | a number below expected is refused without delivery; only the activity time changes |
| Sessions.AheadLeavesTrackerUnchanged | WSimpleUdpClient/Network/ClientSession.cs:53-58 | a number above expected sets shouldDeliver, answers whether it was already received, and changes only the activity time |
| Sessions.ReceiveRefreshesActivity | WSimpleUdpClient/Network/ClientSession.cs:44 | every classification sets the activity time to now and leaves the sending side alone |
| Sessions.ReceiveKeepsReceivedBelowExpected | WSimpleUdpClient/Network/ClientSession.cs:46-63 | without wrap-around, every received number stays below expected |
| Sessions.DeliveredExactlyWhenExpected | WSimpleUdpClient/Network/ClientSession.cs:46-63 | under that invariant, a number is accepted for delivery iff it is the expected one; the "ahead" branch always answers false |
| Sessions.GapTrace | WSimpleUdpClient/Network/ClientSession.cs:40-65 | inputs 0, 2, 1 on a fresh session: accept, refuse, accept, and expected ends at 2 |
| Sessions.DuplicateTrace | WSimpleUdpClient/Network/ClientSession.cs:40-65 | inputs 0, 0: accept, then refuse without delivery |
| Sessions.FreshSessionCountsFromZero | WSimpleUdpClient/Network/ClientSession.cs:34-73 | three calls on a new object return 0, 1, 2 and leave the activity time as constructed |
| Sessions.SessionGapTrace | WSimpleUdpClient/Network/ClientSession.cs:40-65 | the 0, 2, 1 trace run on an object: accept, refuse, accept, expected 2 |
| Engine.WithSession | WSimpleUdpClient/Network/ReliableUdpTransport.cs:288-296 | the keys become the old keys plus the endpoint; existing sessions are kept; a missing one is a fresh session stamped now; nothing else changes |
| Engine.UpdateSessionTwice | WSimpleUdpClient/Network/ReliableUdpTransport.cs:137-141 | two writes to one session in a row amount to the second |
| Engine.DueForRetransmit | WSimpleUdpClient/Network/ReliableUdpTransport.cs:235-245 | every selected entry is pending and strictly older than 1000 ms |
| Engine.EnumeratesAppend | WSimpleUdpClient/Network/ReliableUdpTransport.cs:235-245 | listing two disjoint sets one after the other lists their union, each element once |
| EngineProperties.AckFor | WSimpleUdpClient/Network/ReliableUdpTransport.cs:191-192 | the Ack datagram decodes to an Ack packet with the same sequence number and no payload |
| EngineProperties.WithSessionIdempotent | WSimpleUdpClient/Network/ReliableUdpTransport.cs:288-296 | a second GetOrCreateSession for the same endpoint creates nothing |
| EngineProperties.WithSessionKeepsConsistent | WSimpleUdpClient/Network/ReliableUdpTransport.cs:288-296 | creating a session keeps the registry invariant and the no-wrap condition |
| EngineProperties.StartClearsRegistry | WSimpleUdpClient/Network/ReliableUdpTransport.cs:100-108 | StartAsync raises the running flag, empties the registry and sends nothing |
| EngineProperties.StoppedIsSilent | WSimpleUdpClient/Network/ReliableUdpTransport.cs:110-118 | after Stop the registry is empty; datagrams, SendTo, cleanup and retransmit ticks change nothing; Send emits nothing |
| EngineProperties.HandleDataEffects | WSimpleUdpClient/Network/ReliableUdpTransport.cs:189-212 | the Ack goes out first, always; the payload is delivered right after it iff the number is the expected one |
| EngineProperties.StaleNeverDelivered | WSimpleUdpClient/Network/ReliableUdpTransport.cs:189-212 | a number below expected is acked and never delivered, in any registry state |
| EngineProperties.HandleDataTouchesSenderOnly | WSimpleUdpClient/Network/ReliableUdpTransport.cs:195-196 | only the sender's session changes; it is created if absent and stamped now; its sending side is untouched |
| EngineProperties.HandleDataKeepsConsistent | WSimpleUdpClient/Network/ReliableUdpTransport.cs:189-212 | a Data packet keeps the registry invariant when no expected number is about to wrap |
| EngineProperties.UpdateKeepsConsistent | WSimpleUdpClient/Network/ReliableUdpTransport.cs:195-196 | replacing one session by a well-keyed one that keeps the received set below expected keeps the registry invariant |
| EngineProperties.HandleAckRemovesPending | WSimpleUdpClient/Network/ReliableUdpTransport.cs:214-223 | the acked number leaves the sender's pending map; all other entries, sessions and the log are unchanged; an unknown sender gets a fresh session |
| EngineProperties.HandleAckOfUnknownNumber | WSimpleUdpClient/Network/ReliableUdpTransport.cs:219 | an Ack for a number not pending, from a known sender, changes nothing |
| EngineProperties.HandleAckIdempotent | WSimpleUdpClient/Network/ReliableUdpTransport.cs:214-223 | applying the same Ack twice has the effect of applying it once |
| EngineProperties.HandleAckKeepsConsistent | WSimpleUdpClient/Network/ReliableUdpTransport.cs:214-223 | an Ack keeps the registry invariant |
| EngineProperties.DatagramDispatch | WSimpleUdpClient/Network/ReliableUdpTransport.cs:166-176 | a frame is handled by HandleDataPacket for kind 1, HandleAckPacket for kind 2, and dropped otherwise |
| EngineProperties.ShortDatagramIgnored | WSimpleUdpClient/Network/ReliableUdpTransport.cs:166-185 | a buffer shorter than a header changes nothing |
| EngineProperties.DatagramKeepsConsistent | WSimpleUdpClient/Network/ReliableUdpTransport.cs:160-187 | one pass of the receive loop keeps the registry invariant when no expected number is about to wrap |
| EngineProperties.SendToWhenStopped | WSimpleUdpClient/Network/ReliableUdpTransport.cs:132-135 | when not running, SendTo changes nothing and sends nothing |
| EngineProperties.SendToRecordsAndSends | WSimpleUdpClient/Network/ReliableUdpTransport.cs:130-145 | when running: the packet takes the session's counter, which advances modulo 2^32; it is recorded as pending at now; exactly that Data packet is sent to the endpoint, unless the socket is closed; other sessions are untouched |
| EngineProperties.SendToKeepsConsistent | WSimpleUdpClient/Network/ReliableUdpTransport.cs:130-145 | SendTo keeps the registry invariant |
| EngineProperties.SendInServerMode | WSimpleUdpClient/Network/ReliableUdpTransport.cs:122 | in server mode, or without a default endpoint, Send does nothing |
| EngineProperties.SendInClientMode | WSimpleUdpClient/Network/ReliableUdpTransport.cs:120-128 | in client mode Send numbers and sends a Data packet to the default endpoint, running or not, and leaves the pending map as it was |
| EngineProperties.SendKeepsConsistent | WSimpleUdpClient/Network/ReliableUdpTransport.cs:120-128 | Send keeps the registry invariant |
| EngineProperties.DueExactly | WSimpleUdpClient/Network/ReliableUdpTransport.cs:238-243 | an entry is selected iff it is pending and strictly older than 1000 ms |
| EngineProperties.EnumeratesSize | WSimpleUdpClient/Network/ReliableUdpTransport.cs:233-245 | a list that enumerates a set without repeats has the set's size |
| EngineProperties.RetransmitResendsVerbatim | WSimpleUdpClient/Network/ReliableUdpTransport.cs:225-253 | a tick sends exactly one datagram per due entry; each decodes to the stored packet and goes to its session's endpoint; pending maps and timestamps stay as they were |
| EngineProperties.StillDueLater | WSimpleUdpClient/Network/ReliableUdpTransport.cs:225-253 | a retransmit tick removes no pending entry and changes no timestamp, so there is no attempt cap: an entry due now is still due at every later time after the tick |
| EngineProperties.CleanupKeepsExactlyActive | WSimpleUdpClient/Network/ReliableUdpTransport.cs:255-280 | when running, exactly the sessions idle for at most 30000 ms remain, unchanged, and nothing is sent |
| EngineProperties.CleanupWhenStopped | WSimpleUdpClient/Network/ReliableUdpTransport.cs:257-260 | when not running, a cleanup tick changes nothing |
| EngineProperties.CleanupIdempotent | WSimpleUdpClient/Network/ReliableUdpTransport.cs:255-280 | a second tick at the same time evicts nothing more |
| EngineProperties.EvictedNotResent | WSimpleUdpClient/Network/ReliableUdpTransport.cs:225-280 | the pending entries of an evicted session are never retransmitted |
| EngineProperties.CleanupKeepsConsistent | WSimpleUdpClient/Network/ReliableUdpTransport.cs:255-280 | a cleanup tick keeps the registry invariant |
| EngineProperties.HelloExchange | WSimpleUdpClient/Network/ReliableUdpTransport.cs:120-223 | a client's Send is acked and delivered once by a started server; a duplicate is acked but not delivered; the Ack finds nothing pending on the client |
| EngineProperties.ReplyAcknowledged | WSimpleUdpClient/Network/ReliableUdpTransport.cs:130-253 | a SendTo reply is due for retransmission after 1000 ms until the peer's Ack clears it, after which nothing is due |
| Transport.ReliableUdpTransport.Server | WSimpleUdpClient/Network/ReliableUdpTransport.cs:77-84 | a server transport starts stopped, with an empty registry and no default endpoint |
| Transport.ReliableUdpTransport.Client | WSimpleUdpClient/Network/ReliableUdpTransport.cs:89-98 | a client transport starts stopped, with an empty registry and the server as its default endpoint |
| Transport.ReliableUdpTransport.StartAsync | WSimpleUdpClient/Network/ReliableUdpTransport.cs:100-108 | performs StartStep |
| Transport.ReliableUdpTransport.Stop | WSimpleUdpClient/Network/ReliableUdpTransport.cs:110-118 | performs StopStep |
| Transport.ReliableUdpTransport.SendPacketTo | WSimpleUdpClient/Network/ReliableUdpTransport.cs:147-158 | appends the ToBytes frame addressed to the endpoint; after Stop it sends nothing |
| Transport.ReliableUdpTransport.GetOrCreateSession | WSimpleUdpClient/Network/ReliableUdpTransport.cs:288-296 | returns the registered object, or registers a fresh one; the registry view becomes WithSession |
| Transport.ReliableUdpTransport.SendTo | WSimpleUdpClient/Network/ReliableUdpTransport.cs:130-145 | performs SendToStep and keeps the registry well keyed |
| Transport.ReliableUdpTransport.Send | WSimpleUdpClient/Network/ReliableUdpTransport.cs:120-128 | performs SendStep and keeps the registry well keyed |
| Transport.ReliableUdpTransport.HandleDataPacket | WSimpleUdpClient/Network/ReliableUdpTransport.cs:189-212 | performs HandleDataStep and keeps the registry well keyed |
| Transport.ReliableUdpTransport.HandleAckPacket | WSimpleUdpClient/Network/ReliableUdpTransport.cs:214-223 | performs HandleAckStep and keeps the registry well keyed |
| Transport.ReliableUdpTransport.ReceiveDatagram | WSimpleUdpClient/Network/ReliableUdpTransport.cs:160-187 | one pass of the receive loop performs DatagramStep |
| Transport.ReliableUdpTransport.CollectRetransmits | WSimpleUdpClient/Network/ReliableUdpTransport.cs:233-245 | needRetransmits lists every due entry once, with its stored packet and endpoint |
| Transport.CollectDue | WSimpleUdpClient/Network/ReliableUdpTransport.cs:238-244 | lists once each the entries of one pending map older than 1000 ms, with their packets |
| Transport.ReliableUdpTransport.CheckRetransmit | WSimpleUdpClient/Network/ReliableUdpTransport.cs:225-253 | performs RetransmitStep: the log grows by the resends of the due entries, in enumeration order |
| Transport.ReliableUdpTransport.CollectIdle | WSimpleUdpClient/Network/ReliableUdpTransport.cs:263-272 | toRemove holds exactly the registered endpoints idle for more than 30000 ms |
| Transport.ReliableUdpTransport.RemoveSessions | WSimpleUdpClient/Network/ReliableUdpTransport.cs:274-280 | removes exactly the listed endpoints; the others keep their objects |
| Transport.ReliableUdpTransport.CleanupSession | WSimpleUdpClient/Network/ReliableUdpTransport.cs:255-286 | performs CleanupStep and keeps the registry well keyed |

## Left out

- Sockets, timers and threads are not modelled. This covers `UdpClient`, `Task.Run`, `Task.Delay`, `Timer`, `async void`, `volatile`, `lock` and the thread-safety of `ConcurrentDictionary`. Each handler is one atomic step.
- Received datagrams are a parameter of `ReceiveDatagram`, and `now` is an integer number of milliseconds.
- The `ObjectDisposedException` exit of the receive loop is the `disposed` flag. Once it is set, no datagram is handled and no timer tick acts.
- Exceptions from a closed socket are swallowed in `SendPacketTo`. So after `Stop` a send records nothing.
- Console logging and `PrintSessionInfo` are not modelled (ReliableUdpTransport.cs:298-307).
- Binding a port and parsing the IP string in the constructors are not modelled. An endpoint is an address byte string and a port.
- `BitConverter` follows the host's byte order. The model fixes it as little-endian.
- A null payload cannot occur in the model: payloads are sequences.
- `PacketType` is an `int` enum, written to the wire as one byte through a cast. The model keeps the kind as that byte.
- `Engine.MaxRetransmitAttempts` is declared by the transport but never read. No attempt counter is modelled, because none exists.
- The `OnReceive` event is recorded as a delivery effect whether or not a handler is subscribed.
- Sessions.ReceiveKeepsReceivedBelowExpected: holds only while the expected number is below 2^32 - 1. After the wrap, old received numbers lie above expected.
- EngineProperties.HandleDataKeepsConsistent: holds under the same no-wrap condition.
- EngineProperties.DatagramKeepsConsistent: holds under the same no-wrap condition.
- `Send`, unlike `SendTo`, does not add the packet to `PendingAcks` and does not check the running flag. The class comment at ReliableUdpTransport.cs:14 says it records pending acks. The model follows the code (see `SendInClientMode`).
- Payloads are values. The source's `Packet` shares the caller's `byte[]` (Packet.cs:26). So a caller that changes the buffer after `SendTo` changes what `CheckRetransmit` resends. The model keeps the payload as it was at send time.
- The effect log records every datagram handed to an open socket. That includes sends the socket then rejects, such as a datagram over the UDP size limit, whose exception `SendPacketTo` swallows (ReliableUdpTransport.cs:154-157). `CheckRetransmit` would log such an entry again on every tick.
- `FromBytes` does not check the kind byte. Any byte decodes, and the receive loop drops kinds other than Data and Ack.
- The order in which a `ConcurrentDictionary` is enumerated is unspecified. `CheckRetransmit` returns that order as a ghost value, and the proofs hold for every order.

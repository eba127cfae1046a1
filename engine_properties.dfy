/**
 * What the transport's handlers promise, stated over the transitions of
 * module Engine: acknowledgement before classification, in-order delivery,
 * pending-ack bookkeeping, retransmission, eviction, the running flag, and
 * the registry invariant they all keep.
 */
module EngineProperties {
  import opened Wrappers
  import opened Wire
  import opened Sessions
  import opened Engine

  /** The session a handler works on: the registered one, or the one
      GetOrCreateSession would create at `now`. */
  function SessionFor(st: EngineState, endPoint: Endpoint, now: int): (s: SessionState)
    ensures s.endPoint == endPoint || endPoint in st.sessions
  {
    if endPoint in st.sessions then st.sessions[endPoint] else NewSession(endPoint, now)
  }

  /** The sequence number a peer's next in-order Data packet must carry. */
  function ExpectedFrom(st: EngineState, endPoint: Endpoint): (e: uint32)
    ensures endPoint !in st.sessions ==> e == 0
  {
    if endPoint in st.sessions then st.sessions[endPoint].expectedReceiveSequence else 0
  }

  /** The Ack datagram HandleDataPacket sends back for sequence number `seqNum`. */
  function AckFor(seqNum: uint32, to: Endpoint): (e: Effect)
    ensures e.Sent? && FromBytes(e.bytes) == Success(Packet(AckKind, seqNum, []))
  {
    FromBytesOfFrame(CreateAckPacket(seqNum));
    Sent(Frame(CreateAckPacket(seqNum)), to)
  }

  // ---------------------------------------------------------------------
  // GetOrCreateSession, StartAsync, Stop

  /** Looking a session up twice creates it at most once. */
  lemma WithSessionIdempotent(st: EngineState, endPoint: Endpoint, now: int, later: int)
    ensures WithSession(WithSession(st, endPoint, now), endPoint, later) == WithSession(st, endPoint, now)
  {
  }

  lemma WithSessionKeepsConsistent(st: EngineState, endPoint: Endpoint, now: int)
    requires Consistent(st)
    ensures Consistent(WithSession(st, endPoint, now))
    ensures NoWrap(st) ==> NoWrap(WithSession(st, endPoint, now))
  {
  }

  lemma StartClearsRegistry(st: EngineState)
    ensures StartStep(st).sessions == map[] && StartStep(st).isRunning
    ensures StartStep(st).effects == st.effects && Consistent(StartStep(st))
  {
  }

  /** After Stop nothing is received, sent by SendTo, resent or evicted;
      Send may still number a packet, but the closed socket sends nothing. */
  lemma StoppedIsSilent(st: EngineState, buffer: seq<byte>, data: seq<byte>, endPoint: Endpoint,
                        from: Endpoint, now: int, st': EngineState, order: seq<PendingRef>)
    ensures var s := StopStep(st);
      && s.sessions == map[] && !s.isRunning && s.effects == st.effects
      && DatagramStep(s, buffer, from, now) == s
      && SendToStep(s, data, endPoint, now) == s
      && CleanupStep(s, now) == s
      && SendStep(s, data, now).effects == s.effects
      && (RetransmitStep(s, st', order, now) <==> st' == s && order == [])
  {
  }

  // ---------------------------------------------------------------------
  // HandleDataPacket

  /** The Ack goes out first, whatever the classification, and a Data packet
      is delivered, right after it, exactly when it is the one expected. */
  lemma HandleDataEffects(st: EngineState, p: Packet, from: Endpoint, now: int)
    requires Consistent(st) && !st.disposed
    ensures HandleDataStep(st, p, from, now).effects ==
      st.effects + [AckFor(p.sequenceNumber, from)]
        + (if p.sequenceNumber == ExpectedFrom(st, from) then [Delivered(p.payload, from)] else [])
  {
    var s := SessionFor(st, from, now);
    assert ReceivedBelowExpected(s);
    DeliveredExactlyWhenExpected(s, p.sequenceNumber, now);
  }

  /** A stale or duplicate Data packet is acknowledged and never delivered,
      whatever the state of the registry. */
  lemma StaleNeverDelivered(st: EngineState, p: Packet, from: Endpoint, now: int)
    requires p.sequenceNumber < ExpectedFrom(st, from)
    ensures HandleDataStep(st, p, from, now).effects ==
      st.effects + (if st.disposed then [] else [AckFor(p.sequenceNumber, from)])
  {
    StaleIsRefused(SessionFor(st, from, now), p.sequenceNumber, now);
  }

  /** HandleDataPacket touches the sender's session only, and stamps it. */
  lemma HandleDataTouchesSenderOnly(st: EngineState, p: Packet, from: Endpoint, now: int)
    ensures var r := HandleDataStep(st, p, from, now);
      && r.sessions.Keys == st.sessions.Keys + {from}
      && r.sessions[from].lastActivityTime == now
      && r.sessions[from].sendSequenceNumber == SessionFor(st, from, now).sendSequenceNumber
      && r.sessions[from].pendingAcks == SessionFor(st, from, now).pendingAcks
      && (forall e | e in st.sessions && e != from :: r.sessions[e] == st.sessions[e])
      && r.isRunning == st.isRunning && r.disposed == st.disposed
  {
    ReceiveRefreshesActivity(SessionFor(st, from, now), p.sequenceNumber, now);
  }

  lemma HandleDataKeepsConsistent(st: EngineState, p: Packet, from: Endpoint, now: int)
    requires Consistent(st) && NoWrap(st)
    ensures Consistent(HandleDataStep(st, p, from, now))
  {
    var st2 := WithSession(Transmit(st, CreateAckPacket(p.sequenceNumber), from), from, now);
    var s := st2.sessions[from];
    assert s == SessionFor(st, from, now);
    var r := ProcessReceiveSequence(s, p.sequenceNumber, now);
    ReceiveKeepsReceivedBelowExpected(s, p.sequenceNumber, now);
    UpdateKeepsConsistent(st2, from, r.next);
  }

  /** Replacing one session by a well-keyed one that keeps its received set
      below its expected number keeps the registry invariant. */
  lemma UpdateKeepsConsistent(st: EngineState, endPoint: Endpoint, s: SessionState)
    requires Consistent(st) && s.endPoint == endPoint && ReceivedBelowExpected(s)
    ensures Consistent(UpdateSession(st, endPoint, s))
  {
  }

  // ---------------------------------------------------------------------
  // HandleAckPacket

  /** The acknowledged number leaves the sender's pending map; nothing else
      changes, except that an unknown sender gets a fresh session. */
  lemma HandleAckRemovesPending(st: EngineState, seqNum: uint32, from: Endpoint, now: int)
    ensures var r := HandleAckStep(st, seqNum, from, now);
      var s := SessionFor(st, from, now);
      && r.sessions.Keys == st.sessions.Keys + {from}
      && r.sessions[from] == s.(pendingAcks := s.pendingAcks - {seqNum})
      && seqNum !in r.sessions[from].pendingAcks
      && (forall q | q in s.pendingAcks && q != seqNum :: q in r.sessions[from].pendingAcks)
      && (forall e | e in st.sessions && e != from :: r.sessions[e] == st.sessions[e])
      && r.effects == st.effects && r.isRunning == st.isRunning && r.disposed == st.disposed
  {
  }

  /** An Ack for a number that is not pending, from a known sender, changes nothing. */
  lemma HandleAckOfUnknownNumber(st: EngineState, seqNum: uint32, from: Endpoint, now: int)
    requires from in st.sessions && seqNum !in st.sessions[from].pendingAcks
    ensures HandleAckStep(st, seqNum, from, now) == st
  {
    assert st.sessions[from].pendingAcks - {seqNum} == st.sessions[from].pendingAcks;
    assert st.sessions[from := st.sessions[from]] == st.sessions;
  }

  /** A duplicated Ack has no further effect. */
  lemma HandleAckIdempotent(st: EngineState, seqNum: uint32, from: Endpoint, now: int, later: int)
    ensures var once := HandleAckStep(st, seqNum, from, now);
      HandleAckStep(once, seqNum, from, later) == once
  {
    var once := HandleAckStep(st, seqNum, from, now);
    HandleAckOfUnknownNumber(once, seqNum, from, later);
  }

  lemma HandleAckKeepsConsistent(st: EngineState, seqNum: uint32, from: Endpoint, now: int)
    requires Consistent(st)
    ensures Consistent(HandleAckStep(st, seqNum, from, now))
  {
  }

  // ---------------------------------------------------------------------
  // ReceiveLoop dispatch

  /** A datagram that is a frame is handled by the handler its kind names;
      any other kind is dropped. */
  lemma DatagramDispatch(st: EngineState, p: Packet, from: Endpoint, now: int)
    requires st.isRunning && !st.disposed
    ensures DatagramStep(st, Frame(p), from, now) ==
      if p.kind == DataKind then HandleDataStep(st, p, from, now)
      else if p.kind == AckKind then HandleAckStep(st, p.sequenceNumber, from, now)
      else st
  {
    FromBytesOfFrame(p);
  }

  /** A datagram shorter than a header is dropped. */
  lemma ShortDatagramIgnored(st: EngineState, buffer: seq<byte>, from: Endpoint, now: int)
    requires |buffer| < 5
    ensures DatagramStep(st, buffer, from, now) == st
  {
  }

  lemma DatagramKeepsConsistent(st: EngineState, buffer: seq<byte>, from: Endpoint, now: int)
    requires Consistent(st) && NoWrap(st)
    ensures Consistent(DatagramStep(st, buffer, from, now))
  {
    if st.isRunning && !st.disposed && FromBytes(buffer).Success? {
      var p := FromBytes(buffer).value;
      if p.kind == DataKind {
        HandleDataKeepsConsistent(st, p, from, now);
      } else if p.kind == AckKind {
        HandleAckKeepsConsistent(st, p.sequenceNumber, from, now);
      }
    }
  }

  // ---------------------------------------------------------------------
  // SendTo and Send

  lemma SendToWhenStopped(st: EngineState, data: seq<byte>, endPoint: Endpoint, now: int)
    requires !st.isRunning
    ensures SendToStep(st, data, endPoint, now) == st
  {
  }

  /** When running, SendTo numbers the packet with the session's counter,
      records it as pending at `now` and sends exactly that Data packet. */
  lemma SendToRecordsAndSends(st: EngineState, data: seq<byte>, endPoint: Endpoint, now: int)
    requires st.isRunning
    ensures var r := SendToStep(st, data, endPoint, now);
      var s := SessionFor(st, endPoint, now);
      var n := s.sendSequenceNumber;
      && r.sessions.Keys == st.sessions.Keys + {endPoint}
      && r.sessions[endPoint].sendSequenceNumber == WrapIncrement(n)
      && r.sessions[endPoint].pendingAcks == s.pendingAcks[n := PendingAck(CreateDataPacket(data, n), now)]
      && (forall e | e in st.sessions && e != endPoint :: r.sessions[e] == st.sessions[e])
      && r.effects == st.effects + (if st.disposed then [] else [Sent(Frame(CreateDataPacket(data, n)), endPoint)])
      && FromBytes(Frame(CreateDataPacket(data, n))) == Success(Packet(DataKind, n, data))
  {
    FromBytesOfFrame(CreateDataPacket(data, SessionFor(st, endPoint, now).sendSequenceNumber));
  }

  lemma SendToKeepsConsistent(st: EngineState, data: seq<byte>, endPoint: Endpoint, now: int)
    requires Consistent(st)
    ensures Consistent(SendToStep(st, data, endPoint, now))
  {
  }

  lemma SendInServerMode(st: EngineState, data: seq<byte>, now: int)
    requires st.isServer || st.defaultEndPoint.None?
    ensures SendStep(st, data, now) == st
  {
  }

  /** In client mode Send numbers and sends a Data packet to the default
      endpoint, running or not, and leaves the pending map as it was. */
  lemma SendInClientMode(st: EngineState, data: seq<byte>, now: int)
    requires !st.isServer && st.defaultEndPoint.Some?
    ensures var endPoint := st.defaultEndPoint.value;
      var r := SendStep(st, data, now);
      var s := SessionFor(st, endPoint, now);
      var n := s.sendSequenceNumber;
      && r.sessions.Keys == st.sessions.Keys + {endPoint}
      && r.sessions[endPoint].sendSequenceNumber == WrapIncrement(n)
      && r.sessions[endPoint].pendingAcks == s.pendingAcks
      && (forall e | e in st.sessions && e != endPoint :: r.sessions[e] == st.sessions[e])
      && r.effects == st.effects + (if st.disposed then [] else [Sent(Frame(CreateDataPacket(data, n)), endPoint)])
  {
  }

  lemma SendKeepsConsistent(st: EngineState, data: seq<byte>, now: int)
    requires Consistent(st)
    ensures Consistent(SendStep(st, data, now))
  {
  }

  // ---------------------------------------------------------------------
  // CheckRetransmit

  /** An entry is due exactly when it is pending and strictly older than the
      retransmit timeout. */
  lemma DueExactly(st: EngineState, now: int, r: PendingRef)
    ensures r in DueForRetransmit(st, now) <==> IsPending(st, r) && now - Entry(st, r).time > RetransmitTimeoutMs
  {
    if IsPending(st, r) && now - Entry(st, r).time > RetransmitTimeoutMs {
      assert r == PendingRef(r.endPoint, r.sequenceNumber);
    }
  }

  /** A list with no repeats that enumerates a set has the set's size. */
  lemma {:induction false} EnumeratesSize<T>(order: seq<T>, s: set<T>)
    requires Enumerates(order, s)
    ensures |order| == |s|
    decreases |order|
  {
    if order != [] {
      var x := order[|order| - 1];
      var rest := order[..|order| - 1];
      assert Enumerates(rest, s - {x}) by {
        forall y | y in s - {x} ensures y in rest {
          var k :| 0 <= k < |order| && order[k] == y;
          assert k != |order| - 1;
          assert rest[k] == y;
        }
      }
      EnumeratesSize(rest, s - {x});
    } else {
      assert forall x | x in s :: false;
      assert s == {};
    }
  }

  /** A retransmit tick sends one datagram per due entry, each the entry's
      own packet byte for byte, to its session's endpoint; the pending maps
      and their timestamps are left as they were. */
  lemma RetransmitResendsVerbatim(st: EngineState, st': EngineState, order: seq<PendingRef>, now: int)
    requires RetransmitStep(st, st', order, now) && st.isRunning && !st.disposed
    ensures st'.sessions == st.sessions
    ensures |st'.effects| == |st.effects| + |DueForRetransmit(st, now)|
    ensures forall i | 0 <= i < |order| ::
      && IsPending(st, order[i]) && now - Entry(st, order[i]).time > RetransmitTimeoutMs
      && st'.effects[|st.effects| + i].Sent?
      && st'.effects[|st.effects| + i].to == order[i].endPoint
      && FromBytes(st'.effects[|st.effects| + i].bytes) == Success(Entry(st, order[i]).packet)
  {
    EnumeratesSize(order, DueForRetransmit(st, now));
    forall i | 0 <= i < |order|
      ensures FromBytes(st'.effects[|st.effects| + i].bytes) == Success(Entry(st, order[i]).packet)
    {
      assert st'.effects[|st.effects| + i] == Resend(st, order[i]);
      FromBytesOfFrame(Entry(st, order[i]).packet);
    }
  }

  /** A retransmit tick removes no pending entry and changes no timestamp, so
      there is no attempt cap: an entry due now is still due at every later
      time after the tick. */
  lemma StillDueLater(st: EngineState, st': EngineState, order: seq<PendingRef>, now: int, later: int)
    requires RetransmitStep(st, st', order, now) && now <= later
    ensures DueForRetransmit(st, now) <= DueForRetransmit(st', later)
  {
    forall r | r in DueForRetransmit(st, now)
      ensures r in DueForRetransmit(st', later)
    {
      DueExactly(st, now, r);
      DueExactly(st', later, r);
    }
  }

  // ---------------------------------------------------------------------
  // CleanupSession

  /** When running, a cleanup tick keeps exactly the sessions not idle for
      more than the cleanup timeout, untouched, and sends nothing. */
  lemma CleanupKeepsExactlyActive(st: EngineState, now: int)
    requires st.isRunning && !st.disposed
    ensures var r := CleanupStep(st, now);
      && (forall e :: e in r.sessions <==> e in st.sessions && now - st.sessions[e].lastActivityTime <= CleanupTimeoutMs)
      && (forall e | e in r.sessions :: r.sessions[e] == st.sessions[e])
      && r.effects == st.effects && r.isRunning && !r.disposed
  {
  }

  lemma CleanupWhenStopped(st: EngineState, now: int)
    requires !st.isRunning || st.disposed
    ensures CleanupStep(st, now) == st
  {
  }

  /** A second tick at the same time evicts nothing more. */
  lemma CleanupIdempotent(st: EngineState, now: int)
    ensures CleanupStep(CleanupStep(st, now), now) == CleanupStep(st, now)
  {
  }

  /** The pending entries of an evicted session are never resent. */
  lemma EvictedNotResent(st: EngineState, now: int, later: int, r: PendingRef)
    requires st.isRunning && !st.disposed
    requires r.endPoint in st.sessions && Idle(st.sessions[r.endPoint], now)
    ensures r !in DueForRetransmit(CleanupStep(st, now), later)
  {
  }

  lemma CleanupKeepsConsistent(st: EngineState, now: int)
    requires Consistent(st)
    ensures Consistent(CleanupStep(st, now))
  {
  }

  // ---------------------------------------------------------------------
  // End to end

  /**
   * A client sends "Hi" to a server that has just started: the server acks
   * sequence number 0 and delivers the payload once; a duplicate of the
   * same datagram is acked again but not delivered; the client takes the
   * Ack, which finds nothing pending because Send does not record it.
   */
  lemma HelloExchange(server: Endpoint, client: Endpoint)
    ensures var hello := [0x48, 0x69];
      var c1 := SendStep(StartStep(ClientState(server)), hello, 0);
      var datagram := Frame(CreateDataPacket(hello, 0));
      var s1 := DatagramStep(StartStep(ServerState()), datagram, client, 5);
      var s2 := DatagramStep(s1, datagram, client, 6);
      var c2 := DatagramStep(c1, Frame(CreateAckPacket(0)), server, 10);
      && c1.effects == [Sent(datagram, server)]
      && s1.effects == [AckFor(0, client), Delivered(hello, client)]
      && s2.effects == s1.effects + [AckFor(0, client)]
      && c2.effects == c1.effects
      && c2.sessions[server].pendingAcks == map[]
  {
    var hello: seq<byte> := [0x48, 0x69];
    var s0 := StartStep(ServerState());
    DatagramDispatch(s0, CreateDataPacket(hello, 0), client, 5);
    var s1 := HandleDataStep(s0, CreateDataPacket(hello, 0), client, 5);
    HandleDataEffects(s0, CreateDataPacket(hello, 0), client, 5);
    DatagramDispatch(s1, CreateDataPacket(hello, 0), client, 6);
    HandleDataKeepsConsistent(s0, CreateDataPacket(hello, 0), client, 5);
    HandleDataEffects(s1, CreateDataPacket(hello, 0), client, 6);
    var c1 := SendStep(StartStep(ClientState(server)), hello, 0);
    DatagramDispatch(c1, CreateAckPacket(0), server, 10);
  }

  /**
   * The server replies with SendTo: the reply is pending until the client's
   * Ack for it arrives, and the Ack clears it, so a later tick resends nothing.
   */
  lemma ReplyAcknowledged(client: Endpoint, reply: seq<byte>, later: int)
    ensures var s1 := SendToStep(StartStep(ServerState()), reply, client, 0);
      var s2 := DatagramStep(s1, Frame(CreateAckPacket(0)), client, 20);
      && PendingRef(client, 0) in DueForRetransmit(s1, 1001)
      && s2.sessions[client].pendingAcks == map[]
      && DueForRetransmit(s2, later) == {}
  {
    var s0 := StartStep(ServerState());
    var s1 := SendToStep(s0, reply, client, 0);
    SendToRecordsAndSends(s0, reply, client, 0);
    DueExactly(s1, 1001, PendingRef(client, 0));
    DatagramDispatch(s1, CreateAckPacket(0), client, 20);
    var s2 := HandleAckStep(s1, 0, client, 20);
    HandleAckRemovesPending(s1, 0, client, 20);
    forall r | r in DueForRetransmit(s2, later) ensures false {
      DueExactly(s2, later, r);
    }
  }
}

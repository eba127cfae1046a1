/**
 * The transport object (Network.ReliableUdpTransport): a registry of session
 * objects keyed by endpoint, the running flag, and the log of what it sent
 * and delivered. Every handler is one atomic step, proved to perform the
 * matching transition of module Engine.
 */
module Transport {
  import opened Wrappers
  import opened Wire
  import opened Sessions
  import opened Engine

  class ReliableUdpTransport {
    const isServer: bool
    const defaultEndPoint: Option<Endpoint>
    var sessions: map<Endpoint, ClientSession>
    var isRunning: bool
    var disposed: bool
    var effects: seq<Effect>

    /** Each session object is registered under its own endpoint, so distinct
        keys hold distinct objects. */
    ghost predicate Valid()
      reads this
    {
      forall e | e in sessions :: sessions[e].endPoint == e
    }

    function Registry(): map<Endpoint, SessionState>
      reads this`sessions, sessions.Values
    {
      map e | e in sessions :: sessions[e].State()
    }

    function State(): EngineState
      reads this, sessions.Values
    {
      EngineState(isServer, defaultEndPoint, isRunning, disposed, Registry(), effects)
    }

    /** The server constructor (the port it binds is not modelled). */
    constructor Server()
      ensures Valid() && State() == ServerState()
    {
      isServer := true;
      defaultEndPoint := None;
      sessions := map[];
      isRunning := false;
      disposed := false;
      effects := [];
    }

    /** The client constructor, with the server's endpoint already parsed. */
    constructor Client(remote: Endpoint)
      ensures Valid() && State() == ClientState(remote)
    {
      isServer := false;
      defaultEndPoint := Some(remote);
      sessions := map[];
      isRunning := false;
      disposed := false;
      effects := [];
    }

    method StartAsync()
      modifies this
      ensures Valid() && State() == StartStep(old(State()))
    {
      isRunning := true;
      sessions := map[];
    }

    method Stop()
      modifies this
      ensures Valid() && State() == StopStep(old(State()))
    {
      isRunning := false;
      disposed := true;
      sessions := map[];
    }

    method SendPacketTo(packet: Packet, endPoint: Endpoint)
      modifies this`effects
      ensures effects == if disposed then old(effects) else old(effects) + [Sent(Frame(packet), endPoint)]
      ensures State() == Transmit(old(State()), packet, endPoint)
    {
      if !disposed {
        var bytes := ToBytes(packet);
        effects := effects + [Sent(bytes[..], endPoint)];
      }
    }

    method GetOrCreateSession(endPoint: Endpoint, now: int) returns (session: ClientSession)
      requires Valid()
      modifies this`sessions
      ensures Valid()
      ensures endPoint in sessions && session == sessions[endPoint]
      ensures endPoint in old(sessions) ==> sessions == old(sessions)
      ensures endPoint !in old(sessions) ==> fresh(session) && sessions == old(sessions)[endPoint := session]
      ensures State() == WithSession(old(State()), endPoint, now)
    {
      if endPoint in sessions {
        session := sessions[endPoint];
      } else {
        session := new ClientSession(endPoint, now);
        sessions := sessions[endPoint := session];
        assert Registry() == old(Registry())[endPoint := NewSession(endPoint, now)];
      }
    }

    /** session.GetNextSequenceNumber on the session registered under `endPoint`. */
    method NextSequenceNumberOn(session: ClientSession, endPoint: Endpoint) returns (seqNum: uint32)
      requires Valid() && endPoint in sessions && session == sessions[endPoint]
      modifies session
      ensures Valid()
      ensures Allocation(session.State(), seqNum) == NextSequenceNumber(old(State()).sessions[endPoint])
      ensures State() == UpdateSession(old(State()), endPoint, session.State())
    {
      ghost var before := Registry();
      seqNum := session.GetNextSequenceNumber();
      OneSessionUpdated(this, before, endPoint);
    }

    /** `session.PendingAcks[seqNum] = (packet, now)` on the session registered under `endPoint`. */
    method SetPendingOn(session: ClientSession, endPoint: Endpoint, seqNum: uint32, packet: Packet, now: int)
      requires Valid() && endPoint in sessions && session == sessions[endPoint]
      modifies session
      ensures Valid()
      ensures var s := old(State()).sessions[endPoint];
        session.State() == s.(pendingAcks := s.pendingAcks[seqNum := PendingAck(packet, now)])
      ensures State() == UpdateSession(old(State()), endPoint, session.State())
    {
      ghost var before := Registry();
      session.pendingAcks := session.pendingAcks[seqNum := PendingAck(packet, now)];
      OneSessionUpdated(this, before, endPoint);
    }

    /** `session.PendingAcks.TryRemove(seqNum, out _)` on the session registered under `endPoint`. */
    method TryRemovePendingOn(session: ClientSession, endPoint: Endpoint, seqNum: uint32) returns (removed: bool)
      requires Valid() && endPoint in sessions && session == sessions[endPoint]
      modifies session
      ensures Valid()
      ensures var s := old(State()).sessions[endPoint];
        && removed == (seqNum in s.pendingAcks)
        && session.State() == s.(pendingAcks := s.pendingAcks - {seqNum})
      ensures State() == UpdateSession(old(State()), endPoint, session.State())
    {
      ghost var before := Registry();
      removed := seqNum in session.pendingAcks;
      session.pendingAcks := session.pendingAcks - {seqNum};
      OneSessionUpdated(this, before, endPoint);
    }

    /** session.TryProcessReceiveSequence on the session registered under `from`. */
    method ProcessReceiveOn(session: ClientSession, from: Endpoint, seqNum: uint32, now: int) returns (accepted: bool, shouldDeliver: bool)
      requires Valid() && from in sessions && session == sessions[from]
      modifies session
      ensures Valid()
      ensures ReceiveStep(session.State(), accepted, shouldDeliver) == ProcessReceiveSequence(old(State()).sessions[from], seqNum, now)
      ensures State() == UpdateSession(old(State()), from, session.State())
    {
      ghost var before := Registry();
      accepted, shouldDeliver := session.TryProcessReceiveSequence(seqNum, now);
      OneSessionUpdated(this, before, from);
    }

    /** `OnReceive?.Invoke(payload, from)`: the application callback, recorded. */
    method InvokeOnReceive(payload: seq<byte>, from: Endpoint)
      modifies this`effects
      ensures State() == Deliver(old(State()), payload, from)
    {
      effects := effects + [Delivered(payload, from)];
    }

    method SendTo(data: seq<byte>, endPoint: Endpoint, now: int)
      requires Valid()
      modifies this, sessions.Values
      ensures Valid() && State() == SendToStep(old(State()), data, endPoint, now)
    {
      if !isRunning {
        return;
      }
      var session := GetOrCreateSession(endPoint, now);
      ghost var st1 := State();
      var seqNum := NextSequenceNumberOn(session, endPoint);
      var packet := CreateDataPacket(data, seqNum);
      ghost var st2 := State();
      SetPendingOn(session, endPoint, seqNum, packet, now);
      UpdateSessionTwice(st1, endPoint, st2.sessions[endPoint], session.State());
      SendPacketTo(packet, endPoint);
    }

    method Send(data: seq<byte>, now: int)
      requires Valid()
      modifies this, sessions.Values
      ensures Valid() && State() == SendStep(old(State()), data, now)
    {
      if !isServer && defaultEndPoint.Some? {
        var endPoint := defaultEndPoint.value;
        var session := GetOrCreateSession(endPoint, now);
        var seqNum := NextSequenceNumberOn(session, endPoint);
        var packet := CreateDataPacket(data, seqNum);
        SendPacketTo(packet, endPoint);
      }
    }

    method HandleDataPacket(packet: Packet, from: Endpoint, now: int)
      requires Valid()
      modifies this, sessions.Values
      ensures Valid() && State() == HandleDataStep(old(State()), packet, from, now)
    {
      var ackPacket := CreateAckPacket(packet.sequenceNumber);
      SendPacketTo(ackPacket, from);
      var session := GetOrCreateSession(from, now);
      var accepted, shouldDeliver := ProcessReceiveOn(session, from, packet.sequenceNumber, now);
      if accepted && shouldDeliver {
        InvokeOnReceive(packet.payload, from);
      }
    }

    method HandleAckPacket(packet: Packet, from: Endpoint, now: int)
      requires Valid()
      modifies this, sessions.Values
      ensures Valid() && State() == HandleAckStep(old(State()), packet.sequenceNumber, from, now)
    {
      var session := GetOrCreateSession(from, now);
      var removed := TryRemovePendingOn(session, from, packet.sequenceNumber);
    }

    /** One pass of ReceiveLoop, for a datagram `buffer` from `from`. */
    method ReceiveDatagram(buffer: seq<byte>, from: Endpoint, now: int)
      requires Valid()
      modifies this, sessions.Values
      ensures Valid() && State() == DatagramStep(old(State()), buffer, from, now)
    {
      if !isRunning || disposed {
        return;
      }
      var decoded := FromBytes(buffer);
      if decoded.Success? {
        var packet := decoded.value;
        if packet.kind == DataKind {
          HandleDataPacket(packet, from, now);
        } else if packet.kind == AckKind {
          HandleAckPacket(packet, from, now);
        }
      }
    }

    /** The needRetransmits list: every pending entry of every session older
        than the retransmit timeout, each once, in enumeration order. */
    method CollectRetransmits(now: int) returns (needRetransmits: seq<Retransmission>, order: seq<PendingRef>)
      ensures |needRetransmits| == |order|
      ensures Enumerates(order, DueForRetransmit(State(), now))
      ensures forall i | 0 <= i < |order| :: IsPending(State(), order[i]) && needRetransmits[i] == RetransmissionOf(State(), order[i])
    {
      ghost var st := State();
      ghost var due := DueForRetransmit(st, now);
      ghost var covered: set<PendingRef> := {};
      needRetransmits, order := [], [];
      var remaining := sessions.Keys;
      while remaining != {}
        invariant remaining <= sessions.Keys
        invariant |needRetransmits| == |order|
        invariant Enumerates(order, covered)
        invariant Covers(covered, due, remaining)
        invariant forall e | e in sessions :: sessions[e].pendingAcks == st.sessions[e].pendingAcks
        invariant forall i | 0 <= i < |order| :: needRetransmits[i] == RetransmissionOf(st, order[i])
        decreases remaining
      {
        var endPoint :| endPoint in remaining;
        ghost var part := DuePending(endPoint, st.sessions[endPoint].pendingAcks, now);
        var found, refs := CollectDue(endPoint, sessions[endPoint].pendingAcks, now);
        DueOfSession(st, now, endPoint);
        CoverEndpoint(due, covered, remaining, endPoint, part);
        EnumeratesAppend(order, covered, refs, part);
        needRetransmits := needRetransmits + found;
        order := order + refs;
        covered := covered + part;
        remaining := remaining - {endPoint};
      }
      assert Covers(covered, due, remaining);
      assert covered == due;
    }

    /** A tick of the retransmit timer. `order` is the order in which the
        registry happened to be enumerated. */
    method CheckRetransmit(now: int) returns (ghost order: seq<PendingRef>)
      requires Valid()
      modifies this`effects
      ensures Valid() && RetransmitStep(old(State()), State(), order, now)
    {
      order := [];
      if !isRunning || disposed {
        return;
      }
      ghost var st := State();
      var needRetransmits;
      needRetransmits, order := CollectRetransmits(now);
      var i := 0;
      while i < |needRetransmits|
        invariant 0 <= i <= |needRetransmits|
        invariant State() == st.(effects := st.effects + Resends(st, order)[..i])
      {
        SendPacketTo(needRetransmits[i].packet, needRetransmits[i].endPoint);
        i := i + 1;
      }
      assert Resends(st, order)[..i] == Resends(st, order);
    }

    /** The toRemove list: the registered endpoints whose sessions are idle. */
    method CollectIdle(now: int) returns (toRemove: seq<Endpoint>)
      ensures forall e :: e in toRemove <==> e in sessions && Idle(State().sessions[e], now)
    {
      ghost var st := State();
      toRemove := [];
      var remaining := sessions.Keys;
      while remaining != {}
        invariant remaining <= sessions.Keys
        invariant forall e :: e in toRemove <==> e in sessions && e !in remaining && Idle(st.sessions[e], now)
        decreases remaining
      {
        var endPoint :| endPoint in remaining;
        if now - sessions[endPoint].lastActivityTime > CleanupTimeoutMs {
          toRemove := toRemove + [endPoint];
        }
        remaining := remaining - {endPoint};
      }
    }

    /** A tick of the cleanup timer. */
    method CleanupSession(now: int)
      requires Valid()
      modifies this`sessions
      ensures Valid() && State() == CleanupStep(old(State()), now)
    {
      if !isRunning || disposed {
        return;
      }
      ghost var st := State();
      var toRemove := CollectIdle(now);
      RemoveSessions(toRemove);
      IdleRemoved(this, st.sessions, now);
    }

    /** Drops the listed endpoints from the registry, one at a time. */
    method RemoveSessions(toRemove: seq<Endpoint>)
      modifies this`sessions
      ensures forall e :: e in sessions <==> e in old(sessions) && e !in toRemove
      ensures forall e | e in sessions :: sessions[e] == old(sessions)[e]
    {
      var i := 0;
      while i < |toRemove|
        invariant 0 <= i <= |toRemove|
        invariant forall e :: e in sessions <==> e in old(sessions) && e !in toRemove[..i]
        invariant forall e | e in sessions :: sessions[e] == old(sessions)[e]
      {
        sessions := sessions - {toRemove[i]};
        i := i + 1;
      }
      assert toRemove[..i] == toRemove;
    }
  }

  /** The entries of one session's pending map older than the retransmit
      timeout, each once, in the order the map was enumerated. */
  method CollectDue(endPoint: Endpoint, pendingAcks: map<uint32, PendingAck>, now: int)
    returns (found: seq<Retransmission>, refs: seq<PendingRef>)
    ensures |found| == |refs|
    ensures Enumerates(refs, DuePending(endPoint, pendingAcks, now))
    ensures forall i | 0 <= i < |refs| ::
      && refs[i].endPoint == endPoint && refs[i].sequenceNumber in pendingAcks
      && found[i] == Retransmission(refs[i].sequenceNumber, pendingAcks[refs[i].sequenceNumber].packet, endPoint)
  {
    ghost var due := DuePending(endPoint, pendingAcks, now);
    found, refs := [], [];
    var pendingKeys := pendingAcks.Keys;
    while pendingKeys != {}
      invariant pendingKeys <= pendingAcks.Keys
      invariant |found| == |refs|
      invariant forall i | 0 <= i < |refs| ::
        && refs[i] in due && refs[i].sequenceNumber !in pendingKeys
        && found[i] == Retransmission(refs[i].sequenceNumber, pendingAcks[refs[i].sequenceNumber].packet, endPoint)
      invariant forall i, j | 0 <= i < j < |refs| :: refs[i] != refs[j]
      invariant forall r | r in due && r.sequenceNumber !in pendingKeys :: r in refs
      decreases pendingKeys
    {
      var seqNum :| seqNum in pendingKeys;
      var entry := pendingAcks[seqNum];
      if now - entry.time > RetransmitTimeoutMs {
        found := found + [Retransmission(seqNum, entry.packet, endPoint)];
        refs := refs + [PendingRef(endPoint, seqNum)];
      }
      pendingKeys := pendingKeys - {seqNum};
    }
  }

  /** The part of DueForRetransmit that belongs to one registered session is
      what CollectDue looks for in that session's pending map. */
  lemma DueOfSession(st: EngineState, now: int, endPoint: Endpoint)
    requires endPoint in st.sessions
    ensures forall r :: r in DuePending(endPoint, st.sessions[endPoint].pendingAcks, now) <==>
                        r in DueForRetransmit(st, now) && r.endPoint == endPoint
  {
  }

  /** `covered` is the part of `due` whose endpoints are no longer `remaining`. */
  ghost predicate Covers(covered: set<PendingRef>, due: set<PendingRef>, remaining: set<Endpoint>)
  {
    forall r :: r in covered <==> r in due && r.endPoint !in remaining
  }

  /** Visiting one more endpoint covers its part of `due`, which is disjoint
      from what was covered before. */
  lemma CoverEndpoint(due: set<PendingRef>, covered: set<PendingRef>, remaining: set<Endpoint>,
                      endPoint: Endpoint, part: set<PendingRef>)
    requires Covers(covered, due, remaining) && endPoint in remaining
    requires forall r :: r in part <==> r in due && r.endPoint == endPoint
    ensures covered !! part
    ensures Covers(covered + part, due, remaining - {endPoint})
  {
  }

  /** When the registry holds exactly the sessions of `before` that are not
      idle, unchanged, the registry view is `before` with the idle ones dropped. */
  lemma IdleRemoved(t: ReliableUdpTransport, before: map<Endpoint, SessionState>, now: int)
    requires forall e | e in t.sessions :: e in before && t.sessions[e].State() == before[e]
    requires forall e | e in before :: e in t.sessions <==> !Idle(before[e], now)
    ensures t.Registry() == map e | e in before && !Idle(before[e], now) :: before[e]
  {
  }

  /** When every session object but the one under `e` still has the state
      recorded in `before`, the registry view differs from `before` at `e` alone. */
  lemma OneSessionUpdated(t: ReliableUdpTransport, before: map<Endpoint, SessionState>, e: Endpoint)
    requires e in t.sessions && t.sessions.Keys == before.Keys
    requires forall k | k in t.sessions && k != e :: t.sessions[k].State() == before[k]
    ensures t.Registry() == before[e := t.sessions[e].State()]
  {
  }
}

/**
 * What each handler of the reliable-UDP transport (Network.ReliableUdpTransport)
 * does, as a transition on a value-level engine state.
 *
 * Socket sends and OnReceive invocations are recorded, in the order they
 * happen, in one effect log. The class in module Transport performs these
 * transitions on objects; the lemmas here state what they promise.
 */
module Engine {
  import opened Wrappers
  import opened Wire
  import opened Sessions

  const RetransmitTimeoutMs: int := 1000
  /** Declared by the transport but read nowhere: retransmission has no cap. */
  const MaxRetransmitAttempts: int := 5
  const CleanupTimeoutMs: int := 30000

  /** A datagram handed to the socket, or a payload handed to OnReceive. */
  datatype Effect =
    | Sent(bytes: seq<byte>, to: Endpoint)
    | Delivered(payload: seq<byte>, from: Endpoint)

  /**
   * isServer and defaultEndPoint are fixed by the constructor; disposed
   * records that Stop has closed the socket and disposed both timers.
   */
  datatype EngineState = EngineState(
    isServer: bool,
    defaultEndPoint: Option<Endpoint>,
    isRunning: bool,
    disposed: bool,
    sessions: map<Endpoint, SessionState>,
    effects: seq<Effect>)

  /** Each session is registered under its own endpoint. */
  predicate WellKeyed(sessions: map<Endpoint, SessionState>)
  {
    forall e | e in sessions :: sessions[e].endPoint == e
  }

  /** The registry invariant: well keyed, and every session's received set
      lies below its expected number. */
  predicate Consistent(st: EngineState)
  {
    && WellKeyed(st.sessions)
    && forall e | e in st.sessions :: ReceivedBelowExpected(st.sessions[e])
  }

  /** No session's expected number is about to wrap. */
  predicate NoWrap(st: EngineState)
  {
    forall e | e in st.sessions :: st.sessions[e].expectedReceiveSequence < MaxUInt32
  }

  function ServerState(): EngineState
  {
    EngineState(true, None, false, false, map[], [])
  }

  function ClientState(remote: Endpoint): EngineState
  {
    EngineState(false, Some(remote), false, false, map[], [])
  }

  /** StartAsync: raise the running flag and clear the registry. */
  function StartStep(st: EngineState): EngineState
  {
    st.(isRunning := true, sessions := map[])
  }

  /** Stop: lower the flag, dispose the timers and the socket, clear the registry. */
  function StopStep(st: EngineState): EngineState
  {
    st.(isRunning := false, disposed := true, sessions := map[])
  }

  /** SendPacketTo: serialise and send; once the socket is closed the send
      throws and the exception is swallowed, so nothing goes out. */
  function Transmit(st: EngineState, p: Packet, to: Endpoint): EngineState
  {
    if st.disposed then st else st.(effects := st.effects + [Sent(Frame(p), to)])
  }

  /** Replace the session registered under `endPoint`. */
  function UpdateSession(st: EngineState, endPoint: Endpoint, s: SessionState): EngineState
  {
    st.(sessions := st.sessions[endPoint := s])
  }

  /** A second replacement under the same endpoint overrides the first. */
  lemma UpdateSessionTwice(st: EngineState, endPoint: Endpoint, s1: SessionState, s2: SessionState)
    ensures UpdateSession(UpdateSession(st, endPoint, s1), endPoint, s2) == UpdateSession(st, endPoint, s2)
  {
    assert st.sessions[endPoint := s1][endPoint := s2] == st.sessions[endPoint := s2];
  }

  /** OnReceive invoked with a payload from a peer. */
  function Deliver(st: EngineState, payload: seq<byte>, from: Endpoint): EngineState
  {
    st.(effects := st.effects + [Delivered(payload, from)])
  }

  /** GetOrCreateSession: the existing session, or a fresh one stamped now. */
  function WithSession(st: EngineState, endPoint: Endpoint, now: int): (r: EngineState)
    ensures endPoint in r.sessions
    ensures r.sessions.Keys == st.sessions.Keys + {endPoint}
    ensures forall e | e in st.sessions :: r.sessions[e] == st.sessions[e]
    ensures endPoint !in st.sessions ==> r.sessions[endPoint] == NewSession(endPoint, now)
    ensures r == st.(sessions := r.sessions)
  {
    if endPoint in st.sessions then st
    else st.(sessions := st.sessions[endPoint := NewSession(endPoint, now)])
  }

  /** SendTo: when running, allocate a number, record it as pending and send. */
  function SendToStep(st: EngineState, data: seq<byte>, endPoint: Endpoint, now: int): EngineState
  {
    if !st.isRunning then st
    else
      var st1 := WithSession(st, endPoint, now);
      var a := NextSequenceNumber(st1.sessions[endPoint]);
      var packet := CreateDataPacket(data, a.sequenceNumber);
      var session := a.next.(pendingAcks := a.next.pendingAcks[a.sequenceNumber := PendingAck(packet, now)]);
      Transmit(UpdateSession(st1, endPoint, session), packet, endPoint)
  }

  /** Send: in client mode allocate a number on the default endpoint's session
      and send, without recording it as pending; in server mode nothing. */
  function SendStep(st: EngineState, data: seq<byte>, now: int): EngineState
  {
    if !st.isServer && st.defaultEndPoint.Some? then
      var endPoint := st.defaultEndPoint.value;
      var st1 := WithSession(st, endPoint, now);
      var a := NextSequenceNumber(st1.sessions[endPoint]);
      Transmit(UpdateSession(st1, endPoint, a.next), CreateDataPacket(data, a.sequenceNumber), endPoint)
    else
      st
  }

  /** HandleDataPacket: acknowledge, then classify, then deliver if told to. */
  function HandleDataStep(st: EngineState, p: Packet, from: Endpoint, now: int): EngineState
  {
    var st1 := Transmit(st, CreateAckPacket(p.sequenceNumber), from);
    var st2 := WithSession(st1, from, now);
    var r := ProcessReceiveSequence(st2.sessions[from], p.sequenceNumber, now);
    var st3 := UpdateSession(st2, from, r.next);
    if r.accepted && r.shouldDeliver then Deliver(st3, p.payload, from) else st3
  }

  /** HandleAckPacket: drop the acknowledged number from the sender's pending map. */
  function HandleAckStep(st: EngineState, seqNum: uint32, from: Endpoint, now: int): EngineState
  {
    var st1 := WithSession(st, from, now);
    var session := st1.sessions[from];
    UpdateSession(st1, from, session.(pendingAcks := session.pendingAcks - {seqNum}))
  }

  /** One pass of ReceiveLoop over a datagram: decode, then dispatch on the kind.
      A buffer that fails to decode and an unknown kind are dropped. */
  function DatagramStep(st: EngineState, buffer: seq<byte>, from: Endpoint, now: int): EngineState
  {
    if !st.isRunning || st.disposed then st
    else
      match FromBytes(buffer)
      case Failure(_) => st
      case Success(p) =>
        if p.kind == DataKind then HandleDataStep(st, p, from, now)
        else if p.kind == AckKind then HandleAckStep(st, p.sequenceNumber, from, now)
        else st
  }

  /** A pending entry, named by its session's endpoint and its sequence number. */
  datatype PendingRef = PendingRef(endPoint: Endpoint, sequenceNumber: uint32)

  predicate IsPending(st: EngineState, r: PendingRef)
  {
    r.endPoint in st.sessions && r.sequenceNumber in st.sessions[r.endPoint].pendingAcks
  }

  /** The entry a pending reference names. */
  function Entry(st: EngineState, r: PendingRef): PendingAck
    requires IsPending(st, r)
  {
    st.sessions[r.endPoint].pendingAcks[r.sequenceNumber]
  }

  /** The pending entries sent more than RetransmitTimeoutMs before now. */
  function DueForRetransmit(st: EngineState, now: int): (due: set<PendingRef>)
    ensures forall r | r in due :: IsPending(st, r) && now - Entry(st, r).time > RetransmitTimeoutMs
  {
    set e, q | e in st.sessions && q in st.sessions[e].pendingAcks
                && now - st.sessions[e].pendingAcks[q].time > RetransmitTimeoutMs
      :: PendingRef(e, q)
  }

  /** The references to the entries of one session's pending map that are
      older than the retransmit timeout. */
  function DuePending(endPoint: Endpoint, pendingAcks: map<uint32, PendingAck>, now: int): (due: set<PendingRef>)
    ensures forall r | r in due :: r.endPoint == endPoint && r.sequenceNumber in pendingAcks
  {
    set q | q in pendingAcks && now - pendingAcks[q].time > RetransmitTimeoutMs :: PendingRef(endPoint, q)
  }

  /** An entry of CheckRetransmit's needRetransmits list. */
  datatype Retransmission = Retransmission(sequenceNumber: uint32, packet: Packet, endPoint: Endpoint)

  /** The list entry for a pending reference. */
  function RetransmissionOf(st: EngineState, r: PendingRef): Retransmission
    requires IsPending(st, r)
  {
    Retransmission(r.sequenceNumber, Entry(st, r).packet, r.endPoint)
  }

  /** `order` lists the elements of `s`, each once. */
  predicate Enumerates<T>(order: seq<T>, s: set<T>)
  {
    && (forall i, j | 0 <= i < j < |order| :: order[i] != order[j])
    && (forall i | 0 <= i < |order| :: order[i] in s)
    && (forall x | x in s :: x in order)
  }

  /** Listing two disjoint sets one after the other lists their union. */
  lemma EnumeratesAppend<T>(a: seq<T>, s: set<T>, b: seq<T>, t: set<T>)
    requires Enumerates(a, s) && Enumerates(b, t) && s !! t
    ensures Enumerates(a + b, s + t)
  {
    forall i, j | 0 <= i < j < |a + b|
      ensures (a + b)[i] != (a + b)[j]
    {
      if i < |a| && |a| <= j {
        assert (a + b)[i] in s && (a + b)[j] in t;
      }
    }
  }

  /** The datagram that resends a pending entry: the stored packet, unchanged,
      to the session's endpoint. */
  function Resend(st: EngineState, r: PendingRef): Effect
    requires IsPending(st, r)
  {
    Sent(Frame(Entry(st, r).packet), r.endPoint)
  }

  function Resends(st: EngineState, order: seq<PendingRef>): seq<Effect>
    requires forall i | 0 <= i < |order| :: IsPending(st, order[i])
  {
    seq(|order|, i requires 0 <= i < |order| => Resend(st, order[i]))
  }

  /**
   * CheckRetransmit, which enumerates the registry in an unspecified order:
   * when running, `order` lists the due entries once each and the effect log
   * grows by their resends in that order; nothing else changes.
   */
  predicate RetransmitStep(st: EngineState, st': EngineState, order: seq<PendingRef>, now: int)
  {
    if !st.isRunning || st.disposed then st' == st && order == []
    else
      && Enumerates(order, DueForRetransmit(st, now))
      && st' == st.(effects := st.effects + Resends(st, order))
  }

  predicate Idle(s: SessionState, now: int)
  {
    now - s.lastActivityTime > CleanupTimeoutMs
  }

  /** CleanupSession: when running, drop every session idle for too long. */
  function CleanupStep(st: EngineState, now: int): EngineState
  {
    if !st.isRunning || st.disposed then st
    else st.(sessions := map e | e in st.sessions && !Idle(st.sessions[e], now) :: st.sessions[e])
  }
}

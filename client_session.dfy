/**
 * Per-peer reliable-delivery state (Network.ClientSession).
 *
 * The value-level functions say what each operation of a session does; the
 * class ClientSession is the mutable object the transport keeps in its
 * registry, and each of its methods is proved to perform that step.
 * DateTime.Now is the parameter `now`, in milliseconds.
 */
module Sessions {
  import opened Wire

  /** A remote IPEndPoint: address bytes and port. */
  datatype Endpoint = Endpoint(address: seq<byte>, port: nat)

  const MaxUInt32: uint32 := 0xFFFF_FFFF

  /** `x++` on a C# uint: unchecked, so it wraps to 0 after MaxUInt32. */
  function WrapIncrement(x: uint32): (r: uint32)
    ensures x < MaxUInt32 ==> r == x + 1
    ensures x == MaxUInt32 ==> r == 0
  {
    (x + 1) % 0x1_0000_0000
  }

  /** A PendingAcks value: the packet sent and when it was sent. */
  datatype PendingAck = PendingAck(packet: Packet, time: int)

  datatype SessionState = SessionState(
    endPoint: Endpoint,
    lastActivityTime: int,
    sendSequenceNumber: uint32,
    pendingAcks: map<uint32, PendingAck>,
    expectedReceiveSequence: uint32,
    receivedSequences: set<uint32>)

  /** Every sequence number recorded as received lies below the expected one. */
  predicate ReceivedBelowExpected(s: SessionState)
  {
    forall q | q in s.receivedSequences :: q < s.expectedReceiveSequence
  }

  /** The state the constructor sets up. */
  function NewSession(endPoint: Endpoint, now: int): (s: SessionState)
    ensures s.endPoint == endPoint && s.lastActivityTime == now
    ensures ReceivedBelowExpected(s)
  {
    SessionState(endPoint, now, 0, map[], 0, {})
  }

  datatype Allocation = Allocation(next: SessionState, sequenceNumber: uint32)

  /** GetNextSequenceNumber: hand out the counter, then increment it. */
  function NextSequenceNumber(s: SessionState): Allocation
  {
    Allocation(s.(sendSequenceNumber := WrapIncrement(s.sendSequenceNumber)), s.sendSequenceNumber)
  }

  /** What TryProcessReceiveSequence returns and its out-parameter. */
  datatype ReceiveStep = ReceiveStep(next: SessionState, accepted: bool, shouldDeliver: bool)

  /** TryProcessReceiveSequence: stamp the activity time, then classify. */
  function ProcessReceiveSequence(s: SessionState, seqNum: uint32, now: int): ReceiveStep
  {
    var touched := s.(lastActivityTime := now);
    if seqNum == s.expectedReceiveSequence then
      ReceiveStep(touched.(expectedReceiveSequence := WrapIncrement(s.expectedReceiveSequence),
                           receivedSequences := s.receivedSequences + {seqNum}),
                  true, true)
    else if seqNum > s.expectedReceiveSequence then
      ReceiveStep(touched, seqNum in s.receivedSequences, true)
    else
      ReceiveStep(touched, false, false)
  }

  /** The sequence numbers `count` successive GetNextSequenceNumber calls return. */
  function Allocations(s: SessionState, count: nat): seq<uint32>
    decreases count
  {
    if count == 0 then []
    else
      var a := NextSequenceNumber(s);
      [a.sequenceNumber] + Allocations(a.next, count - 1)
  }

  // ---------------------------------------------------------------------------
  // Properties of the specification

  /** Successive allocations count up from the current counter (no wrap). */
  lemma {:induction false} AllocationsCountUp(s: SessionState, count: nat)
    requires s.sendSequenceNumber + count <= 0x1_0000_0000
    ensures |Allocations(s, count)| == count
    ensures forall i :: 0 <= i < count ==> Allocations(s, count)[i] == s.sendSequenceNumber + i
    decreases count
  {
    if count > 0 {
      var a := NextSequenceNumber(s);
      if count > 1 {
        AllocationsCountUp(a.next, count - 1);
      } else {
        assert Allocations(a.next, 0) == [];
      }
      var rest := Allocations(a.next, count - 1);
      assert Allocations(s, count) == [s.sendSequenceNumber] + rest;
      forall i | 1 <= i < count
        ensures Allocations(s, count)[i] == s.sendSequenceNumber + i
      {
        assert Allocations(s, count)[i] == rest[i - 1];
      }
    }
  }

  /** From a fresh session, n calls return 0, 1, ..., n - 1. */
  lemma FreshSessionAllocatesFromZero(endPoint: Endpoint, now: int, count: nat)
    requires count <= 0x1_0000_0000
    ensures |Allocations(NewSession(endPoint, now), count)| == count
    ensures forall i :: 0 <= i < count ==> Allocations(NewSession(endPoint, now), count)[i] == i
  {
    AllocationsCountUp(NewSession(endPoint, now), count);
  }

  /** Allocating changes only the counter; in particular not the activity time. */
  lemma AllocationTouchesOnlyCounter(s: SessionState)
    ensures NextSequenceNumber(s).sequenceNumber == s.sendSequenceNumber
    ensures NextSequenceNumber(s).next == s.(sendSequenceNumber := WrapIncrement(s.sendSequenceNumber))
    ensures NextSequenceNumber(s).next.lastActivityTime == s.lastActivityTime
  {
  }

  /** The in-order case: accept, deliver, advance by one and remember seqNum. */
  lemma InOrderIsDelivered(s: SessionState, seqNum: uint32, now: int)
    requires seqNum == s.expectedReceiveSequence
    ensures var r := ProcessReceiveSequence(s, seqNum, now);
      && r.accepted && r.shouldDeliver
      && r.next.expectedReceiveSequence == WrapIncrement(s.expectedReceiveSequence)
      && r.next.receivedSequences == s.receivedSequences + {seqNum}
  {
  }

  /** A stale number is refused and changes nothing but the activity time. */
  lemma StaleIsRefused(s: SessionState, seqNum: uint32, now: int)
    requires seqNum < s.expectedReceiveSequence
    ensures var r := ProcessReceiveSequence(s, seqNum, now);
      && !r.accepted && !r.shouldDeliver
      && r.next == s.(lastActivityTime := now)
  {
  }

  /** A number ahead of the expected one leaves the tracker unchanged; the
      answer is whether it was already seen, with shouldDeliver set. */
  lemma AheadLeavesTrackerUnchanged(s: SessionState, seqNum: uint32, now: int)
    requires seqNum > s.expectedReceiveSequence
    ensures var r := ProcessReceiveSequence(s, seqNum, now);
      && r.shouldDeliver
      && r.accepted == (seqNum in s.receivedSequences)
      && r.next == s.(lastActivityTime := now)
  {
  }

  /** Every classification refreshes the activity time and touches nothing
      on the sending side. */
  lemma ReceiveRefreshesActivity(s: SessionState, seqNum: uint32, now: int)
    ensures var r := ProcessReceiveSequence(s, seqNum, now);
      && r.next.lastActivityTime == now
      && r.next.endPoint == s.endPoint
      && r.next.sendSequenceNumber == s.sendSequenceNumber
      && r.next.pendingAcks == s.pendingAcks
  {
  }

  /** Without wrap-around, classification keeps every received number below
      the expected one. */
  lemma ReceiveKeepsReceivedBelowExpected(s: SessionState, seqNum: uint32, now: int)
    requires ReceivedBelowExpected(s)
    requires s.expectedReceiveSequence < MaxUInt32
    ensures ReceivedBelowExpected(ProcessReceiveSequence(s, seqNum, now).next)
  {
  }

  /** Under that invariant a packet is accepted for delivery exactly when it
      carries the expected number, so the "ahead" branch always answers false. */
  lemma DeliveredExactlyWhenExpected(s: SessionState, seqNum: uint32, now: int)
    requires ReceivedBelowExpected(s)
    ensures var r := ProcessReceiveSequence(s, seqNum, now);
      (r.accepted && r.shouldDeliver) <==> seqNum == s.expectedReceiveSequence
    ensures seqNum > s.expectedReceiveSequence ==> !ProcessReceiveSequence(s, seqNum, now).accepted
  {
  }

  /** Inputs 0, 2, 1 on a fresh session: accept, refuse, accept; expected ends at 2. */
  lemma GapTrace(endPoint: Endpoint, t0: int, t1: int, t2: int, t3: int)
    ensures var r1 := ProcessReceiveSequence(NewSession(endPoint, t0), 0, t1);
      var r2 := ProcessReceiveSequence(r1.next, 2, t2);
      var r3 := ProcessReceiveSequence(r2.next, 1, t3);
      && r1.accepted && r1.shouldDeliver
      && !r2.accepted
      && r3.accepted && r3.shouldDeliver
      && r3.next.expectedReceiveSequence == 2
  {
  }

  /** Inputs 0, 0 on a fresh session: accept, then refuse without delivery. */
  lemma DuplicateTrace(endPoint: Endpoint, t0: int, t1: int, t2: int)
    ensures var r1 := ProcessReceiveSequence(NewSession(endPoint, t0), 0, t1);
      var r2 := ProcessReceiveSequence(r1.next, 0, t2);
      && r1.accepted && r1.shouldDeliver
      && !r2.accepted && !r2.shouldDeliver
      && r2.next.expectedReceiveSequence == 1
  {
  }

  // ---------------------------------------------------------------------------
  // The mutable session object

  class ClientSession {
    const endPoint: Endpoint
    var lastActivityTime: int
    var sendSequenceNumber: uint32
    var pendingAcks: map<uint32, PendingAck>
    var expectedReceiveSequence: uint32
    var receivedSequences: set<uint32>

    /** The session's fields as a value. */
    function State(): SessionState
      reads this
    {
      SessionState(endPoint, lastActivityTime, sendSequenceNumber, pendingAcks,
                   expectedReceiveSequence, receivedSequences)
    }

    constructor (endPoint: Endpoint, now: int)
      ensures this.endPoint == endPoint
      ensures State() == NewSession(endPoint, now)
    {
      this.endPoint := endPoint;
      lastActivityTime := now;
      sendSequenceNumber := 0;
      pendingAcks := map[];
      expectedReceiveSequence := 0;
      receivedSequences := {};
    }

    method TryProcessReceiveSequence(seqNum: uint32, now: int) returns (accepted: bool, shouldDeliver: bool)
      modifies this
      ensures lastActivityTime == now
      ensures ReceiveStep(State(), accepted, shouldDeliver) == ProcessReceiveSequence(old(State()), seqNum, now)
    {
      lastActivityTime := now;
      if seqNum == expectedReceiveSequence {
        expectedReceiveSequence := WrapIncrement(expectedReceiveSequence);
        shouldDeliver := true;
        receivedSequences := receivedSequences + {seqNum};
        accepted := true;
      } else if seqNum > expectedReceiveSequence {
        shouldDeliver := true;
        accepted := seqNum in receivedSequences;
      } else {
        shouldDeliver := false;
        accepted := false;
      }
    }

    method GetNextSequenceNumber() returns (n: uint32)
      modifies this
      ensures n == old(sendSequenceNumber)
      ensures Allocation(State(), n) == NextSequenceNumber(old(State()))
    {
      n := sendSequenceNumber;
      sendSequenceNumber := WrapIncrement(sendSequenceNumber);
    }
  }

  /** Three allocations on a new session object return 0, 1, 2 and leave its
      activity time where the constructor put it. */
  method FreshSessionCountsFromZero(endPoint: Endpoint, now: int) returns (a: uint32, b: uint32, c: uint32, activity: int)
    ensures a == 0 && b == 1 && c == 2
    ensures activity == now
  {
    var session := new ClientSession(endPoint, now);
    a := session.GetNextSequenceNumber();
    b := session.GetNextSequenceNumber();
    c := session.GetNextSequenceNumber();
    activity := session.lastActivityTime;
  }

  /** The 0, 2, 1 trace on a session object: the received flags and the
      expected number at the end. */
  method SessionGapTrace(endPoint: Endpoint, now: int) returns (first: bool, second: bool, third: bool, expected: uint32)
    ensures first && !second && third
    ensures expected == 2
  {
    var session := new ClientSession(endPoint, now);
    var deliver: bool;
    first, deliver := session.TryProcessReceiveSequence(0, now);
    second, deliver := session.TryProcessReceiveSequence(2, now);
    third, deliver := session.TryProcessReceiveSequence(1, now);
    expected := session.expectedReceiveSequence;
  }
}

/** The relay step of an intermediate host, as values: what one receive does to the
    host's state and the box, what one send does to the latency bookkeeping, and
    what a run of iterations of the relay loop adds up to. */
module Relay {
  import opened Wire

  datatype Option<T> = None | Some(value: T)

  /** A UDP port number. */
  type Port = p: int | 0 <= p < 0x1_0000

  /** A network peer: an IP address (its raw octets) and a port. */
  datatype Endpoint = Endpoint(address: seq<byte>, port: Port)

  /** An outbound datagram: its payload and the peer it is addressed to. */
  datatype Datagram = Datagram(data: seq<byte>, peer: Endpoint)

  /** Everything one relay step reads or writes: the host's own fields and the
      content of the box it shares with the paired host. `pending` is the
      datagram the last receive prepared for sending (null before the first). */
  datatype HostState = HostState(
    measureTime: bool,
    box: seq<byte>,
    startTime: i64,
    endTime: i64,
    execTimes: seq<i64>,
    pending: Option<Datagram>)

  /** The state of a host fresh from its constructor, sharing a box that holds `box`. */
  function Initial(measureTime: bool, box: seq<byte>): (s: HostState)
    ensures s.execTimes == [] && s.startTime == 0 && s.endTime == 0
    ensures s.measureTime == measureTime && s.box == box && s.pending == None
  {
    HostState(measureTime, box, 0, 0, [], None)
  }

  // ---------------------------------------------------------------------------
  // Receiving

  /** How many bytes a receive into a fresh buffer reports (`getLength()`): a
      datagram longer than the buffer is truncated to it. */
  function ReceivedLength(wire: seq<byte>): (n: nat)
    ensures n <= |wire| && n <= BufferSize
    ensures n == |wire| || n == BufferSize
  {
    if |wire| <= BufferSize then |wire| else BufferSize
  }

  /** The receive buffer after a datagram carrying `wire` arrived: a fresh
      1010-byte array whose first `ReceivedLength(wire)` bytes are the datagram's
      and whose remaining bytes keep their initial 0. */
  function ReceiveBuffer(wire: seq<byte>): (buf: seq<byte>)
    ensures |buf| == BufferSize
    ensures buf[..ReceivedLength(wire)] == wire[..ReceivedLength(wire)]
    ensures forall i :: ReceivedLength(wire) <= i < BufferSize ==> buf[i] == 0
  {
    var b := seq(BufferSize, i requires 0 <= i < BufferSize => if i < |wire| then wire[i] else 0);
    assert b[..ReceivedLength(wire)] == wire[..ReceivedLength(wire)];
    b
  }

  /** The classification test: the first `len` bytes of the buffer spell the pull sentinel. */
  predicate IsPull(buf: seq<byte>, len: nat)
    requires len <= |buf|
  {
    buf[..len] == PullRequest
  }

  /** A datagram is classified as a pull exactly when its payload is the sentinel
      itself: no shorter or longer payload, and no truncated one, passes. */
  lemma {:induction false} PullClassification(wire: seq<byte>)
    ensures IsPull(ReceiveBuffer(wire), ReceivedLength(wire)) <==> wire == PullRequest
  {
    ControlStrings();
    var n := ReceivedLength(wire);
    var buf := ReceiveBuffer(wire);
    if |wire| <= BufferSize {
      assert wire[..n] == wire;
    } else {
      assert |buf[..n]| == BufferSize != |PullRequest|;
    }
  }

  /** The receive half of one loop iteration. A pull answers with the box content
      and touches nothing else; any other payload replaces the box content with
      the whole receive buffer, answers with the acknowledgement and, on a
      measuring host, opens a latency window at `now`. Either answer goes back to
      the sender. */
  function Receive(s: HostState, wire: seq<byte>, sender: Endpoint, now: i64): (t: HostState)
    ensures t.measureTime == s.measureTime && t.endTime == s.endTime && t.execTimes == s.execTimes
    ensures t.pending == Some(Datagram(if wire == PullRequest then s.box else Acknowledgement, sender))
    ensures wire == PullRequest ==> t.box == s.box && t.startTime == s.startTime
    ensures wire != PullRequest ==> t.box == ReceiveBuffer(wire) && |t.box| == BufferSize
    ensures wire != PullRequest ==> t.startTime == if s.measureTime then now else s.startTime
  {
    PullClassification(wire);
    var buf := ReceiveBuffer(wire);
    if IsPull(buf, ReceivedLength(wire)) then
      s.(pending := Some(Datagram(s.box, sender)))
    else
      s.(box := buf,
         startTime := if s.measureTime then now else s.startTime,
         pending := Some(Datagram(Acknowledgement, sender)))
  }

  // ---------------------------------------------------------------------------
  // Sending and measuring

  /** Closing the latency window: the clock is read into `endTime`, the elapsed
      `long` time since `startTime` is appended, and both timestamps go back to 0. */
  function Capture(s: HostState, now: i64): (t: HostState)
    ensures |t.execTimes| == |s.execTimes| + 1 && t.execTimes[..|s.execTimes|] == s.execTimes
    ensures MinI64 <= now as int - s.startTime as int <= MaxI64 ==>
              t.execTimes[|s.execTimes|] as int == now as int - s.startTime as int
    ensures (now as int - s.startTime as int - t.execTimes[|s.execTimes|] as int) % TwoTo64 == 0
    ensures t.startTime == 0 && t.endTime == 0
    ensures t.measureTime == s.measureTime && t.box == s.box && t.pending == s.pending
  {
    var endTime := now;
    var elapsed := Sub64(endTime, s.startTime);
    s.(execTimes := s.execTimes + [elapsed], startTime := 0, endTime := 0)
  }

  /** Whether sending the pending datagram completes a round trip: only on a
      measuring host, and only for a reply that is not the acknowledgement. */
  predicate Completes(measureTime: bool, d: Datagram) {
    measureTime && d.data != Acknowledgement
  }

  /** The measurement half of `sendPacket`: a send that completes a round trip
      records one measurement; any other send changes nothing. */
  function Send(s: HostState, now: i64): (t: HostState)
    requires s.pending.Some?
    ensures t.measureTime == s.measureTime && t.box == s.box && t.pending == s.pending
    ensures Completes(s.measureTime, s.pending.value) ==>
              t.execTimes == s.execTimes + [Sub64(now, s.startTime)] && t.startTime == 0 && t.endTime == 0
    ensures !Completes(s.measureTime, s.pending.value) ==> t == s
  {
    if s.measureTime && s.pending.value.data != Acknowledgement then Capture(s, now) else s
  }

  // ---------------------------------------------------------------------------
  // The relay loop

  /** One datagram as the loop sees it: its payload and sender, and the two clock
      readings of its iteration (at classification and at the send). */
  datatype Arrival = Arrival(wire: seq<byte>, sender: Endpoint, receivedAt: i64, sentAt: i64)

  /** One iteration of the loop: receive, then send. */
  function Iterate(s: HostState, a: Arrival): (t: HostState)
    ensures t.measureTime == s.measureTime
    ensures t.pending.Some? && t.pending.value.peer == a.sender
    ensures a.wire == PullRequest ==> t.box == s.box
    ensures a.wire != PullRequest ==> t.box == ReceiveBuffer(a.wire)
  {
    Send(Receive(s, a.wire, a.sender, a.receivedAt), a.sentAt)
  }

  /** The state after the loop processed `arrivals` in order. */
  function RunSpec(s: HostState, arrivals: seq<Arrival>): HostState
    decreases |arrivals|
  {
    if arrivals == [] then s
    else Iterate(RunSpec(s, arrivals[..|arrivals| - 1]), arrivals[|arrivals| - 1])
  }

  /** The datagrams the loop sent while processing `arrivals`, in order. */
  function Responses(s: HostState, arrivals: seq<Arrival>): seq<Datagram>
    decreases |arrivals|
  {
    if arrivals == [] then []
    else
      var before := arrivals[..|arrivals| - 1];
      var a := arrivals[|arrivals| - 1];
      Responses(s, before) + [Receive(RunSpec(s, before), a.wire, a.sender, a.receivedAt).pending.value]
  }

  /** How many of the sent datagrams completed a round trip. */
  function RoundTrips(measureTime: bool, sent: seq<Datagram>): nat
    decreases |sent|
  {
    if sent == [] then 0
    else RoundTrips(measureTime, sent[..|sent| - 1]) + if Completes(measureTime, sent[|sent| - 1]) then 1 else 0
  }

  /** Over any run, each response goes back to its datagram's sender, the
      measurements only grow, and exactly one is recorded per completed round
      trip (none at all on a host that does not measure). */
  lemma {:induction false} RunBookkeeping(s: HostState, arrivals: seq<Arrival>)
    ensures RunSpec(s, arrivals).measureTime == s.measureTime
    ensures |Responses(s, arrivals)| == |arrivals|
    ensures forall i :: 0 <= i < |arrivals| ==> Responses(s, arrivals)[i].peer == arrivals[i].sender
    ensures |RunSpec(s, arrivals).execTimes| == |s.execTimes| + RoundTrips(s.measureTime, Responses(s, arrivals))
    ensures RunSpec(s, arrivals).execTimes[..|s.execTimes|] == s.execTimes
    ensures !s.measureTime ==> RunSpec(s, arrivals).execTimes == s.execTimes
    decreases |arrivals|
  {
    if arrivals != [] {
      var before := arrivals[..|arrivals| - 1];
      var a := arrivals[|arrivals| - 1];
      RunBookkeeping(s, before);
      var m := RunSpec(s, before);
      var r := Receive(m, a.wire, a.sender, a.receivedAt);
      var sent := Responses(s, arrivals);
      assert sent == Responses(s, before) + [r.pending.value];
      assert sent[..|sent| - 1] == Responses(s, before);
      forall i | 0 <= i < |arrivals|
        ensures sent[i].peer == arrivals[i].sender
      {
        if i < |arrivals| - 1 {
          assert sent[i] == Responses(s, before)[i];
          assert arrivals[i] == before[i];
        }
      }
      assert RunSpec(s, arrivals).execTimes[..|m.execTimes|] == m.execTimes;
      assert m.execTimes[..|s.execTimes|] == s.execTimes;
    }
  }

  // ---------------------------------------------------------------------------
  // Properties of short sequences of steps

  /** Two pulls in a row, with no push between them, answer with the same bytes:
      the box content. */
  lemma PullIsRepeatable(s: HostState, a1: Arrival, a2: Arrival)
    requires a1.wire == PullRequest && a2.wire == PullRequest
    ensures var s1 := Iterate(s, a1);
            var s2 := Iterate(s1, a2);
            s1.pending.value.data == s2.pending.value.data == s.box
  {
  }

  /** Every push leaves a full 1010-byte buffer in the box, and such a box never
      reads as the acknowledgement; so on a measuring host a pull served from a
      pushed box always records a measurement. */
  lemma {:induction false} PushedBoxIsNeverAcknowledgement(s: HostState, push: Arrival, pull: Arrival)
    requires s.measureTime && push.wire != PullRequest && pull.wire == PullRequest
    ensures var s1 := Iterate(s, push);
            var s2 := Iterate(s1, pull);
            |s2.execTimes| == |s1.execTimes| + 1
  {
    ControlStrings();
    var s1 := Iterate(s, push);
    assert |s1.box| == BufferSize;
    var r := Receive(s1, pull.wire, pull.sender, pull.receivedAt);
    assert r.pending.value.data == s1.box != Acknowledgement;
  }

  /** A round trip on the measuring host: a push opens the window at its
      classification time, the paired host meanwhile leaves `reply` in the box,
      and the next pull answers with `reply` and records the elapsed time from
      the push to the send of that answer. */
  lemma {:induction false} RoundTripLatency(s: HostState, push: Arrival, reply: seq<byte>, pull: Arrival)
    requires s.measureTime && push.wire != PullRequest && pull.wire == PullRequest
    requires reply != Acknowledgement
    ensures var s1 := Iterate(s, push);
            var s2 := Iterate(s1.(box := reply), pull);
            s1.pending.value.data == Acknowledgement && s1.execTimes == s.execTimes &&
            s2.pending.value.data == reply &&
            s2.execTimes == s.execTimes + [Sub64(pull.sentAt, push.receivedAt)] &&
            s2.startTime == 0 && s2.endTime == 0
  {
    var r1 := Receive(s, push.wire, push.sender, push.receivedAt);
    assert r1.startTime == push.receivedAt;
    assert !Completes(true, r1.pending.value);
  }

  /** A push followed by a pull on the same host, with no other push between
      them, answers the pull with the pushed buffer; on a measuring host that
      pull records the time from the push's classification to its own send. */
  lemma {:induction false} PushThenPullReturnsPayload(s: HostState, push: Arrival, pull: Arrival)
    requires push.wire != PullRequest && pull.wire == PullRequest
    ensures var s2 := Iterate(Iterate(s, push), pull);
            s2.pending.value.data == ReceiveBuffer(push.wire) &&
            (s.measureTime ==> s2.execTimes == s.execTimes + [Sub64(pull.sentAt, push.receivedAt)]) &&
            (!s.measureTime ==> s2.execTimes == s.execTimes)
  {
    ControlStrings();
    var r1 := Receive(s, push.wire, push.sender, push.receivedAt);
    assert !Completes(s.measureTime, r1.pending.value);
    assert |ReceiveBuffer(push.wire)| != |Acknowledgement|;
  }

  /** A pull after a completed round trip, with no push in between, measures from
      the reset `startTime` of 0, so it records the raw clock value. */
  lemma {:induction false} PullAfterCaptureRecordsClock(s: HostState, pull1: Arrival, pull2: Arrival)
    requires s.measureTime && s.box != Acknowledgement
    requires pull1.wire == PullRequest && pull2.wire == PullRequest
    ensures var s1 := Iterate(s, pull1);
            var s2 := Iterate(s1, pull2);
            s2.execTimes == s.execTimes + [Sub64(pull1.sentAt, s.startTime), pull2.sentAt]
  {
    var s1 := Iterate(s, pull1);
    assert s1.startTime == 0 && s1.box == s.box;
    SubZero(pull2.sentAt);
  }

  /** A pull on a host fresh from its constructor has no window open either: it
      measures from the initial `startTime` of 0 and records the raw clock value. */
  lemma {:induction false} FreshPullRecordsClock(box: seq<byte>, pull: Arrival)
    requires box != Acknowledgement && pull.wire == PullRequest
    ensures Iterate(Initial(true, box), pull).execTimes == [pull.sentAt]
  {
    SubZero(pull.sentAt);
  }

  // ---------------------------------------------------------------------------
  // Receive timeout

  /** The box content after a receive that timed out, as the source is written.
      A measuring host reports and exits the process at once. A host that does
      not measure closes its sockets and falls through into the classification
      of a buffer nothing was received into: 1010 zero bytes with
      `getLength()` still 1010. That is not the pull sentinel, so the zero buffer
      is put into the shared box before building the reply to the never-set port
      -1 throws and ends the thread. */
  function TimeoutAsWritten(s: HostState): (t: HostState)
    ensures t.measureTime == s.measureTime && t.execTimes == s.execTimes
    ensures s.measureTime ==> t.box == s.box
    ensures !s.measureTime ==> |t.box| == BufferSize && forall i :: 0 <= i < |t.box| ==> t.box[i] == 0
  {
    if s.measureTime then s
    else
      var buf := ReceiveBuffer(seq(BufferSize, _ => 0 as byte));
      s.(box := buf)
  }

  /** On the host that does not measure, the timeout as written wipes the reply
      its server had just pushed for the paired host: the client's next pull
      answers with the zero buffer instead of that reply. */
  lemma {:induction false} TimeoutAsWrittenWipesHandOff(client: HostState, server: HostState, reply: Arrival, pull: Arrival)
    requires !server.measureTime
    requires reply.wire != PullRequest && |reply.wire| > 0 && reply.wire[0] != 0
    requires pull.wire == PullRequest
    ensures var afterTimeout := TimeoutAsWritten(Iterate(server, reply));
            Iterate(client.(box := afterTimeout.box), pull).pending.value.data != ReceiveBuffer(reply.wire)
  ensures var afterTimeout := TimeoutAsWritten(Iterate(server, reply));
            Iterate(client.(box := afterTimeout.box), pull).pending.value.data == seq(BufferSize, _ => 0 as byte)
  {
    var afterTimeout := TimeoutAsWritten(Iterate(server, reply));
    assert afterTimeout.box[0] == 0 != ReceiveBuffer(reply.wire)[0];
  }

  /** What a receive timeout leaves: the host's final state and, on a measuring
      host, the number of measurements it reports. */
  datatype Shutdown = Shutdown(final: HostState, report: Option<nat>)

  /** The intended timeout: the loop ends without touching the box or any field,
      and a measuring host reports how many measurements it holds. */
  function Timeout(s: HostState): (r: Shutdown)
    ensures r.final.box == s.box && r.final.execTimes == s.execTimes
    ensures r.report == if s.measureTime then Some(|s.execTimes|) else None
  {
    Shutdown(s, if s.measureTime then Some(|s.execTimes|) else None)
  }

  /** Under the intended timeout, a reply the server's host left in the box
      survives that host's shutdown: the client's next pull still receives it. */
  lemma {:induction false} TimeoutKeepsHandOff(client: HostState, server: HostState, reply: Arrival, pull: Arrival)
    requires reply.wire != PullRequest && pull.wire == PullRequest
    ensures var afterTimeout := Timeout(Iterate(server, reply)).final;
            Iterate(client.(box := afterTimeout.box), pull).pending.value.data == ReceiveBuffer(reply.wire)
  {
    var afterTimeout := Timeout(Iterate(server, reply)).final;
    assert afterTimeout.box == ReceiveBuffer(reply.wire);
  }
}

/** The intermediate host as the object it is: fields updated in place by the
    receive and send halves of the relay loop, and a box object it shares with
    the paired host. Every method is proved against the transition functions of
    module Relay. */
module Host {
  import opened Wire
  import opened Relay

  /** The single-slot mailbox shared by the client-side and the server-side host. */
  class Box {
    var content: seq<byte>

    constructor (initial: seq<byte>)
      ensures content == initial
    {
      content := initial;
    }

    /** The stored payload. */
    method Get() returns (b: seq<byte>)
      ensures b == content
    {
      b := content;
    }

    /** Replaces the stored payload. */
    method Put(b: seq<byte>)
      modifies this
      ensures content == b
    {
      content := b;
    }
  }

  class IntermediateHost {
    const box: Box
    const measureTime: bool
    var startTime: i64
    var endTime: i64
    var execTimes: seq<i64>
    /** The datagram `sendPacket` sends next (null until the first receive). */
    var pending: Option<Datagram>

    /** The host's fields together with what its box holds right now. */
    ghost function State(): HostState
      reads this, box
    {
      HostState(measureTime, box.content, startTime, endTime, execTimes, pending)
    }

    /** No measurement yet and both timestamps 0; the box is shared, not copied. */
    constructor (box: Box, measureTime: bool)
      ensures this.box == box
      ensures State() == Initial(measureTime, box.content)
    {
      this.box := box;
      this.measureTime := measureTime;
      execTimes := [];
      startTime := 0;
      endTime := 0;
      pending := None;
    }

    /** The receive half of the loop, for a datagram carrying `wire` from `sender`
        that arrived when the clock read `now`: classify it, serve or fill the box,
        and prepare the response. */
    method Step(wire: seq<byte>, sender: Endpoint, now: i64) returns (resp: Datagram)
      modifies this, box
      ensures State() == Receive(old(State()), wire, sender, now)
      ensures pending == Some(resp)
    {
      var data := ReceiveBuffer(wire);
      var length := ReceivedLength(wire);
      var payload: seq<byte>;
      if data[..length] == PullRequest {
        payload := box.Get();
      } else {
        if measureTime {
          startTime := now;
        }
        box.Put(data);
        payload := Acknowledgement;
      }
      resp := Datagram(payload, sender);
      pending := Some(resp);
    }

    /** The measurement half of `sendPacket`, with the clock reading `now` after
        the datagram went out. Returns the measurement it recorded, if any. */
    method Send(now: i64) returns (recorded: Option<i64>)
      requires pending.Some?
      modifies this
      ensures State() == Relay.Send(old(State()), now)
      ensures recorded.Some? <==> Completes(measureTime, pending.value)
      ensures recorded.Some? ==> execTimes == old(execTimes) + [recorded.value]
    {
      recorded := None;
      if measureTime {
        if pending.value.data != Acknowledgement {
          var elapsed := CaptureMeasurement(now);
          recorded := Some(elapsed);
        }
      }
    }

    /** Ends the latency window: records the elapsed time and resets both timestamps. */
    method CaptureMeasurement(now: i64) returns (elapsed: i64)
      modifies this
      ensures State() == Capture(old(State()), now)
      ensures elapsed == Sub64(now, old(startTime))
    {
      endTime := now;
      elapsed := Sub64(endTime, startTime);
      execTimes := execTimes + [elapsed];
      startTime := 0;
      endTime := 0;
    }

    /** What the host reports when a receive times out: on a measuring host the
        number of measurements collected. */
    method Shutdown() returns (report: Option<nat>)
      ensures report == Timeout(State()).report
      ensures measureTime ==> report == Some(|execTimes|)
    {
      report := if measureTime then Some(|execTimes|) else None;
    }

    /** The relay loop over the datagrams that arrive before the receive timeout,
        then the shutdown. */
    method Run(arrivals: seq<Arrival>) returns (sent: seq<Datagram>, report: Option<nat>)
      modifies this, box
      ensures State() == RunSpec(old(State()), arrivals)
      ensures sent == Responses(old(State()), arrivals)
      ensures report == Timeout(State()).report
      ensures measureTime ==> report == Some(|old(execTimes)| + RoundTrips(true, sent))
      ensures !measureTime ==> report == None && execTimes == old(execTimes)
    {
      sent := [];
      var i := 0;
      while i < |arrivals|
        invariant 0 <= i <= |arrivals|
        invariant State() == RunSpec(old(State()), arrivals[..i])
        invariant sent == Responses(old(State()), arrivals[..i])
      {
        var a := arrivals[i];
        assert arrivals[..i + 1][..i] == arrivals[..i];
        var resp := Step(a.wire, a.sender, a.receivedAt);
        sent := sent + [resp];
        var _ := Send(a.sentAt);
        i := i + 1;
      }
      assert arrivals[..i] == arrivals;
      RunBookkeeping(old(State()), arrivals);
      report := Shutdown();
    }
  }

  /** One request over the relay: the client-side host (measuring) and the
      server-side host share a box holding `initial`; the client pushes `request`,
      the server pulls it, the server pushes `reply`, and the client pulls that.
      The server receives the client's whole buffer, the client the server's, and
      the client holds exactly one measurement: from the classification of the
      push to the send of the reply. */
  method HandOff(initial: seq<byte>, request: seq<byte>, reply: seq<byte>,
                 clientPeer: Endpoint, serverPeer: Endpoint, clock: seq<i64>)
    returns (atServer: Datagram, atClient: Datagram, measurements: seq<i64>)
    requires request != PullRequest && reply != PullRequest
    requires |clock| == 8
    ensures atServer == Datagram(ReceiveBuffer(request), serverPeer)
    ensures atClient == Datagram(ReceiveBuffer(reply), clientPeer)
    ensures measurements == [Sub64(clock[7], clock[0])]
    ensures 0 <= clock[0] <= clock[7] ==> measurements[0] as int == clock[7] as int - clock[0] as int
  {
    ControlStrings();
    var box := new Box(initial);
    var client := new IntermediateHost(box, true);
    var server := new IntermediateHost(box, false);

    var ack := client.Step(request, clientPeer, clock[0]);
    var _ := client.Send(clock[1]);
    atServer := server.Step(PullRequest, serverPeer, clock[2]);
    var _ := server.Send(clock[3]);
    ack := server.Step(reply, serverPeer, clock[4]);
    var _ := server.Send(clock[5]);
    atClient := client.Step(PullRequest, clientPeer, clock[6]);
    var _ := client.Send(clock[7]);
    measurements := client.execTimes;
    if 0 <= clock[0] <= clock[7] {
      SubOrdered(clock[0], clock[7]);
    }
  }
}

# Intermediate host relay step

This project models the relay step of `IntermediateHost`, the UDP relay from the Measurement repository. One intermediate host runs on the client side and measures latency. The other runs on the server side. The two share a single-slot `Box`.

Each iteration of the host's `run` loop receives one datagram and classifies it:

- The pull sentinel `"Please send me data thx"` is answered with the box content.
- Any other payload is a push. The whole 1010-byte receive buffer goes into the box and the sender gets `"Request acknowledged"`. On the measuring host, the push also opens a latency window.

The loop then sends the response. A measuring host closes the window when it sends anything other than the acknowledgement. It records `now - startTime` as a Java `long` and resets both timestamps to 0.

Files:

- `wire.dfy` (module `Wire`): bytes, Java `long` (`i64`) with wrapping subtraction, the two control strings as ASCII bytes, and the buffer size.
- `relay.dfy` (module `Relay`): the host's state as a value (`HostState`) and the pure transition functions, with the lemmas about them:
  - `Receive`, `Capture` and `Send` are the two halves of one iteration.
  - `Iterate` is one iteration.
  - `RunSpec` and `Responses` describe a whole run.
  - `Timeout` covers the receive timeout.
- `host.dfy` (module `Host`): the object model:
  - class `Box`, the shared slot;
  - class `IntermediateHost`, whose fields are updated in place by `Step`, `Send`, `CaptureMeasurement` and `Run`, each proved against the functions of `Relay` through the ghost `State()`;
  - `HandOff`, a client host and a server host sharing one box through one complete request and reply.

Modelling choices:

- The clock (`System.nanoTime()`) is a parameter of every operation that reads it. The model does not assume it is monotonic.
- A datagram is given as the bytes it carried on the wire. The receive buffer is a fresh 1010-byte array. Its first `min(|wire|, 1010)` bytes come from the datagram, since UDP truncates a longer datagram. The rest of the buffer stays 0. `getLength()` is that minimum.
- `new String(bytes, 0, n).equals(lit)` is modelled as byte equality with the ASCII bytes of `lit`. This holds under any ASCII-compatible default charset, such as UTF-8.
- `endTime - startTime` is `long` subtraction. It wraps modulo 2^64 (`Sub64`).
- `printMeasurements` prints `NaN` as the variance of one sample and `-0.0` for none. Floating point is left out; only the reported count is modelled.

## Model

| member | source | states |
|---|---|---|
| `Host.IntermediateHost.constructor` | src/IntermediateHost.java:34-38 | A new host shares the given box (it is not copied), has an empty measurement list, has `startTime = endTime = 0`, and has no pending datagram |
| `Wire.Sub64` | src/IntermediateHost.java:80 | The elapsed time is the unique `long` congruent to `endTime - startTime` modulo 2^64; it equals the exact difference whenever that fits |
| `Relay.ReceivedLength` | src/IntermediateHost.java:92-98 | The received length is at most the datagram's length and at most 1010, and equals one of them |
| `Relay.ReceiveBuffer` | src/IntermediateHost.java:92-98 | The receive buffer is always 1010 bytes: the received prefix of the datagram, then zeros |
| `Relay.PullClassification` | src/IntermediateHost.java:122-124 | Comparing the first `getLength()` bytes with the sentinel is true exactly when the datagram's payload is the sentinel. No prefix, no extension and no truncated datagram passes |
| `Relay.Receive` | src/IntermediateHost.java:122-135 | A pull answers with the box content and leaves box and `startTime` unchanged. Any other payload stores the full 1010-byte buffer, answers with the acknowledgement bytes, and sets `startTime := now` exactly when measuring. The response is addressed to the sender. Measurements and `endTime` are unchanged |
| `Relay.Capture` | src/IntermediateHost.java:78-85 | Exactly one element is appended and the earlier ones are kept. The element is `now - startTime` (old `startTime`) modulo 2^64, exact when it fits. Both timestamps are 0 afterwards. Box and pending datagram are untouched |
| `Relay.Send` | src/IntermediateHost.java:53-58 | On a measuring host, sending anything but the acknowledgement appends `Sub64(now, startTime)` and zeroes both timestamps. When not measuring, or when sending the acknowledgement, the state is unchanged |
| `Relay.Iterate` | src/IntermediateHost.java:167-172 | One loop iteration keeps the measuring flag, addresses its response to the sender, keeps the box on a pull and stores the buffer on a push |
| `Relay.RunBookkeeping` | src/IntermediateHost.java:167-172 | Over any sequence of datagrams there is one response per datagram, each addressed to its sender. Earlier measurements are a preserved prefix. Exactly one measurement is added per completed round trip (a response other than the acknowledgement), and none on a host that does not measure |
| `Relay.PullIsRepeatable` | src/IntermediateHost.java:124-125 | Two consecutive pulls with no push between them both answer with the same bytes, the box content |
| `Relay.PushedBoxIsNeverAcknowledgement` | src/IntermediateHost.java:54-57 | After a push the box holds 1010 bytes, which never compare equal to the acknowledgement. So on a measuring host, the pull that follows always records a measurement |
| `Relay.RoundTripLatency` | src/IntermediateHost.java:127-132 | A push sends the acknowledgement and records nothing. If the paired host then leaves `reply` in the box, the next pull answers with `reply` and records `sentAt(pull) - receivedAt(push)`, leaving both timestamps 0 |
| `Relay.PushThenPullReturnsPayload` | src/IntermediateHost.java:124-131 | A push followed by a pull on the same host, with no other push between, answers the pull with the full pushed buffer. On a measuring host, that pull records `sentAt(pull) - receivedAt(push)`; a host that does not measure records nothing |
| `Relay.PullAfterCaptureRecordsClock` | src/IntermediateHost.java:83-84 | A second pull after a completed round trip, with no push between, measures from the reset `startTime = 0` and records the raw clock value |
| `Relay.FreshPullRecordsClock` | src/IntermediateHost.java:37 | A pull on a freshly constructed measuring host also measures from `startTime = 0` and records the raw clock value |
| `Relay.TimeoutAsWritten` | src/IntermediateHost.java:99-131 | As written, a measuring host's timeout leaves the box unchanged (the process exits). A non-measuring host's timeout falls through and puts 1010 zero bytes into the box |
| `Relay.TimeoutAsWrittenWipesHandOff` | src/IntermediateHost.java:106-131 | As written, a reply the server host pushed is lost when that host times out: the client's next pull gets the zero buffer instead |
| `Relay.Timeout` | src/IntermediateHost.java:99-110 | The intended timeout ends the loop leaving the box and the measurements unchanged. It reports the measurement count exactly on a measuring host |
| `Relay.TimeoutKeepsHandOff` | src/IntermediateHost.java:106-110 | Under the intended timeout, the reply the server host pushed is still what the client's next pull receives |
| `Host.Box.Get` | src/IntermediateHost.java:125 | Returns the stored payload |
| `Host.Box.Put` | src/IntermediateHost.java:131 | The stored payload becomes the given one |
| `Host.IntermediateHost.Step` | src/IntermediateHost.java:91-135 | The host's fields and the box move exactly as `Relay.Receive` prescribes. The returned response is the new pending datagram |
| `Host.IntermediateHost.Send` | src/IntermediateHost.java:48-58 | The fields move exactly as `Relay.Send` prescribes. A measurement is returned exactly when a round trip completes, and it is the element appended |
| `Host.IntermediateHost.CaptureMeasurement` | src/IntermediateHost.java:78-85 | The fields move exactly as `Relay.Capture` prescribes. The returned elapsed time is `Sub64(now, old startTime)` |
| `Host.IntermediateHost.Shutdown` | src/IntermediateHost.java:149 | A measuring host reports the number of collected measurements, and a host that does not measure reports nothing |
| `Host.IntermediateHost.Run` | src/IntermediateHost.java:167-172 | Processing a sequence of datagrams leaves the state `RunSpec` gives and sends the datagrams `Responses` gives. On a measuring host, the report counts the earlier measurements plus the completed round trips; a host that does not measure records nothing |
| `Host.HandOff` | src/IntermediateHost.java:124-132 | Two hosts share one box. The client pushes a request, the server pulls it and pushes a reply, and the client pulls that. The server receives the client's full buffer and the client receives the server's. The client holds exactly one measurement, from the push to the reply's send, which is the plain non-negative difference when the clock readings are non-negative and ordered |

## Left out

- Socket construction, `send` and `receive`, the 5-second receive timeout setting, `close`, `System.exit` and `printStackTrace` are I/O and process control. The model starts from the bytes a receive delivered, and the timeout appears only as its effect on the box and the report.
- A datagram's sender is an abstract address plus port; `InetAddress` is not modelled.
- `Thread.sleep(1000)` pacing and its `InterruptedException` path are timing only.
- Concurrency between the two host threads is left out. The shared `Box` is one object whose `Get` and `Put` are single atomic steps, and the model covers any interleaving written as a sequence of calls.
- The `Box` class is not part of this model's source, so it is modelled as a single stored byte sequence with an initial content given by its creator.
- `printMeasurements` computes the mean and variance in `double` with `Math.pow`, which is floating point. Only the reported count (`Shutdown`, `Timeout`) is modelled.
- The per-measurement console line in `captureMeasurement` is an output sink. `IntermediateHost.Send` returns the recorded value instead.
- A pull served from a box that has never been written answers with whatever the `Box` holds initially, which the model takes as a parameter.
- `Relay.Timeout`: models the corrected shutdown described under Findings. `Relay.TimeoutAsWritten` models the code as written. `Run` ends with the corrected shutdown.
- Host.IntermediateHost.Run: ends with the corrected shutdown, so on a host that does not measure the final box is the box as it was before the timeout, not the 1010 zero bytes that line 131 of the source puts there (that case is `Relay.TimeoutAsWritten`).

## Findings

| source | as written | input that shows it | evidently intended | confidence | as-written member | corrected member |
|---|---|---|---|---|---|---|
| src/IntermediateHost.java:106-131 | On a host that does not measure, the receive-timeout handler closes the sockets and then falls through, with no return. The packet was never filled, so `getLength()` is still 1010 and the buffer is all zeros. That is not the pull sentinel, so `box.put(data)` stores 1010 zero bytes in the shared box. Only after that does building the reply to port -1 throw and end the thread | The server host, after relaying a server reply whose first byte is non-zero into the box, times out; the client host's next pull answers with zeros instead of the reply | The timeout ends the loop and leaves the shared box alone | not executed; medium (relies on the JDK leaving a timed-out packet's length at the buffer size) | `Relay.TimeoutAsWritten`, `Relay.TimeoutAsWrittenWipesHandOff` | `Relay.Timeout`, `Relay.TimeoutKeepsHandOff` |

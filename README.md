# signal-api-receiver, modelled in Dafny

signal-api-receiver bridges the Signal REST API's websocket stream to HTTP polling. A
streaming client keeps a websocket connection open. It decodes each incoming frame as a
`Message` (an `Envelope` plus an `account`). It appends the data messages to an in-memory
FIFO buffer. An HTTP handler serves that buffer: `GET /receive/pop` returns the oldest
message, and `GET /receive/flush` returns all of them. A supervisor loop runs the client's
receive loop. When the loop returns, the supervisor reconnects, and it retries a failed
reconnect until one succeeds.

The model has five modules, one per file:

- `Wrappers` (`wrappers.dfy`): `Option`, which stands for a Go nil-able pointer.
- `Transport` (`transport.dfy`): what the websocket library gives the clients. An `Error`;
  a `DialOutcome` (the dial succeeded, or failed with an error); a `ReadOutcome` (a frame
  already run through the JSON decoder, or the error that ended the read); the `Conn`
  handle, with `Close`; and `FirstFailure`, the position where a receive loop stops.
- `Receiver` (`receiver.dfy`): the current client, `receiver.Client`. It is a class with
  the fields `conn` and `messages`, and the methods `New`, `Connect`, `ReceiveLoop`,
  `Flush`, `Pop` and `RecordMessage`. Each locked region of the Go code is one atomic
  method. Beside the class are the specification functions: `Accepted` (the acceptance
  rule), `Received` (what a receive loop buffers for a read stream) and `Dequeue` (Pop on a
  queue value). The lemmas about them cover FIFO order, ignored frames and concatenation
  of streams. `ConnectAndReconnect` replays the reconnect scenario of the package's tests
  through the class's contracts.
- `SignalApiReceiver` (`signalapireceiver.dfy`): the earlier client,
  `signalapireceiver.Client`. It has its own message schema and its own, looser acceptance
  rule: any data message is buffered, even one whose text is empty. It also has its own
  `New`, `ReceiveLoop`, `Flush` and `RecordMessage`.
- `Server` (`server.dfy`): the handler as a function, `Handle`, from a request and a queue
  to a response and a queue. `Server.ServeHTTP` is proved against it, and it works through
  the client's `Pop` and `Flush`. `Server.Start` is the supervisor, an explicit two-state
  machine (`Receiving`, `Reconnecting`) that records its call history as a trace.
  `SupervisorTrace` states the rules that history obeys.

Inputs that the Go code gets from the outside are parameters here:

- the frames a connection delivers, already decoded: `seq<ReadOutcome<Message>>`;
- whether a dial succeeds: `DialOutcome`;
- for the supervisor, the read stream of each session and the outcome of each dial.

Notes on the Go code that the model follows:

- server/server.go:67-70 also answers `GET /healthz` with 204.
- After `ReceiveLoop` returns, `start` calls `Connect` at once. Only a failed `Connect` is
  followed by a one-second sleep (server/server.go:43-46), and the sleep itself is not
  modelled.
- `receiver.Client.Flush` resets the buffer to a nil slice, and a new `receiver.Client`
  also starts with a nil buffer. See "Left out" for what that means on the wire.

## Model

| member | source | states |
|---|---|---|
| `Transport.FirstFailure` | receiver/client.go:128-133 | the receive loop stops at the first failed read: every read before that position is a frame, and the read at it (if any) is a failure |
| `Receiver.Received` | receiver/client.go:126-135 | what one receive loop buffers holds only accepted messages (data message with text) |
| `Receiver.ReceivedBound` | receiver/client.go:128-134 | a receive loop buffers at most one message per frame read before the first read error |
| `Receiver.ReceivedAppend` | receiver/client.go:128-135 | frames are buffered in arrival order: receiving an error-free stream and then another buffers the first one's messages followed by the second one's |
| `Receiver.IgnoredFrame` | receiver/client.go:161-173 | a frame that fails to decode, or a typing, receipt, sync or text-less data message, does not end the loop and leaves no trace: the buffer is as if the frame had never arrived |
| `Receiver.AcceptedBuffered` | receiver/client.go:128-134 | an accepted frame that arrives before the first read error is buffered at its place: after what the earlier frames gave and before what the later ones give |
| `Receiver.AfterErrorIgnored` | receiver/client.go:129-133 | nothing read after the first read error reaches the buffer, since the loop has returned |
| `Receiver.Dequeue` | receiver/client.go:148-159 | pop on a queue value gives nothing exactly when the queue is empty (and leaves it as it is); otherwise the popped head followed by the remaining queue is the original queue |
| `Receiver.PopsInOrder` | receiver/client_test.go:69-83 | n successive pops on [m0..m(k-1)] return m0, m1, ... in order and then nothing, and leave the unpopped suffix |
| `Receiver.TextMessage` | receiver/client_test.go:87-96 | the test's data message with a text is accepted and carries that text |
| `Receiver.ThreeMessageSession` | receiver/client_test.go:128-148 | a session of three accepted messages followed by a read error stops at the error and buffers exactly those three, in order |
| `Receiver.ConnectAndReconnect` | receiver/client_test.go:123-154 | two sessions of three data messages (texts j*1, j*2, j*3 in session j), each ending in a read error and followed by three pops and a reconnect: each receive loop returns the read error, the pops return 1, 2, 3 and then 2, 4, 6, and the client ends connected with an empty buffer |
| `Receiver.Client.constructor` | receiver/client.go:104 | a new client has no connection and an empty buffer |
| `Receiver.Client.New` | receiver/client.go:103-106 | the client is returned with an empty buffer whatever the dial gives; it is connected on success, and has no connection plus the wrapped dial error on failure |
| `Receiver.Client.Connect` | receiver/client.go:108-121 | any previous connection is closed first; a failed dial leaves no connection and returns the wrapped error; a successful one installs a fresh open connection; the buffer is untouched |
| `Receiver.Client.ReceiveLoop` | receiver/client.go:126-136 | returns the first read error, and the buffer becomes the old buffer followed by `Received(stream)`; a buffer of accepted messages stays so |
| `Receiver.Client.Flush` | receiver/client.go:139-145 | returns exactly the buffer in order and leaves it empty (so a second Flush returns an empty sequence) |
| `Receiver.Client.Pop` | receiver/client.go:148-159 | on an empty buffer returns nothing and changes nothing; otherwise returns the head and the buffer becomes its tail; agrees with `Dequeue`; keeps a buffer of accepted messages so |
| `Receiver.Client.RecordMessage` | receiver/client.go:161-180 | appends the decoded message at the end exactly when it decoded and carries a data message with text; otherwise the buffer is unchanged |
| `SignalApiReceiver.Received` | signalapireceiver/client.go:56-65 | what one receive loop of the earlier client buffers holds only messages with a data message |
| `SignalApiReceiver.ReceivedBound` | signalapireceiver/client.go:58-64 | the earlier receive loop buffers at most one message per frame read before the first read error |
| `SignalApiReceiver.Kept` | signalapireceiver/client.go:84-91 | recording one frame adds at most one message, the frame's own, and adds one exactly when the frame decoded and carries a data message |
| `SignalApiReceiver.ReceivedAppend` | signalapireceiver/client.go:58-65 | receiving an error-free stream and then another buffers the first one's messages followed by the second one's |
| `SignalApiReceiver.DataMessageBuffered` | signalapireceiver/client.go:58-90 | under the earlier rule every decoded data message that arrives before the first read error is buffered at its place, whatever its text and whatever frames surround it |
| `SignalApiReceiver.IgnoredFrame` | signalapireceiver/client.go:76-87 | a frame that fails to decode, or a message without a data message, does not end the loop and leaves no trace in the buffer |
| `SignalApiReceiver.EmptyTextAccepted` | signalapireceiver/client.go:26-31 | a data message whose text is empty is accepted, since the text is a plain string |
| `SignalApiReceiver.Client.constructor` | signalapireceiver/client.go:50-53 | the client holds the given connection and an empty (non-nil) buffer |
| `SignalApiReceiver.Client.New` | signalapireceiver/client.go:44-54 | a failed dial gives no client and the wrapped error; a successful one gives a fresh client with a fresh open connection and an empty buffer |
| `SignalApiReceiver.Client.ReceiveLoop` | signalapireceiver/client.go:56-66 | records frames in arrival order until the first read error, then returns: the buffer becomes the old buffer followed by `Received(stream)` |
| `SignalApiReceiver.Client.Flush` | signalapireceiver/client.go:68-74 | returns the buffer in order and resets it to an empty list |
| `SignalApiReceiver.Client.RecordMessage` | signalapireceiver/client.go:76-94 | appends exactly when the frame decoded and carries a data message; otherwise the buffer is unchanged; the new buffer is the old one followed by `Kept(frame)`, so earlier messages keep their positions and the length grows by at most one |
| `Server.Handle` | server/server.go:60-98 | a non-GET gets 403 with the queue untouched; GET /healthz gets 204 with the queue untouched; GET /receive/pop gets 204 on an empty queue, otherwise 200 with the head, which it removes; GET /receive/flush gets 200 with the whole queue in order and empties it; any other GET gets 404 with a text containing the path, with the queue untouched |
| `Server.NotFoundNamesPath` | server/server.go:95-97 | the 404 text contains the requested path |
| `Server.PopRequestsInOrder` | server/server_test.go:139-174 | successive GET /receive/pop requests return the queued messages with 200 in FIFO order, then 204 |
| `Server.SessionErrors` | receiver/client.go:128-133 | the errors of successive receive loops, one per session, the i-th being the first read error of the i-th session |
| `Server.DialResults` | receiver/client.go:115-120 | the results of successive Connect calls, one per dial: nothing for a successful dial, the wrapped dial error for a failed one |
| `Server.AppendCall` | server/server.go:38-48 | one more call that the current state allows keeps the supervisor's rules; it extends the ReceiveLoop errors or the Connect results by its own result, and moves the state along |
| `Server.TracksReceive` | server/server.go:39-41 | in the receiving state, a receive loop over the next session keeps the history matched to the inputs, moves to reconnecting, and adds one ReceiveLoop error |
| `Server.TracksConnect` | server/server.go:42-47 | in the reconnecting state, Connect with the next dial keeps the history matched to the inputs; it stays in reconnecting when that Connect failed and goes to receiving when it succeeded |
| `Server.BufferStep` | server/server.go:38-39 | one more session's receive loop appends that session's accepted messages after those of the earlier sessions |
| `Server.Server.constructor` | server/server.go:31-35 | the server keeps the client it is given |
| `Server.Server.ServeHTTP` | server/server.go:60-98 | the response and the client's new buffer are those of `Handle` on the old buffer; the only effect is one Pop or one Flush |
| `Server.Server.Start` | server/server.go:37-49 | the call history starts with ReceiveLoop; every ReceiveLoop return is followed by Connect; a failed Connect is followed by Connect again, and a successful one by ReceiveLoop; the i-th ReceiveLoop returns the first read error of the i-th session, and the i-th Connect returns the result of the i-th dial; the loop only stops when the next call has no input left, and it is connected whenever it stops before a ReceiveLoop; the buffer gains every session's accepted messages, session after session, in order |

## Left out

- JSON decoding and encoding (`encoding/json`) and the wire field names are not modelled. A
  decoded frame is an `Option<Message>`, and a response body is the value that would be
  encoded. The 500 status after a failed encode (server/server.go:79-81, 89-91) depends on
  the encoder and is left out.
- Nil versus empty Go slices are not modelled. `receiver.Client` starts with a nil buffer,
  and its `Flush` resets the buffer to nil. `encoding/json` writes a nil slice as `null`,
  not `[]`. So `GET /receive/flush` on a fresh or just-flushed `receiver.Client` answers
  `null`, not `[]`. The model writes both as the empty
  sequence.
- The websocket library (`Dial`, `ReadMessage`, `Close`) is foreign I/O. Its results are
  the `DialOutcome` and `ReadOutcome` inputs. The URL of the client is not modelled.
- `Receiver.Client.ReceiveLoop` and `SignalApiReceiver.Client.ReceiveLoop` are only
  modelled on a read stream that ends in a read error. On a stream that never fails, the
  Go loop never returns.
- `Server.Server.Start`: the Go loop never ends. The model runs it over finite lists of
  sessions and dial outcomes, and stops when the next call would need an input that is
  not there.
- `Server.Server.Start` drives the concrete `Receiver.Client`, not a narrow interface, so
  the test double in server/server_test.go is not modelled.
- `sync.Mutex` and the goroutines are not modelled. Each locked region is one atomic
  method, and interleavings of the supervisor with HTTP requests are not modelled.
- `time.Sleep` and all logging are left out. They have no effect on state.
- main.go and cmd/signal-api-receiver/main.go (flag parsing, URL building, server start)
  are not part of this model. main.go also starts a receive loop of its own beside the
  server's supervisor, so two loops read one connection; that concurrency is outside the
  model.

/**
 * The current streaming client (package `receiver`): a websocket connection handle and
 * a FIFO buffer of the data messages received on it. Each locked region of the Go code
 * (Pop, Flush, the append in recordMessage) is one atomic method here.
 */
module Receiver {
  import opened Wrappers
  import opened Transport

  // ---------------------------------------------------------------------------
  // Message schema. Only the presence of the data message and of its text decide
  // anything; the rest is carried as plain data. Go's int/int64 become int, a Go
  // pointer becomes an Option.

  datatype Message = Message(envelope: Envelope, account: string)

  datatype Envelope = Envelope(
    source: string,
    sourceNumber: string,
    sourceUuid: string,
    sourceName: string,
    sourceDevice: int,
    timestamp: int,
    receiptMessage: Option<ReceiptMessage>,
    typingMessage: Option<TypingMessage>,
    dataMessage: Option<DataMessage>,
    syncMessage: Option<SyncMessage>)

  datatype ReceiptMessage = ReceiptMessage(
    when: int, isDelivery: bool, isRead: bool, isViewed: bool, timestamps: seq<int>)

  datatype TypingMessage = TypingMessage(action: string, timestamp: int)

  datatype SyncMessage = SyncMessage

  datatype DataMessage = DataMessage(
    timestamp: int,
    message: Option<string>,
    expiresInSeconds: int,
    viewOnce: bool,
    groupInfo: Option<GroupInfo>,
    quote: Option<Quote>,
    mentions: seq<Mention>,
    sticker: Option<Sticker>,
    attachments: seq<Attachment>,
    remoteDelete: Option<RemoteDelete>)

  datatype GroupInfo = GroupInfo(groupId: string, groupName: string, revision: int, groupType: string)

  datatype Quote = Quote(
    id: int, author: string, authorNumber: string, authorUuid: string,
    text: string, attachments: seq<Attachment>)

  datatype Mention = Mention(name: string, number: string, uuid: string, start: int, length: int)

  datatype Sticker = Sticker(packId: string, stickerId: int)

  datatype RemoteDelete = RemoteDelete(timestamp: int)

  datatype Attachment = Attachment(
    contentType: string,
    id: string,
    filename: Option<string>,
    size: int,
    width: Option<int>,
    height: Option<int>,
    caption: Option<string>,
    uploadTimestamp: Option<int>)

  // ---------------------------------------------------------------------------
  // The acceptance rule and what the receive loop buffers.

  /** A message is buffered only when it carries a data message with (non-null) text. */
  predicate Accepted(m: Message) {
    m.envelope.dataMessage.Some? && m.envelope.dataMessage.value.message.Some?
  }

  /** A decoded frame is recorded when it decoded and its message is accepted. */
  predicate Records(frame: Option<Message>) {
    frame.Some? && Accepted(frame.value)
  }

  /** What recording one decoded frame adds to the buffer: its message when recorded, nothing otherwise. */
  function Kept(frame: Option<Message>): seq<Message> {
    if Records(frame) then [frame.value] else []
  }

  /** The buffer invariant the acceptance rule is meant to keep. */
  predicate AllAccepted(q: seq<Message>) {
    forall m :: m in q ==> Accepted(m)
  }

  lemma AllAcceptedAppend(a: seq<Message>, b: seq<Message>)
    requires AllAccepted(a) && AllAccepted(b)
    ensures AllAccepted(a + b)
  {
  }

  /**
   * The messages a receive loop appends for the read stream `stream`: the accepted
   * decodings of the frames before the first read error, in arrival order.
   */
  function Received(stream: seq<ReadOutcome<Message>>): (r: seq<Message>)
    ensures AllAccepted(r)
  {
    if |stream| == 0 then []
    else match stream[0]
      case ReadFailed(_) => []
      case Frame(d) => Kept(d) + Received(stream[1..])
  }

  /** One step of the receive loop, seen from a buffer `before`: recording the frame at `i` moves it from the stream to the buffer. */
  lemma ReceiveStep(before: seq<Message>, stream: seq<ReadOutcome<Message>>, i: nat)
    requires i < |stream| && stream[i].Frame?
    ensures (before + Kept(stream[i].decoded)) + Received(stream[i + 1..]) == before + Received(stream[i..])
  {
    ReceivedFrom(stream, i);
  }

  /** One step of the receive loop: a frame adds its kept message, a failed read ends the stream. */
  lemma ReceivedFrom(stream: seq<ReadOutcome<Message>>, i: nat)
    requires i < |stream|
    ensures stream[i].Frame? ==> Received(stream[i..]) == Kept(stream[i].decoded) + Received(stream[i + 1..])
    ensures stream[i].ReadFailed? ==> Received(stream[i..]) == []
  {
    assert stream[i..][1..] == stream[i + 1..];
  }

  /** The loop buffers at most one message per frame it reads before the first read error. */
  lemma {:induction false} ReceivedBound(stream: seq<ReadOutcome<Message>>)
    ensures |Received(stream)| <= FirstFailure(stream)
  {
    if |stream| > 0 && stream[0].Frame? {
      ReceivedBound(stream[1..]);
    }
  }

  /** Receiving two streams back to back, the first without a read error, buffers both in order. */
  lemma {:induction false} ReceivedAppend(pre: seq<ReadOutcome<Message>>, post: seq<ReadOutcome<Message>>)
    requires FirstFailure(pre) == |pre|
    ensures Received(pre + post) == Received(pre) + Received(post)
  {
    if |pre| > 0 {
      assert (pre + post)[1..] == pre[1..] + post;
      ReceivedAppend(pre[1..], post);
    } else {
      assert pre + post == post;
    }
  }

  /**
   * A frame that fails to decode, or decodes to a message that is not accepted (a typing
   * indicator, a receipt, a data message without text), neither ends the loop nor reaches
   * the buffer: the loop buffers exactly what it would have buffered without that frame.
   */
  lemma {:induction false} IgnoredFrame(pre: seq<ReadOutcome<Message>>, f: Option<Message>, post: seq<ReadOutcome<Message>>)
    requires FirstFailure(pre) == |pre|
    requires !Records(f)
    ensures Received(pre + [Frame(f)] + post) == Received(pre + post)
  {
    assert pre + [Frame(f)] + post == pre + ([Frame(f)] + post);
    ReceivedAppend(pre, [Frame(f)] + post);
    assert ([Frame(f)] + post)[1..] == post;
    ReceivedAppend(pre, post);
  }

  /** An accepted frame that arrives before the first read error is buffered at its place. */
  lemma {:induction false} AcceptedBuffered(pre: seq<ReadOutcome<Message>>, m: Message, post: seq<ReadOutcome<Message>>)
    requires FirstFailure(pre) == |pre|
    requires Accepted(m)
    ensures Received(pre + [Frame(Some(m))] + post) == Received(pre) + [m] + Received(post)
  {
    assert pre + [Frame(Some(m))] + post == pre + ([Frame(Some(m))] + post);
    ReceivedAppend(pre, [Frame(Some(m))] + post);
    assert ([Frame(Some(m))] + post)[1..] == post;
  }

  /** Nothing read after the first read error reaches the buffer: the loop has returned. */
  lemma {:induction false} AfterErrorIgnored(pre: seq<ReadOutcome<Message>>, e: Error, post: seq<ReadOutcome<Message>>)
    requires FirstFailure(pre) == |pre|
    ensures Received(pre + [ReadFailed(e)] + post) == Received(pre)
  {
    assert pre + [ReadFailed(e)] + post == pre + ([ReadFailed(e)] + post);
    ReceivedAppend(pre, [ReadFailed(e)] + post);
  }

  // ---------------------------------------------------------------------------
  // Pop as a function on the queue, so that sequences of pops can be reasoned about.

  /** Pop on a queue value: the head and the rest, or nothing when the queue is empty. */
  function Dequeue(q: seq<Message>): (r: (Option<Message>, seq<Message>))
    ensures r.0.None? <==> q == []
    ensures r.0.None? ==> r.1 == q
    ensures r.0.Some? ==> [r.0.value] + r.1 == q
  {
    if |q| == 0 then (None, q) else (Some(q[0]), q[1..])
  }

  /** The results of `n` successive pops on `q`, and the queue they leave. */
  function PopTimes(q: seq<Message>, n: nat): (seq<Option<Message>>, seq<Message>)
  {
    if n == 0 then ([], q)
    else
      var (m, rest) := Dequeue(q);
      var (ms, last) := PopTimes(rest, n - 1);
      ([m] + ms, last)
  }

  /**
   * Successive pops on [m0, ..., m(k-1)] return m0, ..., m(k-1) in order and then
   * nothing; the queue left behind is what was not popped.
   */
  lemma {:induction false} PopsInOrder(q: seq<Message>, n: nat)
    ensures |PopTimes(q, n).0| == n
    ensures forall i :: 0 <= i < n ==> PopTimes(q, n).0[i] == (if i < |q| then Some(q[i]) else None)
    ensures PopTimes(q, n).1 == if n <= |q| then q[n..] else []
  {
    if n > 0 {
      PopsInOrder(Dequeue(q).1, n - 1);
    }
  }

  // ---------------------------------------------------------------------------
  // The client.

  class Client {
    /** The websocket connection; null before the first successful Connect and after a failed one. */
    var conn: Conn?
    /** The FIFO buffer: oldest message first. */
    var messages: seq<Message>

    constructor ()
      ensures conn == null && messages == []
    {
      conn := null;
      messages := [];
    }

    /**
     * New: builds a client with an empty buffer and connects it. The client is
     * returned whatever the outcome of the dial, together with Connect's error.
     */
    static method New(dial: DialOutcome) returns (c: Client, err: Option<Error>)
      ensures fresh(c) && c.messages == []
      ensures dial.DialOk? ==> err == None && c.conn != null && fresh(c.conn) && !c.conn.closed
      ensures dial.DialFailed? ==> c.conn == null && err == Some(ConnectError(dial.cause))
    {
      c := new Client();
      err := c.Connect(dial);
    }

    /**
     * Connect closes and drops any existing connection before dialing; on a failed dial
     * the client is left without a connection and the wrapped dial error is returned,
     * otherwise the new connection replaces it. The buffer is not touched.
     */
    method Connect(dial: DialOutcome) returns (err: Option<Error>)
      modifies this`conn, conn
      ensures old(conn) != null ==> old(conn).closed
      ensures dial.DialOk? ==> err == None && conn != null && fresh(conn) && !conn.closed
      ensures dial.DialFailed? ==> conn == null && err == Some(ConnectError(dial.cause))
    {
      if conn != null {
        conn.Close();
        conn := null;
      }
      var c, dialErr := Dial(dial);
      if dialErr.Some? {
        err := Some(ConnectError(dialErr.value));
        return;
      }
      conn := c;
      err := None;
    }

    /**
     * ReceiveLoop reads frames and records each one until the first read error, which
     * it returns; the buffer grows by the accepted decodings of the frames before it,
     * in order. The read stream is required to end in an error: on a stream that never
     * fails the Go loop does not return.
     */
    method ReceiveLoop(stream: seq<ReadOutcome<Message>>) returns (err: Error)
      requires conn != null
      requires FirstFailure(stream) < |stream|
      modifies this`messages
      ensures err == stream[FirstFailure(stream)].err
      ensures messages == old(messages) + Received(stream)
      ensures AllAccepted(old(messages)) ==> AllAccepted(messages)
    {
      ghost var stop := FirstFailure(stream);
      var i := 0;
      while stream[i].Frame?
        invariant 0 <= i <= stop
        invariant messages + Received(stream[i..]) == old(messages) + Received(stream)
        decreases stop - i
      {
        ReceiveStep(messages, stream, i);
        RecordMessage(stream[i].decoded);
        i := i + 1;
      }
      ReceivedFrom(stream, i);
      err := stream[i].err;
      if AllAccepted(old(messages)) {
        AllAcceptedAppend(old(messages), Received(stream));
      }
    }

    /** Flush returns the whole buffer, oldest first, and leaves it empty. */
    method Flush() returns (msgs: seq<Message>)
      modifies this`messages
      ensures msgs == old(messages)
      ensures messages == []
    {
      msgs := messages;
      messages := [];
    }

    /**
     * Pop removes and returns the oldest message, or returns nothing and leaves the
     * buffer as it is when the buffer is empty.
     */
    method Pop() returns (m: Option<Message>)
      modifies this`messages
      ensures (m, messages) == Dequeue(old(messages))
      ensures old(messages) == [] ==> m == None && messages == []
      ensures old(messages) != [] ==> m == Some(old(messages)[0]) && messages == old(messages)[1..]
      ensures AllAccepted(old(messages)) ==> AllAccepted(messages)
    {
      if |messages| == 0 {
        return None;
      }
      m := Some(messages[0]);
      messages := messages[1..];
    }

    /**
     * recordMessage appends the decoded message at the end of the buffer when it is
     * accepted; a frame that did not decode, or a message without data text, leaves
     * the buffer unchanged.
     */
    method RecordMessage(frame: Option<Message>)
      modifies this`messages
      ensures Records(frame) ==> messages == old(messages) + [frame.value]
      ensures !Records(frame) ==> messages == old(messages)
      ensures messages == old(messages) + Kept(frame)
      ensures AllAccepted(old(messages)) ==> AllAccepted(messages)
    {
      if frame.None? {
        return;
      }
      var m := frame.value;
      if m.envelope.dataMessage.None? || m.envelope.dataMessage.value.message.None? {
        return;
      }
      messages := messages + [m];
    }
  }

  /** The error Connect returns for a failed dial: the dial error, wrapped. */
  function ConnectError(cause: Error): Error {
    Error("error creating a new websocket connetion: " + cause.text)
  }

  /** A data message carrying `text`, the shape the reconnect scenario below sends. */
  function TextMessage(text: string): (m: Message)
    ensures Accepted(m) && m.envelope.dataMessage.value.message == Some(text)
  {
    Message(Envelope("", "", "", "", 0, 0, None, None,
      Some(DataMessage(0, Some(text), 0, false, None, None, [], None, [], None)), None), "")
  }

  /** A session that delivers three accepted messages and then fails buffers exactly those three. */
  lemma ThreeMessageSession(a: Message, b: Message, c: Message, e: Error)
    requires Accepted(a) && Accepted(b) && Accepted(c)
    ensures var s := [Frame(Some(a)), Frame(Some(b)), Frame(Some(c)), ReadFailed(e)];
      FirstFailure(s) == 3 && Received(s) == [a, b, c]
  {
    var s := [Frame(Some(a)), Frame(Some(b)), Frame(Some(c)), ReadFailed(e)];
    assert s[3].ReadFailed?;
    assert Received(s[3..]) == [];
    assert Received(s[2..]) == [c];
    assert Received(s[1..]) == [b, c];
  }

  /**
   * The reconnect scenario of the package's tests: a client is created, then twice a
   * session of three data messages (texts j*1, j*2, j*3 in session j) ends in a read
   * error, three pops follow, and the client reconnects. Each receive loop returns the
   * session's read error, the pops return the messages of that session in order and
   * nothing of the first session is left over in the second.
   */
  method ConnectAndReconnect() returns (c: Client, loopErrs: seq<Error>, popped: seq<Option<Message>>)
    ensures loopErrs == [Error("websocket: close 1000"), Error("websocket: close 1000")]
    ensures popped == [Some(TextMessage("1")), Some(TextMessage("2")), Some(TextMessage("3")),
                       Some(TextMessage("2")), Some(TextMessage("4")), Some(TextMessage("6"))]
    ensures c.messages == [] && c.conn != null
  {
    var err;
    c, err := Client.New(DialOk);
    var closed := Error("websocket: close 1000");

    ThreeMessageSession(TextMessage("1"), TextMessage("2"), TextMessage("3"), closed);
    var e1 := c.ReceiveLoop([Frame(Some(TextMessage("1"))), Frame(Some(TextMessage("2"))), Frame(Some(TextMessage("3"))), ReadFailed(closed)]);
    var m1 := c.Pop();
    var m2 := c.Pop();
    var m3 := c.Pop();
    err := c.Connect(DialOk);

    ThreeMessageSession(TextMessage("2"), TextMessage("4"), TextMessage("6"), closed);
    var e2 := c.ReceiveLoop([Frame(Some(TextMessage("2"))), Frame(Some(TextMessage("4"))), Frame(Some(TextMessage("6"))), ReadFailed(closed)]);
    var m4 := c.Pop();
    var m5 := c.Pop();
    var m6 := c.Pop();
    err := c.Connect(DialOk);

    loopErrs := [e1, e2];
    popped := [m1, m2, m3, m4, m5, m6];
  }
}

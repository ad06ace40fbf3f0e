/**
 * The earlier streaming client (package `signalapireceiver`). It has the same FIFO buffer
 * as the current one, but a looser acceptance rule: any message carrying a data message
 * is buffered, whatever its text, since the text is a plain string here. The client
 * embeds its connection, which New dials; there is no Pop, no Connect, and the receive
 * loop returns nothing.
 */
module SignalApiReceiver {
  import opened Wrappers
  import opened Transport

  datatype Message = Message(envelope: Envelope, account: string)

  datatype Envelope = Envelope(
    source: string,
    sourceNumber: string,
    sourceUuid: string,
    sourceName: string,
    sourceDevice: int,
    timestamp: int,
    typingMessage: Option<TypingMessage>,
    dataMessage: Option<DataMessage>)

  datatype TypingMessage = TypingMessage(action: string, timestamp: int)

  /** The text is a plain string: an absent text decodes as "". */
  datatype DataMessage = DataMessage(
    timestamp: int, message: string, expiresInSeconds: int, viewOnce: bool)

  /** A message is buffered whenever it carries a data message. */
  predicate Accepted(m: Message) {
    m.envelope.dataMessage.Some?
  }

  predicate Records(frame: Option<Message>) {
    frame.Some? && Accepted(frame.value)
  }

  /**
   * What recording one decoded frame adds to the buffer: at most one message, and one
   * exactly when the frame is recorded, so recording only ever appends.
   */
  function Kept(frame: Option<Message>): (r: seq<Message>)
    ensures |r| <= 1
    ensures r != [] <==> Records(frame)
    ensures r != [] ==> r[0] == frame.value
  {
    if Records(frame) then [frame.value] else []
  }

  /** The accepted decodings of the frames before the first read error, in arrival order. */
  function Received(stream: seq<ReadOutcome<Message>>): (r: seq<Message>)
    ensures forall m :: m in r ==> Accepted(m)
  {
    if |stream| == 0 then []
    else match stream[0]
      case ReadFailed(_) => []
      case Frame(d) => Kept(d) + Received(stream[1..])
  }

  /** The loop buffers at most one message per frame it reads before the first read error. */
  lemma {:induction false} ReceivedBound(stream: seq<ReadOutcome<Message>>)
    ensures |Received(stream)| <= FirstFailure(stream)
  {
    if |stream| > 0 && stream[0].Frame? {
      ReceivedBound(stream[1..]);
    }
  }

  /** One step of the receive loop, seen from a buffer `before`: recording the frame at `i` moves it from the stream to the buffer. */
  lemma ReceiveStep(before: seq<Message>, stream: seq<ReadOutcome<Message>>, i: nat)
    requires i < |stream| && stream[i].Frame?
    ensures (before + Kept(stream[i].decoded)) + Received(stream[i + 1..]) == before + Received(stream[i..])
  {
    ReceivedFrom(stream, i);
  }

  /** One step of the receive loop: a frame adds its kept message, a failed read ends the stream. */
  lemma ReceivedFrom(stream: seq<ReadOutcome<Message>>, i: nat)
    requires i < |stream|
    ensures stream[i].Frame? ==> Received(stream[i..]) == Kept(stream[i].decoded) + Received(stream[i + 1..])
    ensures stream[i].ReadFailed? ==> Received(stream[i..]) == []
  {
    assert stream[i..][1..] == stream[i + 1..];
  }

  /** Receiving two streams back to back, the first without a read error, buffers both in order. */
  lemma {:induction false} ReceivedAppend(pre: seq<ReadOutcome<Message>>, post: seq<ReadOutcome<Message>>)
    requires FirstFailure(pre) == |pre|
    ensures Received(pre + post) == Received(pre) + Received(post)
  {
    if |pre| > 0 {
      assert (pre + post)[1..] == pre[1..] + post;
      ReceivedAppend(pre[1..], post);
    } else {
      assert pre + post == post;
    }
  }

  /**
   * Under the earlier rule every decoded data message that arrives before the first read
   * error is buffered at its place, whatever its text and whatever frames surround it.
   */
  lemma {:induction false} DataMessageBuffered(pre: seq<ReadOutcome<Message>>, m: Message, post: seq<ReadOutcome<Message>>)
    requires FirstFailure(pre) == |pre|
    requires m.envelope.dataMessage.Some?
    ensures Received(pre + [Frame(Some(m))] + post) == Received(pre) + [m] + Received(post)
  {
    assert pre + [Frame(Some(m))] + post == pre + ([Frame(Some(m))] + post);
    ReceivedAppend(pre, [Frame(Some(m))] + post);
    assert ([Frame(Some(m))] + post)[1..] == post;
  }

  /**
   * A frame that fails to decode, or a message without a data message (a typing
   * indicator), neither ends the loop nor reaches the buffer.
   */
  lemma {:induction false} IgnoredFrame(pre: seq<ReadOutcome<Message>>, f: Option<Message>, post: seq<ReadOutcome<Message>>)
    requires FirstFailure(pre) == |pre|
    requires !Records(f)
    ensures Received(pre + [Frame(f)] + post) == Received(pre + post)
  {
    assert pre + [Frame(f)] + post == pre + ([Frame(f)] + post);
    ReceivedAppend(pre, [Frame(f)] + post);
    assert ([Frame(f)] + post)[1..] == post;
    ReceivedAppend(pre, post);
  }

  /** A data message whose text is empty is still accepted under this rule. */
  lemma EmptyTextAccepted(m: Message)
    requires m.envelope.dataMessage.Some? && m.envelope.dataMessage.value.message == ""
    ensures Accepted(m)
  {
  }

  class Client {
    /** The embedded websocket connection. */
    var conn: Conn
    var messages: seq<Message>

    constructor (conn: Conn)
      ensures this.conn == conn && messages == []
    {
      this.conn := conn;
      messages := [];
    }

    /**
     * New dials first: on failure there is no client and the wrapped dial error is
     * returned; on success the client holds the new connection and an empty buffer.
     */
    static method New(dial: DialOutcome) returns (c: Client?, err: Option<Error>)
      ensures dial.DialFailed? ==> c == null && err == Some(NewError(dial.cause))
      ensures dial.DialOk? ==> err == None && c != null && fresh(c) && fresh(c.conn)
      ensures dial.DialOk? ==> c.messages == [] && !c.conn.closed
    {
      var conn, dialErr := Dial(dial);
      if dialErr.Some? {
        return null, Some(NewError(dialErr.value));
      }
      c := new Client(conn);
      err := None;
    }

    /**
     * ReceiveLoop records each frame in arrival order until the first read error, then
     * returns. The read stream is required to end in an error: on a stream that never
     * fails the Go loop does not return.
     */
    method ReceiveLoop(stream: seq<ReadOutcome<Message>>)
      requires FirstFailure(stream) < |stream|
      modifies this`messages
      ensures messages == old(messages) + Received(stream)
    {
      ghost var stop := FirstFailure(stream);
      var i := 0;
      while stream[i].Frame?
        invariant 0 <= i <= stop
        invariant messages + Received(stream[i..]) == old(messages) + Received(stream)
        decreases stop - i
      {
        ReceiveStep(messages, stream, i);
        RecordMessage(stream[i].decoded);
        i := i + 1;
      }
      ReceivedFrom(stream, i);
    }

    /** Flush returns the whole buffer, oldest first, and resets it to an empty list. */
    method Flush() returns (msgs: seq<Message>)
      modifies this`messages
      ensures msgs == old(messages)
      ensures messages == []
    {
      msgs := messages;
      messages := [];
    }

    /**
     * recordMessage appends the decoded message when it carries a data message; a frame
     * that did not decode, or a message without one, leaves the buffer unchanged. It only
     * ever appends: the buffer becomes the old one followed by `Kept(frame)`.
     */
    method RecordMessage(frame: Option<Message>)
      modifies this`messages
      ensures Records(frame) ==> messages == old(messages) + [frame.value]
      ensures !Records(frame) ==> messages == old(messages)
      ensures messages == old(messages) + Kept(frame)
    {
      if frame.None? {
        return;
      }
      var m := frame.value;
      if m.envelope.dataMessage.None? {
        return;
      }
      messages := messages + [m];
    }
  }

  /** The error New returns for a failed dial: the dial error, wrapped. */
  function NewError(cause: Error): Error {
    Error("error creating a new websocket connetion: " + cause.text)
  }
}

/**
 * The streaming transport as the clients see it: errors, the outcome of a dial,
 * the outcome of one read, and the connection handle. The websocket library itself
 * (dialing, framing, closing) is foreign code; its results are given to the model
 * as inputs.
 */
module Transport {
  import opened Wrappers

  /** A Go `error`, reduced to its text. */
  datatype Error = Error(text: string)

  /** What the dialer returned: a new connection, or the error it failed with. */
  datatype DialOutcome = DialOk | DialFailed(cause: Error)

  /**
   * What one read of the connection gave: a frame, already run through the JSON
   * decoder (`None` when the frame did not decode), or the error that ended the read.
   */
  datatype ReadOutcome<M> = Frame(decoded: Option<M>) | ReadFailed(err: Error)

  /** A websocket connection handle; the only state the model keeps of it is whether it was closed. */
  class Conn {
    var closed: bool

    constructor ()
      ensures !closed
    {
      closed := false;
    }

    method Close()
      modifies this
      ensures closed
    {
      closed := true;
    }
  }

  /** The dialer: a fresh open connection on success, no connection and the dial error otherwise. */
  method Dial(outcome: DialOutcome) returns (c: Conn?, err: Option<Error>)
    ensures outcome.DialOk? ==> c != null && fresh(c) && !c.closed && err == None
    ensures outcome.DialFailed? ==> c == null && err == Some(outcome.cause)
  {
    if outcome.DialOk? {
      c := new Conn();
      err := None;
    } else {
      c := null;
      err := Some(outcome.cause);
    }
  }

  /**
   * The position of the first failed read, or |stream| when no read fails: the point at
   * which a receive loop stops, since it returns on the first read error.
   */
  function FirstFailure<M>(stream: seq<ReadOutcome<M>>): (k: nat)
    ensures k <= |stream|
    ensures forall j :: 0 <= j < k ==> stream[j].Frame?
    ensures k < |stream| ==> stream[k].ReadFailed?
  {
    if |stream| == 0 || stream[0].ReadFailed? then 0 else 1 + FirstFailure(stream[1..])
  }
}

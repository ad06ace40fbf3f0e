/**
 * The HTTP front (package `server`): a handler that maps GET /receive/pop and
 * GET /receive/flush onto the client's Pop and Flush, and the supervisor loop that keeps
 * the client's receive loop running, reconnecting after every return.
 */
module Server {
  import opened Wrappers
  import opened Transport
  import opened Receiver

  /** The help text appended to every 404 body. */
  const Usage: string := "\nGET /receive/pop   => Return the oldest message\nGET /receive/flush => Return all messages\n"

  const MethodGet: string := "GET"
  const ForbiddenText: string := "GET is the only allowed verb"
  const JsonType: string := "application/json"
  const PlainType: string := "text/plain"

  datatype Request = Request(verb: string, path: string)

  /** A response body: none, one JSON-encoded message, a JSON array of messages, or text. */
  datatype Body = NoBody | OneMessage(m: Message) | MessageList(ms: seq<Message>) | Text(text: string)

  /**
   * A response: the status, the Content-Type header the handler sets itself (None where it
   * sets none and leaves the choice to net/http), and the body.
   */
  datatype Response = Response(status: int, contentType: Option<string>, body: Body)

  /** The 404 body: names the requested path, then lists the supported routes. */
  function NotFoundText(path: string): string {
    "ERROR! GET " + path + " is not supported. The supported paths are below:" + Usage
  }

  predicate Contains(s: string, part: string) {
    exists k :: 0 <= k <= |s| && part <= s[k..]
  }

  /**
   * The handler as a function of the request and the queue: the response, and the queue
   * it leaves. Only a GET is served; /healthz answers 204 without touching the queue;
   * /receive/pop answers 204 on an empty queue and otherwise 200 with the oldest message,
   * which it removes; /receive/flush answers 200 with the whole queue, which it empties;
   * any other path answers 404 with a text naming the path.
   */
  function Handle(req: Request, q: seq<Message>): (r: (Response, seq<Message>))
    ensures req.verb != MethodGet ==> r.0.status == 403 && r.1 == q
    ensures req.verb == MethodGet && req.path == "/healthz" ==> r.0.status == 204 && r.1 == q
    ensures req.verb == MethodGet && req.path == "/receive/pop" ==>
      (q == [] ==> r.0.status == 204 && r.0.body == NoBody && r.1 == q) &&
      (q != [] ==> r.0.status == 200 && r.0.body == OneMessage(q[0]) && r.1 == q[1..])
    ensures req.verb == MethodGet && req.path == "/receive/flush" ==>
      r.0.status == 200 && r.0.body == MessageList(q) && r.1 == []
    ensures req.verb == MethodGet && req.path !in {"/healthz", "/receive/pop", "/receive/flush"} ==>
      r.0.status == 404 && r.0.body.Text? && Contains(r.0.body.text, req.path) && r.1 == q
  {
    if req.verb != MethodGet then
      (Response(403, None, Text(ForbiddenText)), q)
    else if req.path == "/healthz" then
      (Response(204, None, NoBody), q)
    else if req.path == "/receive/pop" then
      var (m, rest) := Dequeue(q);
      if m.None? then (Response(204, None, NoBody), rest)
      else (Response(200, Some(JsonType), OneMessage(m.value)), rest)
    else if req.path == "/receive/flush" then
      (Response(200, Some(JsonType), MessageList(q)), [])
    else
      NotFoundNamesPath(req.path);
      (Response(404, Some(PlainType), Text(NotFoundText(req.path))), q)
  }

  lemma NotFoundNamesPath(path: string)
    ensures Contains(NotFoundText(path), path)
  {
    var prefix := "ERROR! GET ";
    var s := NotFoundText(path);
    assert s == prefix + path + (" is not supported. The supported paths are below:" + Usage);
    assert path <= s[|prefix|..];
  }

  /** The responses to a series of requests served one after the other, and the queue left. */
  function ServeAll(reqs: seq<Request>, q: seq<Message>): (seq<Response>, seq<Message>)
  {
    if |reqs| == 0 then ([], q)
    else
      var (resp, q') := Handle(reqs[0], q);
      var (rs, last) := ServeAll(reqs[1..], q');
      ([resp] + rs, last)
  }

  /**
   * Successive GET /receive/pop requests on [m0, ..., m(k-1)] answer 200 with m0, ...,
   * m(k-1) in order, then 204; the queue left is what was not popped.
   */
  lemma {:induction false} PopRequestsInOrder(q: seq<Message>, reqs: seq<Request>)
    requires forall j :: 0 <= j < |reqs| ==> reqs[j] == Request(MethodGet, "/receive/pop")
    ensures |ServeAll(reqs, q).0| == |reqs|
    ensures forall i :: 0 <= i < |reqs| && i < |q| ==>
      ServeAll(reqs, q).0[i] == Response(200, Some(JsonType), OneMessage(q[i]))
    ensures forall i :: |q| <= i < |reqs| ==> ServeAll(reqs, q).0[i] == Response(204, None, NoBody)
    ensures ServeAll(reqs, q).1 == if |reqs| <= |q| then q[|reqs|..] else []
  {
    if |reqs| > 0 {
      PopRequestsInOrder(Handle(reqs[0], q).1, reqs[1..]);
    }
  }

  // ---------------------------------------------------------------------------
  // The supervisor.

  /** One call the supervisor made, with its result. */
  datatype Call = ReceiveLoopReturned(readErr: Error) | ConnectReturned(dialErr: Option<Error>)

  /** The two states of the supervisor. */
  datatype State = Receiving | Reconnecting

  /**
   * What may follow a call: after ReceiveLoop returns, Connect; after a failed Connect,
   * Connect again; after a successful Connect, ReceiveLoop.
   */
  predicate Follows(prev: Call, next: Call) {
    match prev
    case ReceiveLoopReturned(_) => next.ConnectReturned?
    case ConnectReturned(err) => if err.None? then next.ReceiveLoopReturned? else next.ConnectReturned?
  }

  /** The supervisor's rules over its whole call history; it starts by receiving. */
  predicate SupervisorTrace(trace: seq<Call>) {
    (|trace| > 0 ==> trace[0].ReceiveLoopReturned?) &&
    forall k :: 0 <= k < |trace| - 1 ==> Follows(trace[k], trace[k + 1])
  }

  /** The state the supervisor is in after the calls of `trace`. */
  function StateAfter(trace: seq<Call>): State {
    if |trace| == 0 || trace[|trace| - 1] == ConnectReturned(None) then Receiving else Reconnecting
  }

  /** The errors ReceiveLoop returned in `trace`, in call order. */
  function LoopErrors(trace: seq<Call>): seq<Error> {
    if |trace| == 0 then []
    else
      var last := trace[|trace| - 1];
      LoopErrors(trace[..|trace| - 1]) + (if last.ReceiveLoopReturned? then [last.readErr] else [])
  }

  /** The results Connect returned in `trace`, in call order. */
  function ConnectResults(trace: seq<Call>): seq<Option<Error>> {
    if |trace| == 0 then []
    else
      var last := trace[|trace| - 1];
      ConnectResults(trace[..|trace| - 1]) + (if last.ConnectReturned? then [last.dialErr] else [])
  }

  /** The error a receive loop over `stream` returns: that of the first failed read. */
  function SessionError(stream: seq<ReadOutcome<Message>>): Error
    requires FirstFailure(stream) < |stream|
  {
    stream[FirstFailure(stream)].err
  }

  /** What Connect returns for a dial outcome: nothing, or the wrapped dial error. */
  function DialResult(dial: DialOutcome): Option<Error> {
    if dial.DialOk? then None else Some(ConnectError(dial.cause))
  }

  /** Recording one more call: the results and the state follow it, and a call allowed there keeps the rules. */
  lemma AppendCall(trace: seq<Call>, call: Call)
    requires SupervisorTrace(trace)
    requires if StateAfter(trace) == Receiving then call.ReceiveLoopReturned? else call.ConnectReturned?
    ensures SupervisorTrace(trace + [call])
    ensures LoopErrors(trace + [call]) == LoopErrors(trace) + (if call.ReceiveLoopReturned? then [call.readErr] else [])
    ensures ConnectResults(trace + [call]) == ConnectResults(trace) + (if call.ConnectReturned? then [call.dialErr] else [])
    ensures StateAfter(trace + [call]) == if call == ConnectReturned(None) then Receiving else Reconnecting
  {
    assert (trace + [call])[..|trace|] == trace;
  }

  /** Whether every session's read stream ends in a read error. */
  predicate AllFail(sessions: seq<seq<ReadOutcome<Message>>>) {
    forall j :: 0 <= j < |sessions| ==> FirstFailure(sessions[j]) < |sessions[j]|
  }

  /** The errors successive receive loops over `sessions` return, one per session. */
  function SessionErrors(sessions: seq<seq<ReadOutcome<Message>>>): (r: seq<Error>)
    requires AllFail(sessions)
    ensures |r| == |sessions|
    ensures forall j :: 0 <= j < |sessions| ==> r[j] == SessionError(sessions[j])
  {
    if |sessions| == 0 then []
    else SessionErrors(sessions[..|sessions| - 1]) + [SessionError(sessions[|sessions| - 1])]
  }

  /** What successive Connect calls return for `dials`, one per dial. */
  function DialResults(dials: seq<DialOutcome>): (r: seq<Option<Error>>)
    ensures |r| == |dials|
    ensures forall j :: 0 <= j < |dials| ==> r[j] == DialResult(dials[j])
  {
    if |dials| == 0 then []
    else DialResults(dials[..|dials| - 1]) + [DialResult(dials[|dials| - 1])]
  }

  lemma SessionErrorsStep(sessions: seq<seq<ReadOutcome<Message>>>, r: nat)
    requires r < |sessions| && AllFail(sessions)
    ensures AllFail(sessions[..r]) && AllFail(sessions[..r + 1])
    ensures SessionErrors(sessions[..r + 1]) == SessionErrors(sessions[..r]) + [SessionError(sessions[r])]
  {
    assert sessions[..r + 1][..r] == sessions[..r];
  }

  lemma DialResultsStep(dials: seq<DialOutcome>, d: nat)
    requires d < |dials|
    ensures DialResults(dials[..d + 1]) == DialResults(dials[..d]) + [DialResult(dials[d])]
  {
    assert dials[..d + 1][..d] == dials[..d];
  }

  /**
   * The call history so far matches the inputs: it obeys the supervisor's rules, the i-th
   * ReceiveLoop returned the error of the i-th session, and the i-th Connect returned the
   * result of the i-th dial.
   */
  predicate Tracks(trace: seq<Call>, sessions: seq<seq<ReadOutcome<Message>>>, dials: seq<DialOutcome>)
    requires AllFail(sessions)
  {
    SupervisorTrace(trace) &&
    |LoopErrors(trace)| <= |sessions| && |ConnectResults(trace)| <= |dials| &&
    LoopErrors(trace) == SessionErrors(sessions[..|LoopErrors(trace)|]) &&
    ConnectResults(trace) == DialResults(dials[..|ConnectResults(trace)|])
  }

  /** In the receiving state, running the next session's receive loop keeps the history matched. */
  lemma TracksReceive(trace: seq<Call>, sessions: seq<seq<ReadOutcome<Message>>>, dials: seq<DialOutcome>)
    requires AllFail(sessions) && Tracks(trace, sessions, dials)
    requires StateAfter(trace) == Receiving && |LoopErrors(trace)| < |sessions|
    ensures var t := trace + [ReceiveLoopReturned(SessionError(sessions[|LoopErrors(trace)|]))];
      Tracks(t, sessions, dials) && StateAfter(t) == Reconnecting &&
      |LoopErrors(t)| == |LoopErrors(trace)| + 1 && ConnectResults(t) == ConnectResults(trace)
  {
    var r := |LoopErrors(trace)|;
    AppendCall(trace, ReceiveLoopReturned(SessionError(sessions[r])));
    SessionErrorsStep(sessions, r);
  }

  /** In the reconnecting state, the next dial's Connect keeps the history matched. */
  lemma TracksConnect(trace: seq<Call>, sessions: seq<seq<ReadOutcome<Message>>>, dials: seq<DialOutcome>)
    requires AllFail(sessions) && Tracks(trace, sessions, dials)
    requires StateAfter(trace) == Reconnecting && |ConnectResults(trace)| < |dials|
    ensures var res := DialResult(dials[|ConnectResults(trace)|]);
      var t := trace + [ConnectReturned(res)];
      Tracks(t, sessions, dials) && StateAfter(t) == (if res.None? then Receiving else Reconnecting) &&
      LoopErrors(t) == LoopErrors(trace) && |ConnectResults(t)| == |ConnectResults(trace)| + 1
  {
    var d := |ConnectResults(trace)|;
    AppendCall(trace, ConnectReturned(DialResult(dials[d])));
    DialResultsStep(dials, d);
  }

  /** Everything the receive loop buffers over the sessions, one after the other. */
  function ReceivedAll(sessions: seq<seq<ReadOutcome<Message>>>): seq<Message> {
    if |sessions| == 0 then []
    else ReceivedAll(sessions[..|sessions| - 1]) + Received(sessions[|sessions| - 1])
  }

  /** One more session's receive loop extends what the buffer gained by that session's messages. */
  lemma BufferStep(prev: seq<Message>, sessions: seq<seq<ReadOutcome<Message>>>, r: nat)
    requires r < |sessions|
    ensures (prev + ReceivedAll(sessions[..r])) + Received(sessions[r]) == prev + ReceivedAll(sessions[..r + 1])
  {
    assert sessions[..r + 1][..r] == sessions[..r];
    var got := Received(sessions[r]);
    assert (prev + ReceivedAll(sessions[..r])) + got == prev + (ReceivedAll(sessions[..r]) + got);
  }

  class Server {
    const sarc: Client

    /** New keeps the client; the supervisor loop is Start. */
    constructor (sarc: Client)
      ensures this.sarc == sarc
    {
      this.sarc := sarc;
    }

    /**
     * ServeHTTP answers one request; its only effect on the client is one Pop (for
     * GET /receive/pop) or one Flush (for GET /receive/flush).
     */
    method ServeHTTP(req: Request) returns (resp: Response)
      modifies sarc`messages
      ensures (resp, sarc.messages) == Handle(req, old(sarc.messages))
    {
      if req.verb != MethodGet {
        return Response(403, None, Text(ForbiddenText));
      }
      if req.path == "/healthz" {
        return Response(204, None, NoBody);
      }
      if req.path == "/receive/pop" {
        var msg := sarc.Pop();
        if msg.None? {
          return Response(204, None, NoBody);
        }
        return Response(200, Some(JsonType), OneMessage(msg.value));
      }
      if req.path == "/receive/flush" {
        var msgs := sarc.Flush();
        return Response(200, Some(JsonType), MessageList(msgs));
      }
      resp := Response(404, Some(PlainType), Text(NotFoundText(req.path)));
    }

    /**
     * The supervisor: run ReceiveLoop; when it returns, Connect, retrying every failed
     * Connect, and run ReceiveLoop again after a successful one. The Go loop never ends;
     * here it is driven by the read streams of the successive sessions and the outcomes
     * of the successive dials, and stops only when the next call has no input left.
     * Messages from all sessions accumulate in the buffer in arrival order.
     */
    method Start(sessions: seq<seq<ReadOutcome<Message>>>, dials: seq<DialOutcome>) returns (trace: seq<Call>)
      requires sarc.conn != null
      requires AllFail(sessions)
      modifies sarc, sarc.conn
      ensures SupervisorTrace(trace)
      ensures |LoopErrors(trace)| <= |sessions| && |ConnectResults(trace)| <= |dials|
      ensures LoopErrors(trace) == SessionErrors(sessions[..|LoopErrors(trace)|])
      ensures ConnectResults(trace) == DialResults(dials[..|ConnectResults(trace)|])
      ensures StateAfter(trace) == Receiving ==> |LoopErrors(trace)| == |sessions| && sarc.conn != null
      ensures StateAfter(trace) == Reconnecting ==> |ConnectResults(trace)| == |dials|
      ensures sarc.messages == old(sarc.messages) + ReceivedAll(sessions[..|LoopErrors(trace)|])
    {
      trace := [];
      var state := Receiving;
      var r, d := 0, 0;
      while (state == Receiving && r < |sessions|) || (state == Reconnecting && d < |dials|)
        invariant Tracks(trace, sessions, dials)
        invariant state == StateAfter(trace)
        invariant r == |LoopErrors(trace)| && d == |ConnectResults(trace)|
        invariant state == Receiving ==> sarc.conn != null
        invariant sarc.conn == null || sarc.conn == old(sarc.conn) || fresh(sarc.conn)
        invariant sarc.messages == old(sarc.messages) + ReceivedAll(sessions[..r])
        decreases |sessions| - r + |dials| - d, if state == Receiving then 1 else 0
      {
        var call;
        if state == Receiving {
          BufferStep(old(sarc.messages), sessions, r);
          var err := sarc.ReceiveLoop(sessions[r]);
          TracksReceive(trace, sessions, dials);
          r := r + 1;
          call := ReceiveLoopReturned(err);
          state := Reconnecting;
        } else {
          ghost var before := sarc.messages;
          var err := sarc.Connect(dials[d]);
          assert sarc.messages == before;
          TracksConnect(trace, sessions, dials);
          d := d + 1;
          call := ConnectReturned(err);
          state := if err.None? then Receiving else Reconnecting;
        }
        trace := trace + [call];
      }
    }
  }
}

/** pkg/tdxsetup/keys.go: receiving the SSH public key over HTTP. The HTTP
    handler is a pure classification of one request; WaitForKey is the choice
    made by its `select` among the events that reach it, in the order they
    arrive. */
module Keys {
  import opened Base

  /** The key strategy: an HTTP listener at the given address. */
  datatype KeySource = WebServer(url: string)

  /** One character of the class [A-Za-z0-9+/]. */
  predicate IsKeyChar(c: char)
  {
    ('A' <= c <= 'Z') || ('a' <= c <= 'z') || ('0' <= c <= '9') || c == '+' || c == '/'
  }

  /** The body check ^[A-Za-z0-9+/]{68}$: exactly 68 characters, all from the
      class. Go's `$` without the multi-line flag matches only at the very end,
      so a trailing newline is rejected too. */
  predicate ValidKey(s: string)
    ensures ValidKey(s) ==> |s| == 68 && s[67] != '\n'
  {
    |s| == 68 && forall i | 0 <= i < |s| :: IsKeyChar(s[i])
  }

  /** Base64 padding, white space and line breaks never pass the check. */
  lemma ValidKeyHasNoSeparators(s: string)
    requires ValidKey(s)
    ensures '=' !in s && '\n' !in s && ' ' !in s && '\r' !in s
  {
  }

  const StatusOK := 200
  const StatusBadRequest := 400
  const StatusMethodNotAllowed := 405

  /** An HTTP request as the handler sees it: its method (`verb`) and its body, or None
      when reading the body failed. */
  datatype Request = Request(verb: string, body: Option<string>)

  /** The handler's answer: the status written and the key handed to the
      waiting `select`, if any. */
  datatype Response = Response(status: int, delivered: Option<string>)

  /** The HTTP handler: 405 for anything but POST, 400 for an unreadable body
      or a body that fails the check, and otherwise the key is handed off
      before 200 is written. */
  function Handle(req: Request): (resp: Response)
    ensures resp.status in {StatusOK, StatusBadRequest, StatusMethodNotAllowed}
    ensures resp.status == StatusOK <==> resp.delivered.Some?
    ensures resp.delivered.Some? <==> req.verb == "POST" && req.body.Some? && ValidKey(req.body.value)
    ensures resp.delivered.Some? ==> resp.delivered == req.body
    ensures resp.status == StatusMethodNotAllowed <==> req.verb != "POST"
  {
    if req.verb != "POST" then Response(StatusMethodNotAllowed, None)
    else if req.body.None? then Response(StatusBadRequest, None)
    else if !ValidKey(req.body.value) then Response(StatusBadRequest, None)
    else Response(StatusOK, req.body)
  }

  /** What can reach WaitForKey's `select`: an HTTP request (through the
      handler), the cancellation of the context, or an error from the
      listener goroutine. */
  datatype Event = Arrives(req: Request) | Cancelled | ListenFailed

  /** How a wait ends: it never returns (no decisive event arrives), or it
      returns a result, having called server.Shutdown or not. */
  datatype KeyWait = Blocked | Returned(result: Result<string>, shutDown: bool)

  /** An event the `select` acts on; a request the handler answers with 400
      or 405 delivers nothing and the wait goes on. */
  predicate Decisive(e: Event)
  {
    !e.Arrives? || Handle(e.req).delivered.Some?
  }

  /** The `select` acting on one decisive event. Cancellation and a received
      key both shut the server down, and a failing shutdown replaces the
      result; a listener error returns at once, without a shutdown. */
  function Decide(e: Event, shutdownFails: bool): (w: KeyWait)
    requires Decisive(e)
    ensures w.Returned?
    ensures w.shutDown <==> !e.ListenFailed?
    ensures w.result.Ok? <==> e.Arrives? && !shutdownFails
    ensures e.Cancelled? ==> w.result == Err(if shutdownFails then ShutdownFailed else ContextCancelled)
    ensures e.ListenFailed? ==> w.result == Err(ServerFailed)
    ensures e.Arrives? ==> w.result == if shutdownFails then Err(ShutdownFailed) else Ok(e.req.body.value)
  {
    match e
    case Cancelled =>
      if shutdownFails then Returned(Err(ShutdownFailed), true) else Returned(Err(ContextCancelled), true)
    case ListenFailed =>
      Returned(Err(ServerFailed), false)
    case Arrives(req) =>
      if shutdownFails then Returned(Err(ShutdownFailed), true)
      else Returned(Ok(Handle(req).delivered.value), true)
  }

  /** WebServerKeyInitializer.WaitForKey over the events in arrival order;
      `shutdownFails` is the outcome server.Shutdown would have. */
  function WaitForKey(events: seq<Event>, shutdownFails: bool): (w: KeyWait)
    ensures w.Returned? && w.result.Ok? ==> ValidKey(w.result.value) && w.shutDown
    ensures w.Returned? && w.result.Err? ==>
              w.result.error in {ContextCancelled, ServerFailed, ShutdownFailed}
  {
    if events == [] then Blocked
    else if Decisive(events[0]) then Decide(events[0], shutdownFails)
    else WaitForKey(events[1..], shutdownFails)
  }

  /** The first decisive event decides the wait: every event before it is a
      rejected request, and nothing after it matters. */
  lemma {:induction false} FirstDecisiveEventDecides(events: seq<Event>, i: nat, shutdownFails: bool)
    requires i < |events| && Decisive(events[i])
    requires forall j | 0 <= j < i :: !Decisive(events[j])
    ensures WaitForKey(events, shutdownFails) == Decide(events[i], shutdownFails)
  {
    if i > 0 {
      FirstDecisiveEventDecides(events[1..], i - 1, shutdownFails);
    }
  }

  /** With no decisive event the wait never returns. */
  lemma {:induction false} NoDecisiveEventBlocks(events: seq<Event>, shutdownFails: bool)
    requires forall j | 0 <= j < |events| :: !Decisive(events[j])
    ensures WaitForKey(events, shutdownFails) == Blocked
  {
    if events != [] {
      NoDecisiveEventBlocks(events[1..], shutdownFails);
    }
  }
}

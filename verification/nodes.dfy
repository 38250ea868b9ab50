/** `SwiftyNode` of SwiftyLink.swift as an immutable state record: static
    configuration, an optional WebSocket task handle, and the log of messages
    handed to a task. Each operation is a transition function. */
module Nodes {
  import opened Wrappers
  import opened Json

  /** The five strings a node is constructed with; never reassigned. */
  datatype NodeConfig = NodeConfig(host: string, password: string, port: string, id: string, shards: string)

  /** The task states the model distinguishes. */
  datatype TaskState = Running | Canceling

  datatype Header = Header(name: string, value: string)

  /** The upgrade request a WebSocket task is opened with. */
  datatype WsRequest = WsRequest(url: string, headers: seq<Header>)

  /** A WebSocket task. `serial` tells tasks apart: each `Connect` opens a new
      one. */
  datatype Socket = Socket(serial: nat, request: WsRequest, state: TaskState)

  /** `URLSessionWebSocketTask.Message`. A text frame is modelled by the JSON
      object it encodes. */
  datatype Message = Text(body: Object) | Binary(bytes: seq<bv8>)

  /** A message handed to the task with the given serial. */
  datatype Submission = Submission(socket: nat, message: Message)

  /** The node: configuration, current task (`ws`), how many tasks have been
      opened so far, and every message submitted to a task, oldest first. */
  datatype Node = Node(config: NodeConfig, ws: Option<Socket>, taskCount: nat, submitted: seq<Submission>)

  /** Every task serial in use was issued by an earlier `Connect`. */
  predicate Valid(n: Node) {
    && (n.ws.Some? ==> n.ws.value.serial < n.taskCount)
    && forall i :: 0 <= i < |n.submitted| ==> n.submitted[i].socket < n.taskCount
  }

  /** `init`: the configuration is stored as given and there is no task. */
  function Init(config: NodeConfig): (n: Node)
    ensures Valid(n)
    ensures n.ws.None? && n.submitted == []
    ensures n.config == config
  {
    Node(config, None, 0, [])
  }

  /** The value of the first header with this name, if any. */
  function HeaderValue(headers: seq<Header>, name: string): Option<string> {
    if |headers| == 0 then None
    else if headers[0].name == name then Some(headers[0].value)
    else HeaderValue(headers[1..], name)
  }

  /** The fixed client name announced to the node. */
  const CLIENT_NAME: string := "SwiftLink"

  /** The request `connect` builds: the node's root WebSocket URL with exactly
      four headers, carrying the credential, shard count, bot id and the
      client name. */
  function ConnectRequest(c: NodeConfig): (req: WsRequest)
    ensures req.url == "ws://" + c.host + ":" + c.port + "/"
    ensures |req.headers| == 4
    ensures forall i, j :: 0 <= i < j < |req.headers| ==> req.headers[i].name != req.headers[j].name
    ensures HeaderValue(req.headers, "Authorization") == Some(c.password)
    ensures HeaderValue(req.headers, "Num-Shards") == Some(c.shards)
    ensures HeaderValue(req.headers, "User-Id") == Some(c.id)
    ensures HeaderValue(req.headers, "Client-Name") == Some(CLIENT_NAME)
  {
    var headers := [
      Header("Authorization", c.password),
      Header("Num-Shards", c.shards),
      Header("User-Id", c.id),
      Header("Client-Name", CLIENT_NAME)];
    assert HeaderValue(headers[1..][1..], "User-Id") == Some(c.id);
    assert HeaderValue(headers[1..][1..][1..], "Client-Name") == Some(CLIENT_NAME);
    assert HeaderValue(headers[1..][1..], "Client-Name") == Some(CLIENT_NAME);
    WsRequest("ws://" + c.host + ":" + c.port + "/", headers)
  }

  /** `connect`: whatever the prior state, a new running task replaces the
      handle; the previous task, if any, is not cancelled. */
  function Connect(n: Node): (n': Node)
    requires Valid(n)
    ensures Valid(n')
    ensures n'.ws.Some? && n'.ws.value.state == Running
    ensures n'.ws.value.request == ConnectRequest(n.config)
    ensures n.ws.Some? ==> n'.ws.value.serial != n.ws.value.serial
    ensures forall i :: 0 <= i < |n.submitted| ==> n.submitted[i].socket != n'.ws.value.serial
    ensures n'.config == n.config && n'.submitted == n.submitted
  {
    Node(n.config, Some(Socket(n.taskCount, ConnectRequest(n.config), Running)), n.taskCount + 1, n.submitted)
  }

  /** `destroy`: returns early on a task already canceling; otherwise cancels
      the task if there is one. Nothing else changes, and it never fails. */
  function Destroy(n: Node): (n': Node)
    ensures n.ws.None? ==> n' == n
    ensures n.ws.Some? ==> n'.ws == Some(n.ws.value.(state := Canceling))
    ensures n'.config == n.config && n'.taskCount == n.taskCount && n'.submitted == n.submitted
  {
    match n.ws
    case None => n
    case Some(socket) =>
      if socket.state == Canceling then n
      else n.(ws := Some(socket.(state := Canceling)))
  }

  /** Destroying twice leaves the state destroying once leaves. */
  lemma DestroyIdempotent(n: Node)
    ensures Destroy(Destroy(n)) == Destroy(n)
    ensures Valid(n) ==> Valid(Destroy(n))
  {
  }

  /** `sendUpdate`: the message goes, unchanged, to the current task; with no
      task nothing happens. The task's state is not consulted. */
  function SendUpdate(n: Node, msg: Message): (n': Node)
    ensures n'.config == n.config && n'.ws == n.ws && n'.taskCount == n.taskCount
    ensures n.ws.None? ==> n'.submitted == n.submitted
    ensures n.ws.Some? ==> n'.submitted == n.submitted + [Submission(n.ws.value.serial, msg)]
    ensures Valid(n) ==> Valid(n')
  {
    match n.ws
    case None => n
    case Some(socket) => n.(submitted := n.submitted + [Submission(socket.serial, msg)])
  }

  // ---------------------------------------------------------------------
  // The receive loop
  // ---------------------------------------------------------------------

  /** What one `receive` call completes with. */
  datatype ReceiveResult = Received(message: Message) | ReceiveFailed

  /** The results the loop handled, how many `receive` calls it issued, and
      whether a call is still outstanding at the end. */
  datatype ReceiveRun = ReceiveRun(handled: seq<ReceiveResult>, issued: nat, armed: bool)

  /** The loop handles results in order up to and including the first failure
      and stops there; it issues one call to begin with and one more after each
      success. */
  predicate StopsAtFirstFailure(results: seq<ReceiveResult>, run: ReceiveRun) {
    && run.handled <= results
    && (forall i :: 0 <= i < |run.handled| - 1 ==> run.handled[i].Received?)
    && (run.armed <==> forall i :: 0 <= i < |results| ==> results[i].Received?)
    && (run.armed ==> run.handled == results)
    && (!run.armed ==> |run.handled| > 0 && run.handled[|run.handled| - 1].ReceiveFailed?)
    && run.issued == |run.handled| + (if run.armed then 1 else 0)
  }

  /** `recieveMessage` after its first call, fed the completions of the calls
      it issues: it re-arms itself only after a success. */
  function ReceiveFrom(results: seq<ReceiveResult>): (run: ReceiveRun)
    ensures StopsAtFirstFailure(results, run)
  {
    if |results| == 0 then ReceiveRun([], 1, true)
    else if results[0].ReceiveFailed? then ReceiveRun([results[0]], 1, false)
    else
      var rest := ReceiveFrom(results[1..]);
      ReceiveRun([results[0]] + rest.handled, rest.issued + 1, rest.armed)
  }

  /** `StopsAtFirstFailure` pins the run down: nothing else meets it. */
  lemma ReceiveRunUnique(results: seq<ReceiveResult>, run: ReceiveRun)
    requires StopsAtFirstFailure(results, run)
    ensures run == ReceiveFrom(results)
  {
  }

  /** The whole receive loop on a node: `recieveMessage` force-unwraps the
      task, so without one it traps (`None`). */
  function Receive(n: Node, results: seq<ReceiveResult>): (r: Option<ReceiveRun>)
    ensures r.Some? <==> n.ws.Some?
    ensures r.Some? ==> StopsAtFirstFailure(results, r.value)
  {
    if n.ws.None? then None else Some(ReceiveFrom(results))
  }
}

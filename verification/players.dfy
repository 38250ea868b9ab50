/** `Player` of SwiftyPlayer.swift: one guild's command surface. Commands go
    to the node's current task through `SendUpdate`; the voice request goes
    to the gateway client instead; `search` builds a loadtracks request and
    maps the transport's completion to the calls it makes of its handler. */
module Players {
  import opened Wrappers
  import opened Json
  import opened Structures
  import opened Nodes

  /** A player. Its guild id is set at construction and never reassigned;
      the node it talks to is passed to each operation. */
  datatype Player = Player(guildID: string)

  /** `n'` is `n` after exactly one text message carrying `expected` went to
      the current task, or `n` unchanged when there is no task. */
  predicate EmitsAtMostOnce(n: Node, n': Node, expected: Command) {
    && n'.config == n.config && n'.ws == n.ws && n'.taskCount == n.taskCount
    && n.submitted <= n'.submitted
    && |n'.submitted| == |n.submitted| + (if n.ws.Some? then 1 else 0)
    && (n.ws.Some? ==>
          var s := n'.submitted[|n.submitted|];
          && s.socket == n.ws.value.serial
          && s.message.Text?
          && DecodeCommand(s.message.body) == Some(expected))
  }

  /** Encodes a command and hands it to the node. */
  function SendCommand(n: Node, c: Command): (n': Node)
    ensures EmitsAtMostOnce(n, n', c)
  {
    CommandRoundTrip(c);
    SendUpdate(n, Text(EncodeCommand(c)))
  }

  /** `play`: one `trackPlay` with op "play", the track, and this guild. */
  function Play(p: Player, n: Node, track: string): (n': Node)
    ensures EmitsAtMostOnce(n, n', TrackPlay("play", track, p.guildID))
  {
    SendCommand(n, TrackPlay("play", track, p.guildID))
  }

  /** `stop`: one `stopPlayer` with op "stop" and this guild. */
  function Stop(p: Player, n: Node): (n': Node)
    ensures EmitsAtMostOnce(n, n', StopPlayer("stop", p.guildID))
  {
    SendCommand(n, StopPlayer("stop", p.guildID))
  }

  /** `pause`: one `musicControls` with op "pause", this guild and the flag. */
  function Pause(p: Player, n: Node, status: bool): (n': Node)
    ensures EmitsAtMostOnce(n, n', MusicControls("pause", p.guildID, status))
  {
    SendCommand(n, MusicControls("pause", p.guildID, status))
  }

  /** The player operations that talk to the node. */
  datatype Action = PlayTrack(track: string) | StopPlayback | SetPaused(status: bool)

  /** The command an action sends. */
  function CommandFor(p: Player, a: Action): Command {
    match a
    case PlayTrack(track) => TrackPlay("play", track, p.guildID)
    case StopPlayback => StopPlayer("stop", p.guildID)
    case SetPaused(status) => MusicControls("pause", p.guildID, status)
  }

  function Perform(p: Player, n: Node, a: Action): (n': Node)
    ensures EmitsAtMostOnce(n, n', CommandFor(p, a))
  {
    match a
    case PlayTrack(track) => Play(p, n, track)
    case StopPlayback => Stop(p, n)
    case SetPaused(status) => Pause(p, n, status)
  }

  function PerformAll(p: Player, n: Node, actions: seq<Action>): Node
    decreases |actions|
  {
    if |actions| == 0 then n else PerformAll(p, Perform(p, n, actions[0]), actions[1..])
  }

  /** Over any sequence of play/stop/pause calls on a connected node, the
      player sends one message per call, in call order, each the command of
      that call and each carrying the player's own guild id; on a node
      without a task it sends nothing. */
  lemma {:induction false} EveryCommandCarriesItsGuild(p: Player, n: Node, actions: seq<Action>)
    ensures
      var n' := PerformAll(p, n, actions);
      && n'.config == n.config && n'.ws == n.ws
      && n.submitted <= n'.submitted
      && |n'.submitted| == |n.submitted| + (if n.ws.Some? then |actions| else 0)
      && forall i :: |n.submitted| <= i < |n'.submitted| ==>
           && n'.submitted[i].message.Text?
           && DecodeCommand(n'.submitted[i].message.body) == Some(CommandFor(p, actions[i - |n.submitted|]))
           && DecodeCommand(n'.submitted[i].message.body).value.guildId == p.guildID
    decreases |actions|
  {
    if |actions| > 0 {
      var n1 := Perform(p, n, actions[0]);
      EveryCommandCarriesItsGuild(p, n1, actions[1..]);
      var n' := PerformAll(p, n, actions);
      assert n' == PerformAll(p, n1, actions[1..]);
      forall i | |n.submitted| <= i < |n'.submitted|
        ensures n'.submitted[i].message.Text?
        ensures DecodeCommand(n'.submitted[i].message.body) == Some(CommandFor(p, actions[i - |n.submitted|]))
      {
        if i == |n.submitted| {
          assert n1.submitted <= n'.submitted;
          assert n'.submitted[i] == n1.submitted[i];
        } else {
          assert actions[1..][i - |n1.submitted|] == actions[i - |n.submitted|];
        }
      }
    }
  }

  // ---------------------------------------------------------------------
  // Voice
  // ---------------------------------------------------------------------

  /** The gateway opcode the payload is sent with. */
  datatype GatewayCode = VoiceStatusUpdate

  /** A gateway payload: opcode, data object, sequence number and name. */
  datatype GatewayPayload = GatewayPayload(code: GatewayCode, data: Object, sequenceNumber: Option<int>, name: Option<string>)

  /** A payload handed to the gateway client for one shard. */
  datatype ShardDispatch = ShardDispatch(payload: GatewayPayload, shard: nat)

  /** What the gateway is asked to do. */
  datatype VoiceRequest = VoiceRequest(guildId: string, channelId: string, selfMute: bool, selfDeaf: bool)

  /** How the gateway side reads a voice status update. */
  function ReadVoiceRequest(g: GatewayPayload): Option<VoiceRequest> {
    var d := g.data;
    if && g.code == VoiceStatusUpdate
       && d.Keys == {"guild_id", "channel_id", "self_mute", "self_deaf"}
       && HasString(d, "guild_id") && HasString(d, "channel_id")
       && d["self_mute"].JBool? && d["self_deaf"].JBool?
    then Some(VoiceRequest(d["guild_id"].str, d["channel_id"].str, d["self_mute"].flag, d["self_deaf"].flag))
    else None
  }

  /** `connect`: a voice status update for this guild and the given channel,
      muted and deafened as asked (not swapped), on shard 0. The node is not
      involved. */
  function ConnectVoice(p: Player, channel: string, deaf: bool, mute: bool): (d: ShardDispatch)
    ensures d.shard == 0
    ensures d.payload.sequenceNumber.None? && d.payload.name.None?
    ensures ReadVoiceRequest(d.payload) == Some(VoiceRequest(p.guildID, channel, mute, deaf))
  {
    var data := map[
      "guild_id" := JString(p.guildID),
      "channel_id" := JString(channel),
      "self_mute" := JBool(mute),
      "self_deaf" := JBool(deaf)];
    assert data.Keys == {"guild_id", "channel_id", "self_mute", "self_deaf"};
    ShardDispatch(GatewayPayload(VoiceStatusUpdate, data, None, None), 0)
  }

  // ---------------------------------------------------------------------
  // Search
  // ---------------------------------------------------------------------

  /** An HTTP GET: URL and header fields. */
  datatype SearchRequest = SearchRequest(url: string, headers: map<string, string>)

  /** Everything of a loadtracks URL before the query. */
  function LoadTracksPrefix(c: NodeConfig): string {
    "http://" + c.host + ":" + c.port + "/loadtracks?identifier="
  }

  /** The request `search` builds: the node's loadtracks endpoint with the
      query appended verbatim, and the password as the only header. */
  function SearchRequestFor(c: NodeConfig, query: string): (req: SearchRequest)
    ensures LoadTracksPrefix(c) <= req.url
    ensures req.url[|LoadTracksPrefix(c)|..] == query
    ensures req.headers.Keys == {"Authorization"} && req.headers["Authorization"] == c.password
  {
    var url := LoadTracksPrefix(c) + query;
    assert url[|LoadTracksPrefix(c)|..] == query;
    SearchRequest(url, map["Authorization" := c.password])
  }

  /** The response body: parsed JSON, or bytes that are not JSON. */
  datatype Body = Parsed(json: Value) | Unparseable

  /** What the data task completes with: an error, data, and whether a
      response object came with it. */
  datatype Completion = Completion(error: Option<string>, data: Option<Body>, hasResponse: bool)

  /** The arguments of one call of the song handler. */
  datatype HandlerArgs = HandlerArgs(song: Option<LavalinkRest>, error: Option<string>)

  /** The traps on the search path: the `try!` decode, and the unguarded
      `tracks[0]` read on an empty track list. */
  datatype Trap = UndecodableBody | NoFirstTrack

  /** The handler calls made, and the trap that ended the completion if any. */
  datatype SearchRun = SearchRun(calls: seq<HandlerArgs>, trap: Option<Trap>)

  const NO_MATCHES: string := "NO_MATCHES"

  /** The completion gets past both guards and reaches the decode. */
  predicate ReachesDecode(reply: Completion) {
    reply.error.None? && reply.data.Some? && reply.hasResponse
  }

  /** The decode of a body. */
  function DecodeBody(b: Body): Result<LavalinkRest, DecodeError> {
    match b
    case Parsed(v) => DecodeRest(v)
    case Unparseable => Failure(DataCorrupted(""))
  }

  /** The completion handler of `search`. */
  function SearchCompletion(reply: Completion): (run: SearchRun)
    ensures |run.calls| <= 1
    ensures run.trap.Some? ==> run.calls == []
    ensures !ReachesDecode(reply) ==> run == SearchRun([], None)
    ensures
      (&& ReachesDecode(reply)
       && DecodeBody(reply.data.value).Success?
       && DecodeBody(reply.data.value).value.loadType == NO_MATCHES)
      ==> run == SearchRun([], None)
    ensures |run.calls| == 1 <==>
      && ReachesDecode(reply)
      && DecodeBody(reply.data.value).Success?
      && DecodeBody(reply.data.value).value.loadType != NO_MATCHES
      && |DecodeBody(reply.data.value).value.tracks| > 0
    ensures |run.calls| == 1 ==>
      run.calls[0] == HandlerArgs(Some(DecodeBody(reply.data.value).value), None)
    ensures run.trap == Some(UndecodableBody) <==>
      ReachesDecode(reply) && DecodeBody(reply.data.value).Failure?
    ensures run.trap == Some(NoFirstTrack) <==>
      && ReachesDecode(reply)
      && DecodeBody(reply.data.value).Success?
      && DecodeBody(reply.data.value).value.loadType != NO_MATCHES
      && |DecodeBody(reply.data.value).value.tracks| == 0
  {
    if reply.error.Some? then SearchRun([], None)
    else if reply.data.None? || !reply.hasResponse then SearchRun([], None)
    else match DecodeBody(reply.data.value)
      case Failure(_) => SearchRun([], Some(UndecodableBody))
      case Success(rest) =>
        if rest.loadType == NO_MATCHES then SearchRun([], None)
        else if |rest.tracks| == 0 then SearchRun([], Some(NoFirstTrack))
        else SearchRun([HandlerArgs(Some(rest), None)], None)
  }

  /** A node answer that carries a result with a first track and is not
      "NO_MATCHES" gets the handler called exactly once with that very result
      and no error, whatever extra fields the body has; a "NO_MATCHES" answer
      never calls it. */
  lemma SearchDeliversResult(rest: LavalinkRest, body: Value, hasResponse: bool)
    requires CarriesRest(body, rest) && RestFits(rest)
    ensures rest.loadType != NO_MATCHES && |rest.tracks| > 0 && hasResponse ==>
      SearchCompletion(Completion(None, Some(Parsed(body)), hasResponse)).calls
        == [HandlerArgs(Some(rest), None)]
    ensures rest.loadType == NO_MATCHES ==>
      SearchCompletion(Completion(None, Some(Parsed(body)), hasResponse)) == SearchRun([], None)
  {
    DecodeRestExact(body, rest);
  }
}

# SwiftyLink control-plane logic in Dafny

SwiftyLink is a Swift client for a Lavalink audio node. This project models
its decision logic as pure functions over immutable values, with the
transport left out. Four modules cover it:

- `Json` (json.dfy): parsed JSON values. It also holds the field decoders that
  Swift's synthesized `Decodable` conformances run. A missing key is
  `KeyNotFound`. A `null` for a required field is `ValueNotFound`. A value of
  the wrong kind is `TypeMismatch`. An integer outside the 64-bit `Int` range
  is `DataCorrupted`. A `String?` field that is absent or `null` decodes to
  `nil`. These decoders model Foundation's behaviour, not code of the
  repository, so they have no rows in the table below.
- `Structures` (structures.dfy): the wire shapes and `handleEvent`. An
  inbound frame is first probe-decoded into `basicEvent` (`op`, optional
  `type`, optional `reason`). Four drop rules then run in order: `op` is
  "stats", `op` is "playerUpdate", `type` is "TrackStartEvent", `reason` is
  "Disconnected.". The first rule that matches drops the frame. A frame that
  passes all four gets the strict five-field `trackEndEvent` decode. The
  source uses `try!` for both decodes, so a failed decode traps; the model
  returns `Failure` instead. This module also has the outbound commands
  (`trackPlay`, `stopPlayer`, `musicControls`) and the `lavalinkREST` search
  response.
- `Nodes` (nodes.dfy): `SwiftyNode` as a state record. It holds the config,
  an optional WebSocket task (`Running` or `Canceling`, with a serial number
  so that tasks can be told apart), and a log of the messages handed to a
  task. `Connect`, `Destroy` and `SendUpdate` are transition functions.
  `ReceiveFrom` models the self-re-arming `recieveMessage`.
- `Players` (players.dfy): `Player`. `play`, `stop` and `pause` each send one
  command stamped with the player's guild id. `connect` builds the voice
  status payload for the gateway. `search` builds the loadtracks request and
  maps the transport's completion to the song-handler calls it makes.

Some behaviours of the code worth noting, all modelled as written:

- `sendUpdate` with no task does nothing. It does not fail with
  "not connected".
- `recieveMessage` stops at the first failed receive. It re-arms only after a
  success and does not loop on a dead channel. It only logs what it
  receives: nothing in the code passes frames to `handleEvent`.
- A "NO_MATCHES" search result does not call the handler at all. No
  "no match" value is delivered.
- A result whose track list is empty traps at the unguarded `tracks[0]`
  read. The model shows this as the `NoFirstTrack` outcome.
- There is no player registry, so none is modelled.

## Model

| member | source | states |
|---|---|---|
| Structures.ProbeDecode | Sources/SwiftyLink/Structures/Structures.swift:158-162 | the probe decode succeeds exactly when `op` is a string and `type`/`reason` are each absent, null or a string; the result holds the frame's values; a missing or non-string `op` is the reported error |
| Structures.ProbeRoundTrip | Sources/SwiftyLink/Structures/Structures.swift:158-162 | every `basicEvent`, written out with absent optionals omitted, probe-decodes back to itself |
| Structures.ProbeReadsOnlyDiscriminators | Sources/SwiftyLink/Structures/Structures.swift:142 | two frames that agree on `op`, `type` and `reason` probe-decode identically, whatever else they carry |
| Structures.StrictDecode | Sources/SwiftyLink/Structures/Structures.swift:106-112 | the strict decode succeeds exactly when all five `trackEndEvent` fields are strings; each decoded field equals the frame's; a failure names one of the five fields that is missing or not a string |
| Structures.StrictRoundTrip | Sources/SwiftyLink/Structures/Structures.swift:106-112 | every track-end event written as its five fields decodes back to itself |
| Structures.Classify | Sources/SwiftyLink/Structures/Structures.swift:147-150 | first match wins: no rule is reported exactly when no rule matches; a reported rule matches, and no rule checked before it matches |
| Structures.HandleEvent | Sources/SwiftyLink/Structures/Structures.swift:140-156 | a frame is dropped exactly when it probe-decodes and one drop rule holds of its fields; an event is delivered exactly when it probe-decodes, no rule holds, and all five fields are strings; the delivered event re-encodes to the frame's five fields; every other frame is a decode failure (the `try!` trap) |
| Structures.StatsAlwaysDropped | Sources/SwiftyLink/Structures/Structures.swift:147 | any frame with `op` "stats" is dropped, whatever string or absent `type` and `reason` it has and whatever else it carries |
| Structures.PlayerUpdateAlwaysDropped | Sources/SwiftyLink/Structures/Structures.swift:148 | any frame with `op` "playerUpdate" is dropped, whatever string or absent `type` and `reason` it has and whatever else it carries |
| Structures.TrackStartRule | Sources/SwiftyLink/Structures/Structures.swift:149 | any frame with a string `op`, `type` "TrackStartEvent" and a string or absent `reason` is dropped, whatever else it carries; a frame whose `type` is absent or null is never dropped by this rule |
| Structures.DisconnectedRule | Sources/SwiftyLink/Structures/Structures.swift:150 | any frame with a string `op`, a string or absent `type` and `reason` "Disconnected." is dropped, whatever else it carries; a frame whose `reason` is absent or null is never dropped by this rule |
| Structures.OutcomeDependsOnlyOnDiscriminators | Sources/SwiftyLink/Structures/Structures.swift:142-154 | frames that agree on `op`, `type` and `reason` are either both dropped or both not dropped, and they fail the probe alike; frames that also agree on `track` and `guildId` get exactly the same outcome, so nothing else in a frame matters |
| Structures.EncodeCommand | Sources/SwiftyLink/Structures/Structures.swift:47-72 | every encoded command carries its `op` and `guildId` as string fields |
| Structures.CommandRoundTrip | Sources/SwiftyLink/Structures/Structures.swift:47-72 | a reader that goes by field set decodes each encoded `trackPlay`, `stopPlayer` and `musicControls` back to the same command, so no two commands share a wire form |
| Structures.DecodeInfo | Sources/SwiftyLink/Structures/Structures.swift:27-44 | an `infoResponse` decodes exactly when the value is an object with the eight fields of the right kinds, integers fitting in a 64-bit `Int`; each decoded field equals the object's field |
| Structures.DecodeTrack | Sources/SwiftyLink/Structures/Structures.swift:19-24 | a `trackResponse` decodes exactly when the value is an object with a string `track` and a well-formed `info` object; the decoded track and info equal those fields |
| Structures.DecodeTracks | Sources/SwiftyLink/Structures/Structures.swift:15 | a track array decodes exactly when every element decodes; the result keeps the elements one for one and in order; a failure is the failure of some element |
| Structures.DecodeRest | Sources/SwiftyLink/Structures/Structures.swift:11-16 | a `lavalinkREST` decodes exactly when the value is an object with a string `loadType` and a `tracks` array of well-formed elements; `loadType` is that string and `tracks` is the element-wise decode of the array |
| Structures.DecodeInfoComplete | Sources/SwiftyLink/Structures/Structures.swift:27-44 | any object that carries an info value's eight fields, whatever else it holds, decodes to that value when its integers fit in `Int` |
| Structures.DecodeTrackComplete | Sources/SwiftyLink/Structures/Structures.swift:19-24 | any element that carries a track's `track` string and info, whatever else it holds, decodes to that track |
| Structures.DecodeTracksComplete | Sources/SwiftyLink/Structures/Structures.swift:15 | an array whose elements carry a list of tracks one for one decodes to exactly that list |
| Structures.DecodeRestExact | Sources/SwiftyLink/Structures/Structures.swift:10-44 | a body decodes to a response exactly when it carries that response's values and the response's integers fit in `Int`; extra fields such as `playlistInfo` make no difference |
| Structures.RestRoundTrip | Sources/SwiftyLink/Structures/Structures.swift:10-44 | a response whose integers fit in `Int` decodes back to itself from its plain JSON form; a response whose integers do not fit is never the result of any decode |
| Nodes.Init | Sources/SwiftyLink/SwiftyLink.swift:48-56 | a new node stores its configuration unchanged, has no task, has submitted nothing, and satisfies the node invariant |
| Nodes.ConnectRequest | Sources/SwiftyLink/SwiftyLink.swift:65-71 | the URL text handed to `URL(string:)` is `ws://host:port/`, and the request has exactly four headers, all with distinct names: `Authorization`=password, `Num-Shards`=shards, `User-Id`=id, `Client-Name`="SwiftLink" |
| Nodes.Connect | Sources/SwiftyLink/SwiftyLink.swift:63-80 | whatever the prior state, the handle becomes a running task opened with that request; the new task is different from the previous one and from every task that was sent a message; config and message log stay unchanged; the invariant is kept |
| Nodes.Destroy | Sources/SwiftyLink/SwiftyLink.swift:83-90 | with no task nothing changes; otherwise the task ends up canceling; config, task count and message log never change |
| Nodes.DestroyIdempotent | Sources/SwiftyLink/SwiftyLink.swift:84-89 | destroying twice leaves the same state as destroying once, and destroy keeps the node invariant |
| Nodes.SendUpdate | Sources/SwiftyLink/SwiftyLink.swift:94-98 | with a task, exactly the given message is appended to the log, addressed to the current task; with no task the log is unchanged; task and config are never changed |
| Nodes.ReceiveFrom | Sources/SwiftyLink/SwiftyLink.swift:100-117 | results are handled in order up to and including the first failure; the loop stays armed exactly when no result failed; one receive call is issued at the start and one more after each success |
| Nodes.ReceiveRunUnique | Sources/SwiftyLink/SwiftyLink.swift:100-117 | the stop-at-first-failure description has only one possible run for a given sequence of results, and that run is the recursive loop's |
| Nodes.Receive | Sources/SwiftyLink/SwiftyLink.swift:101 | the loop runs exactly when the node has a task (the force-unwrap traps otherwise), and then it stops at the first failure |
| Players.Play | Sources/SwiftyLink/SwiftyPlayer.swift:87-102 | on a node with a task, running or canceling, exactly one text message is added, sent to the current task, and it reads back as `trackPlay("play", track, guildID)`; without a task nothing is sent; the node is otherwise unchanged |
| Players.Stop | Sources/SwiftyLink/SwiftyPlayer.swift:105-120 | the same, for exactly one `stopPlayer("stop", guildID)` |
| Players.Pause | Sources/SwiftyLink/SwiftyPlayer.swift:123-144 | the same, for exactly one `musicControls("pause", guildID, status)` |
| Players.EveryCommandCarriesItsGuild | Sources/SwiftyLink/SwiftyPlayer.swift:87-136 | over any sequence of play/stop/pause calls, a node with a task, running or canceling, gets one message per call, in call order, and each message is that call's command carrying the player's own guild id; a node without a task gets none |
| Players.ConnectVoice | Sources/SwiftyLink/SwiftyPlayer.swift:47-55 | the gateway payload reads back as a voice status update with `guild_id`=guildID, `channel_id`=channel, `self_mute`=mute and `self_deaf`=deaf (not swapped); it has no sequence number or name and goes to shard 0 |
| Players.SearchRequestFor | Sources/SwiftyLink/SwiftyPlayer.swift:59-63 | the URL text handed to `URL(string:)` is the node's `http://host:port/loadtracks?identifier=` prefix with the query appended unescaped; `Authorization`=password is the only header |
| Players.SearchCompletion | Sources/SwiftyLink/SwiftyPlayer.swift:67-81 | the handler is called at most once, and never when the run traps; a transport error, missing data or missing response, or a "NO_MATCHES" result gives no call and no trap; the handler is called exactly when the body decodes to a result that is not "NO_MATCHES" and has a first track, and it then gets that result with a nil error; the run traps on the `try!` decode exactly when a body that reaches the decode does not decode, and traps on `tracks[0]` exactly when it decodes to a result that is not "NO_MATCHES" and has no tracks |
| Players.SearchDeliversResult | Sources/SwiftyLink/SwiftyPlayer.swift:67-81 | any body that carries a result, extra fields included, makes exactly one handler call with that result and a nil error when the result is not "NO_MATCHES", has tracks and comes with a response; a "NO_MATCHES" result makes none |

## Left out

- URLSession, `URLSessionWebSocketTask` and the data task are left out as transport. Completion timing and the asynchronous dispatch of `search` are left out too. The model takes the transport's results as inputs: `ReceiveResult` sequences and `Completion` values.
- JSON text is not modelled. That covers byte-level encoding and parsing, `prettyPrinted` output, and key order. A search body is a parsed `Json.Value`, and bytes that are not JSON are one `Unparseable` body.
- Structures.HandleEvent: an inbound frame is a JSON object. A frame that is not JSON, or is JSON but not an object, makes the probe's `try!` trap in the source; the model cannot express such a frame.
- Nodes.SendUpdate: a text message is modelled by the JSON object it carries. Text that is not a JSON object cannot be expressed; every text the code sends is an encoded object, and received text is only logged.
- JSON numbers are integers only. Floating-point values, and the decoding of `Bool` from a number, are not modelled.
- Nodes.ConnectRequest: states the URL text handed to `URL(string:)`, not the URL that is opened. Host and port are not escaped. Depending on the Foundation version, characters such as a space in the host are either percent-encoded or make `URL(string:)` fail and the `!` unwrap trap; neither is modelled.
- Nodes.Connect: always installs a running task. The source traps before replacing the task when the URL above does not parse; that trap is not modelled.
- Players.SearchRequestFor: states the URL text handed to `URL(string:)`, not the URL that is requested. The code does not escape the query. Depending on the Foundation version, `URL(string:)` either percent-encodes characters a URL cannot hold, such as spaces, or rejects the text and the `!` unwrap traps; neither is modelled. On every version a `#` in the query starts a fragment that is never sent and a `&` starts a new parameter, so the node searches for a shorter identifier ("C# tutorial" is searched as "C"); the model does not parse the URL and does not show this.
- Nodes.Receive: the `@unknown default: fatalError()` branch has no counterpart, because `Message` has only its two known cases. A `connect` that runs while a receive is outstanding is concurrency and is not modelled.
- Nodes.Destroy: the task states the model has are running and canceling only. A task that is suspended or completed is not modelled.
- The Discord client and `shardManager.sendPayload` are a foreign library. The model stops at the `ShardDispatch` value handed over.
- The node's `sendPayload` closure is stored but never called, so it is left out.
- Logging and `print` calls are left out.
- `handleVoiceServer` and `handleVoiceState` pass a message straight to the socket, just as `SendUpdate` does. They are left out as pure passthroughs.
- `seekPlayer` is decode-only and nothing sends it, so it is left out.
- `statResponse`, `memoryResponse`, `cpuResponse` and `handleStatResponse` are decode shapes with no logic and no callers, so they are left out.
- `handleEndResponse` and `Dictionary.get` are force-unwrap wrappers, so they are left out.
- `Player.song` is never assigned, and `Player.client` is only used to reach the gateway. Neither is part of the `Player` value.
- Package.swift is a build manifest and is not part of this model.

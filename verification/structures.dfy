/** The wire shapes of Structures.swift and the inbound event classifier
    `handleEvent`: a two-pass decode (a lenient probe of `op`, `type` and
    `reason`, then the strict five-field track-end shape) separated by four
    drop rules checked in a fixed order. */
module Structures {
  import opened Wrappers
  import opened Json

  // ---------------------------------------------------------------------
  // Inbound events
  // ---------------------------------------------------------------------

  /** `basicEvent`: the probe shape; only `op` is required. */
  datatype BasicEvent = BasicEvent(op: string, eventType: Option<string>, reason: Option<string>)

  /** `trackEndEvent`: the strict shape, every field a required string. */
  datatype TrackEndEvent = TrackEndEvent(op: string, reason: string, eventType: string, track: string, guildId: string)

  /** The frame has what the probe decode needs. */
  predicate Probeable(f: Object) {
    HasString(f, "op") && HasOptionalString(f, "type") && HasOptionalString(f, "reason")
  }

  /** The frame has all five fields of the track-end shape as strings. */
  predicate TrackEndShaped(f: Object) {
    && HasString(f, "op")
    && HasString(f, "reason")
    && HasString(f, "type")
    && HasString(f, "track")
    && HasString(f, "guildId")
  }

  /** The field names of `trackEndEvent`, in declaration (decoding) order. */
  const TRACK_END_KEYS: seq<string> := ["op", "reason", "type", "track", "guildId"]

  /** The optional string a probe reads from a field. */
  function OptionalField(f: Object, key: string): Option<string> {
    if HasString(f, key) then Some(f[key].str) else None
  }

  /** The probe decode of `basicEvent`. */
  function ProbeDecode(f: Object): (r: Result<BasicEvent, DecodeError>)
    ensures r.Success? <==> Probeable(f)
    ensures r.Success? ==> IsString(f, "op", r.value.op)
    ensures r.Success? ==> r.value.eventType == OptionalField(f, "type")
    ensures r.Success? ==> r.value.reason == OptionalField(f, "reason")
    ensures !HasString(f, "op") ==> r.Failure? && r.error.key == "op"
  {
    var op :- DecodeString(f, "op");
    var eventType :- DecodeOptionalString(f, "type");
    var reason :- DecodeOptionalString(f, "reason");
    Success(BasicEvent(op, eventType, reason))
  }

  /** The strict decode of `trackEndEvent`. */
  function StrictDecode(f: Object): (r: Result<TrackEndEvent, DecodeError>)
    ensures r.Success? <==> TrackEndShaped(f)
    ensures r.Success? ==>
      && IsString(f, "op", r.value.op)
      && IsString(f, "reason", r.value.reason)
      && IsString(f, "type", r.value.eventType)
      && IsString(f, "track", r.value.track)
      && IsString(f, "guildId", r.value.guildId)
    ensures r.Failure? ==> r.error.key in TRACK_END_KEYS && !HasString(f, r.error.key)
  {
    var op :- DecodeString(f, "op");
    var reason :- DecodeString(f, "reason");
    var eventType :- DecodeString(f, "type");
    var track :- DecodeString(f, "track");
    var guildId :- DecodeString(f, "guildId");
    Success(TrackEndEvent(op, reason, eventType, track, guildId))
  }

  /** The object a probe shape is read from when re-encoded: absent optionals
      are omitted, as `encodeIfPresent` does. */
  function EncodeBasic(b: BasicEvent): Object {
    var withOp := map["op" := JString(b.op)];
    var withType := if b.eventType.Some? then withOp["type" := JString(b.eventType.value)] else withOp;
    if b.reason.Some? then withType["reason" := JString(b.reason.value)] else withType
  }

  /** The object a track-end event is read from. */
  function EncodeTrackEnd(e: TrackEndEvent): Object {
    map[
      "op" := JString(e.op),
      "reason" := JString(e.reason),
      "type" := JString(e.eventType),
      "track" := JString(e.track),
      "guildId" := JString(e.guildId)
    ]
  }

  lemma ProbeRoundTrip(b: BasicEvent)
    ensures ProbeDecode(EncodeBasic(b)) == Success(b)
  {
  }

  lemma StrictRoundTrip(e: TrackEndEvent)
    ensures StrictDecode(EncodeTrackEnd(e)) == Success(e)
  {
  }

  /** Two frames agree on one field: both lack it or both hold the same value. */
  predicate AgreeOn(f: Object, g: Object, key: string) {
    (key in f <==> key in g) && (key in f ==> f[key] == g[key])
  }

  /** The probe reads nothing but `op`, `type` and `reason`. */
  lemma ProbeReadsOnlyDiscriminators(f: Object, g: Object)
    requires AgreeOn(f, g, "op") && AgreeOn(f, g, "type") && AgreeOn(f, g, "reason")
    ensures ProbeDecode(f) == ProbeDecode(g)
  {
  }

  // ---------------------------------------------------------------------
  // Classification
  // ---------------------------------------------------------------------

  /** The four reasons `handleEvent` drops a frame. */
  datatype DropRule = StatsOp | PlayerUpdateOp | TrackStart | Disconnected

  /** Position of a rule in the order the source checks them. */
  function Rank(rule: DropRule): nat {
    match rule
    case StatsOp => 0
    case PlayerUpdateOp => 1
    case TrackStart => 2
    case Disconnected => 3
  }

  /** Whether one rule, considered on its own, applies to a probed frame. An
      absent `type` or `reason` never equals the literal it is compared to. */
  predicate Matches(rule: DropRule, b: BasicEvent) {
    match rule
    case StatsOp => b.op == "stats"
    case PlayerUpdateOp => b.op == "playerUpdate"
    case TrackStart => b.eventType == Some("TrackStartEvent")
    case Disconnected => b.reason == Some("Disconnected.")
  }

  /** The drop decision: the rule that fires, or `None` when the frame
      passes all four. */
  function Classify(b: BasicEvent): (r: Option<DropRule>)
    ensures r.None? <==> forall rule :: !Matches(rule, b)
    ensures r.Some? ==> Matches(r.value, b)
    ensures r.Some? ==> forall q :: Rank(q) < Rank(r.value) ==> !Matches(q, b)
  {
    if b.op == "stats" then assert Matches(StatsOp, b); Some(StatsOp)
    else if b.op == "playerUpdate" then assert Matches(PlayerUpdateOp, b); Some(PlayerUpdateOp)
    else if b.eventType == Some("TrackStartEvent") then assert Matches(TrackStart, b); Some(TrackStart)
    else if b.reason == Some("Disconnected.") then assert Matches(Disconnected, b); Some(Disconnected)
    else None
  }

  /** A frame-level statement of "some drop rule applies". */
  predicate DroppedFrame(f: Object) {
    || IsString(f, "op", "stats")
    || IsString(f, "op", "playerUpdate")
    || IsString(f, "type", "TrackStartEvent")
    || IsString(f, "reason", "Disconnected.")
  }

  /** `handleEvent`: `Success(None)` is a dropped frame, `Success(Some(e))` a
      delivered track-end event, and `Failure(e)` the decode failure that the
      source turns into a trap with `try!`. */
  function HandleEvent(f: Object): (r: Result<Option<TrackEndEvent>, DecodeError>)
    ensures r == Success(None) <==> Probeable(f) && DroppedFrame(f)
    ensures (r.Success? && r.value.Some?) <==> Probeable(f) && !DroppedFrame(f) && TrackEndShaped(f)
    ensures r.Success? && r.value.Some? ==> EncodeTrackEnd(r.value.value) == map k | k in f && k in TRACK_END_KEYS :: f[k]
    ensures r.Failure? ==> !Probeable(f) || !TrackEndShaped(f)
  {
    var basic :- ProbeDecode(f);
    if Classify(basic).Some? then Success(None)
    else
      var event :- StrictDecode(f);
      Success(Some(event))
  }

  /** Overwrites a frame's discriminators; `None` removes the field. */
  function WithDiscriminators(f: Object, op: string, eventType: Option<string>, reason: Option<string>): Object {
    var withOp := f["op" := JString(op)];
    var withType := if eventType.Some? then withOp["type" := JString(eventType.value)] else withOp - {"type"};
    if reason.Some? then withType["reason" := JString(reason.value)] else withType - {"reason"}
  }

  /** Rule 1 wins over everything: a `stats` frame is dropped whatever its
      `type` and `reason` and whatever else it carries. */
  lemma StatsAlwaysDropped(f: Object, eventType: Option<string>, reason: Option<string>)
    ensures HandleEvent(WithDiscriminators(f, "stats", eventType, reason)) == Success(None)
  {
  }

  /** Rule 2: a `playerUpdate` frame is dropped whatever else it carries. */
  lemma PlayerUpdateAlwaysDropped(f: Object, eventType: Option<string>, reason: Option<string>)
    ensures HandleEvent(WithDiscriminators(f, "playerUpdate", eventType, reason)) == Success(None)
  {
  }

  /** Rule 3 drops a track-start event, and never fires without a string `type`. */
  lemma TrackStartRule(f: Object, op: string, reason: Option<string>)
    ensures HandleEvent(WithDiscriminators(f, op, Some("TrackStartEvent"), reason)) == Success(None)
    ensures !HasString(f, "type") && Probeable(f) ==> Classify(ProbeDecode(f).value) != Some(TrackStart)
  {
  }

  /** Rule 4 drops a disconnect notice, and never fires without a string `reason`. */
  lemma DisconnectedRule(f: Object, op: string, eventType: Option<string>)
    ensures HandleEvent(WithDiscriminators(f, op, eventType, Some("Disconnected."))) == Success(None)
    ensures !HasString(f, "reason") && Probeable(f) ==> Classify(ProbeDecode(f).value) != Some(Disconnected)
  {
  }

  /** Until the strict decode is reached the outcome depends only on `op`,
      `type` and `reason`: two frames that agree on those are dropped alike
      and fail the probe alike. Past the drop rules only `track` and
      `guildId` are added: frames agreeing on all five fields get the same
      outcome. */
  lemma OutcomeDependsOnlyOnDiscriminators(f: Object, g: Object)
    requires AgreeOn(f, g, "op") && AgreeOn(f, g, "type") && AgreeOn(f, g, "reason")
    ensures (HandleEvent(f) == Success(None)) <==> (HandleEvent(g) == Success(None))
    ensures ProbeDecode(f).Failure? ==> HandleEvent(f) == HandleEvent(g)
    ensures AgreeOn(f, g, "track") && AgreeOn(f, g, "guildId") ==> HandleEvent(f) == HandleEvent(g)
  {
    ProbeReadsOnlyDiscriminators(f, g);
  }

  // ---------------------------------------------------------------------
  // Outbound commands
  // ---------------------------------------------------------------------

  /** `trackPlay`, `stopPlayer` and `musicControls`. */
  datatype Command =
    | TrackPlay(op: string, track: string, guildId: string)
    | StopPlayer(op: string, guildId: string)
    | MusicControls(op: string, guildId: string, pause: bool)

  /** The JSON object `JSONEncoder` produces for a command. */
  function EncodeCommand(c: Command): (o: Object)
    ensures IsString(o, "op", c.op) && IsString(o, "guildId", c.guildId)
  {
    match c
    case TrackPlay(op, track, guildId) =>
      map["op" := JString(op), "track" := JString(track), "guildId" := JString(guildId)]
    case StopPlayer(op, guildId) =>
      map["op" := JString(op), "guildId" := JString(guildId)]
    case MusicControls(op, guildId, pause) =>
      map["op" := JString(op), "guildId" := JString(guildId), "pause" := JBool(pause)]
  }

  /** How a reader of the wire recognises a command: by its exact field set. */
  function DecodeCommand(o: Object): Option<Command> {
    if o.Keys == {"op", "track", "guildId"} && HasString(o, "op") && HasString(o, "track") && HasString(o, "guildId") then
      Some(TrackPlay(o["op"].str, o["track"].str, o["guildId"].str))
    else if o.Keys == {"op", "guildId"} && HasString(o, "op") && HasString(o, "guildId") then
      Some(StopPlayer(o["op"].str, o["guildId"].str))
    else if o.Keys == {"op", "guildId", "pause"} && HasString(o, "op") && HasString(o, "guildId") && o["pause"].JBool? then
      Some(MusicControls(o["op"].str, o["guildId"].str, o["pause"].flag))
    else
      None
  }

  /** Every command is read back as itself, so the encoding loses nothing and
      no two commands share a wire form. */
  lemma CommandRoundTrip(c: Command)
    ensures DecodeCommand(EncodeCommand(c)) == Some(c)
  {
    var o := EncodeCommand(c);
    match c
    case TrackPlay(op, track, guildId) =>
      assert o.Keys == {"op", "track", "guildId"};
    case StopPlayer(op, guildId) =>
      assert o.Keys == {"op", "guildId"};
      assert o.Keys != {"op", "track", "guildId"} by { assert "track" !in o; }
    case MusicControls(op, guildId, pause) =>
      assert o.Keys == {"op", "guildId", "pause"};
      assert o.Keys != {"op", "track", "guildId"} by { assert "track" !in o; }
      assert o.Keys != {"op", "guildId"} by { assert "pause" in o; }
  }

  // ---------------------------------------------------------------------
  // The loadtracks response
  // ---------------------------------------------------------------------

  /** `infoResponse`. */
  datatype InfoResponse = InfoResponse(
    identifier: string,
    isSeekable: bool,
    author: string,
    length: int,
    isStream: bool,
    position: int,
    title: string,
    uri: string)

  /** `trackResponse`. */
  datatype TrackResponse = TrackResponse(track: string, info: InfoResponse)

  /** `lavalinkREST`. */
  datatype LavalinkRest = LavalinkRest(loadType: string, tracks: seq<TrackResponse>)

  /** Reading a field that must be present and not null. */
  function Field(o: Object, key: string): (r: Result<Value, DecodeError>)
    ensures r.Success? <==> key in o && !o[key].JNull?
    ensures r.Success? ==> r.value == o[key]
  {
    if key !in o then Failure(KeyNotFound(key))
    else if o[key].JNull? then Failure(ValueNotFound(key))
    else Success(o[key])
  }

  /** The object has the eight `infoResponse` fields, each of the kind the
      property needs; other fields may be present. */
  predicate InfoShaped(o: Object) {
    && HasString(o, "identifier")
    && HasBool(o, "isSeekable")
    && HasString(o, "author")
    && HasInt(o, "length")
    && HasBool(o, "isStream")
    && HasInt(o, "position")
    && HasString(o, "title")
    && HasString(o, "uri")
  }

  /** `v` is an object whose eight info fields hold the values of `i`; other
      fields may be present. */
  predicate CarriesInfo(v: Value, i: InfoResponse) {
    && v.JObject?
    && IsString(v.fields, "identifier", i.identifier)
    && IsBool(v.fields, "isSeekable", i.isSeekable)
    && IsString(v.fields, "author", i.author)
    && IsNumber(v.fields, "length", i.length)
    && IsBool(v.fields, "isStream", i.isStream)
    && IsNumber(v.fields, "position", i.position)
    && IsString(v.fields, "title", i.title)
    && IsString(v.fields, "uri", i.uri)
  }

  /** A track element: an object with a string `track` and an info object. */
  predicate TrackShaped(v: Value) {
    && v.JObject?
    && HasString(v.fields, "track")
    && "info" in v.fields && v.fields["info"].JObject?
    && InfoShaped(v.fields["info"].fields)
  }

  /** `v` is a track element holding the values of `t`. */
  predicate CarriesTrack(v: Value, t: TrackResponse) {
    && v.JObject?
    && IsString(v.fields, "track", t.track)
    && "info" in v.fields
    && CarriesInfo(v.fields["info"], t.info)
  }

  /** `v` is a response body holding the values of `r`: its `loadType`, and a
      `tracks` array whose elements carry `r`'s tracks one for one. Other
      fields, such as `playlistInfo`, may be present at any level. */
  predicate CarriesRest(v: Value, r: LavalinkRest) {
    && v.JObject?
    && IsString(v.fields, "loadType", r.loadType)
    && "tracks" in v.fields && v.fields["tracks"].JArray?
    && |v.fields["tracks"].items| == |r.tracks|
    && forall k :: 0 <= k < |r.tracks| ==> CarriesTrack(v.fields["tracks"].items[k], r.tracks[k])
  }

  function DecodeInfo(v: Value): (r: Result<InfoResponse, DecodeError>)
    ensures r.Success? <==> v.JObject? && InfoShaped(v.fields)
    ensures r.Success? ==> CarriesInfo(v, r.value) && FitsInt(r.value.length) && FitsInt(r.value.position)
  {
    var o :- AsObject(v, "info");
    var identifier :- DecodeString(o, "identifier");
    var isSeekable :- DecodeBool(o, "isSeekable");
    var author :- DecodeString(o, "author");
    var length :- DecodeInt(o, "length");
    var isStream :- DecodeBool(o, "isStream");
    var position :- DecodeInt(o, "position");
    var title :- DecodeString(o, "title");
    var uri :- DecodeString(o, "uri");
    Success(InfoResponse(identifier, isSeekable, author, length, isStream, position, title, uri))
  }

  function DecodeTrack(v: Value): (r: Result<TrackResponse, DecodeError>)
    ensures r.Success? <==> TrackShaped(v)
    ensures r.Success? ==> CarriesTrack(v, r.value) && FitsInt(r.value.info.length) && FitsInt(r.value.info.position)
  {
    var o :- AsObject(v, "");
    var track :- DecodeString(o, "track");
    var infoValue :- Field(o, "info");
    var info :- DecodeInfo(infoValue);
    Success(TrackResponse(track, info))
  }

  /** Decoding `[trackResponse]`: elements in order, the first failure wins. */
  function DecodeTracks(items: seq<Value>): (r: Result<seq<TrackResponse>, DecodeError>)
    ensures r.Success? <==> forall i :: 0 <= i < |items| ==> DecodeTrack(items[i]).Success?
    ensures r.Success? ==> |r.value| == |items|
    ensures r.Success? ==> forall i :: 0 <= i < |items| ==> DecodeTrack(items[i]) == Success(r.value[i])
    ensures r.Failure? ==> exists i :: 0 <= i < |items| && DecodeTrack(items[i]) == Failure(r.error)
  {
    if |items| == 0 then Success([])
    else
      var head :- DecodeTrack(items[0]);
      var tail :- DecodeTracks(items[1..]);
      Success([head] + tail)
  }

  /** The integers of a response fit Swift's `Int`. */
  predicate RestFits(r: LavalinkRest) {
    forall i :: 0 <= i < |r.tracks| ==> FitsInt(r.tracks[i].info.length) && FitsInt(r.tracks[i].info.position)
  }

  /** Decoding `lavalinkREST` from the response body. */
  function DecodeRest(v: Value): (r: Result<LavalinkRest, DecodeError>)
    ensures r.Success? <==>
      && v.JObject?
      && HasString(v.fields, "loadType")
      && "tracks" in v.fields && v.fields["tracks"].JArray?
      && forall k :: 0 <= k < |v.fields["tracks"].items| ==> TrackShaped(v.fields["tracks"].items[k])
    ensures r.Success? ==> DecodeTracks(v.fields["tracks"].items) == Success(r.value.tracks)
    ensures r.Success? ==> CarriesRest(v, r.value) && RestFits(r.value)
  {
    var o :- AsObject(v, "");
    var loadType :- DecodeString(o, "loadType");
    var tracksValue :- Field(o, "tracks");
    var items :- if tracksValue.JArray? then Success(tracksValue.items) else Failure(TypeMismatch("tracks"));
    var tracks :- DecodeTracks(items);
    Success(LavalinkRest(loadType, tracks))
  }

  lemma DecodeInfoComplete(v: Value, i: InfoResponse)
    requires CarriesInfo(v, i) && FitsInt(i.length) && FitsInt(i.position)
    ensures DecodeInfo(v) == Success(i)
  {
  }

  lemma DecodeTrackComplete(v: Value, t: TrackResponse)
    requires CarriesTrack(v, t) && FitsInt(t.info.length) && FitsInt(t.info.position)
    ensures DecodeTrack(v) == Success(t)
  {
  }

  lemma {:induction false} DecodeTracksComplete(items: seq<Value>, ts: seq<TrackResponse>)
    requires |items| == |ts|
    requires forall k :: 0 <= k < |ts| ==> CarriesTrack(items[k], ts[k])
    requires forall k :: 0 <= k < |ts| ==> FitsInt(ts[k].info.length) && FitsInt(ts[k].info.position)
    ensures DecodeTracks(items) == Success(ts)
  {
    if |ts| > 0 {
      DecodeTrackComplete(items[0], ts[0]);
      DecodeTracksComplete(items[1..], ts[1..]);
      assert [ts[0]] + ts[1..] == ts;
    }
  }

  /** The response decode is characterised exactly: a body decodes to `r`
      precisely when it carries `r` and `r`'s integers fit `Int`, whatever
      extra fields the body has. */
  lemma DecodeRestExact(v: Value, r: LavalinkRest)
    ensures DecodeRest(v) == Success(r) <==> CarriesRest(v, r) && RestFits(r)
  {
    if CarriesRest(v, r) && RestFits(r) {
      DecodeTracksComplete(v.fields["tracks"].items, r.tracks);
    }
  }

  /** The response body a node sends for a given result, with no extra
      fields. */
  function EncodeInfo(i: InfoResponse): Value {
    JObject(map[
      "identifier" := JString(i.identifier),
      "isSeekable" := JBool(i.isSeekable),
      "author" := JString(i.author),
      "length" := JNumber(i.length),
      "isStream" := JBool(i.isStream),
      "position" := JNumber(i.position),
      "title" := JString(i.title),
      "uri" := JString(i.uri)
    ])
  }

  function EncodeTrack(t: TrackResponse): Value {
    JObject(map["track" := JString(t.track), "info" := EncodeInfo(t.info)])
  }

  function EncodeTracks(ts: seq<TrackResponse>): (items: seq<Value>)
    ensures |items| == |ts|
    ensures forall k :: 0 <= k < |ts| ==> items[k] == EncodeTrack(ts[k])
  {
    if |ts| == 0 then [] else [EncodeTrack(ts[0])] + EncodeTracks(ts[1..])
  }

  function EncodeRest(r: LavalinkRest): Value {
    JObject(map["loadType" := JString(r.loadType), "tracks" := JArray(EncodeTracks(r.tracks))])
  }

  /** Every response whose integers fit `Int` decodes back to itself, and a
      response whose integers do not fit is never the result of a decode. */
  lemma RestRoundTrip(r: LavalinkRest)
    ensures RestFits(r) ==> DecodeRest(EncodeRest(r)) == Success(r)
    ensures !RestFits(r) ==> forall v :: DecodeRest(v) != Success(r)
  {
    var v := EncodeRest(r);
    assert CarriesRest(v, r) by {
      forall k | 0 <= k < |r.tracks|
        ensures CarriesTrack(v.fields["tracks"].items[k], r.tracks[k])
      {
        assert v.fields["tracks"].items[k] == EncodeTrack(r.tracks[k]);
      }
    }
    DecodeRestExact(v, r);
  }
}

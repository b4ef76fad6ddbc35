/**
 * The session-level client (`RealtimeClient`): the tool registry, the session
 * configuration, the local input-audio accumulator and the commands it sends upstream
 * through the API connection (`RealtimeAPI`), which is modelled as a connected flag and an
 * outbox of sent events.
 */
module Client {
  import opened Wrappers
  import Conversation

  /** The exceptions the client and the connection raise. */
  datatype ClientError =
    | ConnectionError
    | MissingToolName
    | DuplicateTool(name: string)
    | HandlerNotCallable(name: string)
    | UnknownTool(name: string)
    | AttributeError
    | ToolsNotAList
    | ItemNotFound(id: string)
    | NotAMessage
    | NotAssistant
    | MissingKey(key: string)
    | NoAudioPart

  /** An event as sent upstream: its type and the keys merged into it. */
  datatype Envelope = Envelope(eventType: string, data: map<string, Json>)

  /** The upstream connection: whether it is open, and every event sent so far. */
  class RealtimeApi {
    var connected: bool
    var outbox: seq<Envelope>

    constructor ()
      ensures !connected && outbox == []
    {
      connected := false;
      outbox := [];
    }

    /** `send`: raises when not connected; otherwise the event goes out (`data or {}`). */
    method Send(eventType: string, data: Option<map<string, Json>>) returns (r: Result<bool, ClientError>)
      modifies this`outbox
      ensures !connected ==> r == Err(ConnectionError) && outbox == old(outbox)
      ensures connected ==> r == Ok(true) && outbox == old(outbox) + [Envelope(eventType, Payload(data))]
    {
      if !connected {
        return Err(ConnectionError);
      }
      outbox := outbox + [Envelope(eventType, Payload(data))];
      r := Ok(true);
    }

    /** `disconnect`: the socket is dropped. */
    method Disconnect()
      modifies this`connected
      ensures !connected
    {
      connected := false;
    }
  }

  function Payload(data: Option<map<string, Json>>): map<string, Json>
  {
    match data
    case Some(d) => d
    case None => map[]
  }

  /** The defaults `_reset_config` restores. */
  const DefaultSessionConfig: map<string, Json> := map[
    "modalities" := Arr([Str("text"), Str("audio")]),
    "instructions" := Str(""),
    "voice" := Str("alloy"),
    "input_audio_format" := Str("pcm16"),
    "output_audio_format" := Str("pcm16"),
    "input_audio_transcription" := Null,
    "turn_detection" := Null,
    "tools" := Arr([]),
    "tool_choice" := Str("auto"),
    "temperature" := Num(0.8),
    "max_response_output_tokens" := Num(4096.0)
  ]

  // ---------------------------------------------------------------------------
  // Turn detection
  // ---------------------------------------------------------------------------

  /**
   * `session_config.get("turn_detection", {}).get("type")` as written: a missing key reads
   * as `{}`, but a key holding `None` (or any non-object) has no `.get` and raises.
   * A missing `type` reads as `None` (`Null`).
   */
  function TurnDetectionTypeAsWritten(config: map<string, Json>): (r: Result<Json, ClientError>)
    ensures r.Err? <==> "turn_detection" in config && !config["turn_detection"].Obj?
    ensures r.Ok? && "turn_detection" in config && "type" in config["turn_detection"].fields ==>
      r.value == config["turn_detection"].fields["type"]
  {
    var td := if "turn_detection" in config then config["turn_detection"] else Obj(map[]);
    match td
    case Obj(f) => Ok(if "type" in f then f["type"] else Null)
    case _ => Err(AttributeError)
  }

  /** The evident intent: a `None` (or otherwise non-object) setting means no turn detection. */
  function TurnDetectionType(config: map<string, Json>): (r: Json)
    ensures "turn_detection" !in config || !config["turn_detection"].Obj? ==> r == Null
    ensures "turn_detection" in config && config["turn_detection"].Obj? ==>
      r == (if "type" in config["turn_detection"].fields then config["turn_detection"].fields["type"] else Null)
    ensures TurnDetectionTypeAsWritten(config).Ok? ==> r == TurnDetectionTypeAsWritten(config).value
  {
    if "turn_detection" in config && config["turn_detection"].Obj? then
      var f := config["turn_detection"].fields;
      if "type" in f then f["type"] else Null
    else Null
  }

  /**
   * The discrepancy: on the default configuration, whose `turn_detection` is `None`, the
   * lookup as written raises, while the intended reading is "no turn detection".
   */
  lemma DefaultTurnDetectionRaises()
    ensures TurnDetectionTypeAsWritten(DefaultSessionConfig) == Err(AttributeError)
    ensures TurnDetectionType(DefaultSessionConfig) == Null
  {
  }

  // ---------------------------------------------------------------------------
  // Session configuration and the tool registry
  // ---------------------------------------------------------------------------

  /** `session_config.update({k: v for k, v in kwargs.items() if v is not None})`. */
  function MergedConfig(config: map<string, Json>, kwargs: map<string, Json>): (r: map<string, Json>)
    ensures forall k :: k in r <==> k in config || (k in kwargs && kwargs[k] != Null)
    ensures forall k :: k in kwargs && kwargs[k] != Null ==> r[k] == kwargs[k]
    ensures forall k :: k in config && (k !in kwargs || kwargs[k] == Null) ==> r[k] == config[k]
  {
    config + map k | k in kwargs && kwargs[k] != Null :: kwargs[k]
  }

  /** Once `turn_detection` holds a value other than `None`, no session update can put `None` back. */
  lemma MergeNeverRestoresNone(config: map<string, Json>, kwargs: map<string, Json>)
    requires "turn_detection" in config && config["turn_detection"] != Null
    ensures "turn_detection" in MergedConfig(config, kwargs)
    ensures MergedConfig(config, kwargs)["turn_detection"] != Null
  {
  }

  /** What identifies a tool handler; `NotCallable` is a value that is not a function. */
  datatype Handler = Callable(id: nat) | NotCallable

  /** A registered tool, in registration order. */
  datatype ToolEntry = ToolEntry(name: string, definition: map<string, Json>, handler: Handler)

  function Names(tools: seq<ToolEntry>): (r: seq<string>)
    ensures |r| == |tools| && forall i :: 0 <= i < |tools| ==> r[i] == tools[i].name
  {
    if tools == [] then [] else Names(tools[..|tools| - 1]) + [tools[|tools| - 1].name]
  }

  ghost predicate DistinctNames(tools: seq<ToolEntry>)
  {
    forall i, j :: 0 <= i < j < |tools| ==> tools[i].name != tools[j].name
  }

  /** `definition.get("name")` when it is a non-empty string. */
  function ToolName(definition: map<string, Json>): (r: Option<string>)
    ensures r.Some? <==> "name" in definition && definition["name"].Str? && definition["name"].s != ""
    ensures r.Some? ==> definition["name"] == Str(r.value)
  {
    if "name" in definition && definition["name"].Str? && definition["name"].s != "" then Some(definition["name"].s) else None
  }

  /** `del self.tools[name]`: the entry with that name goes; the others keep their order. */
  function ToolsWithout(tools: seq<ToolEntry>, name: string): (r: seq<ToolEntry>)
    ensures forall e :: e in r <==> e in tools && e.name != name
    ensures |r| <= |tools|
  {
    if tools == [] then []
    else ToolsWithout(tools[..|tools| - 1], name) + (if tools[|tools| - 1].name == name then [] else [tools[|tools| - 1]])
  }

  /** Removing a name from a registry with distinct names leaves distinct names. */
  lemma {:induction false} ToolsWithoutDistinct(tools: seq<ToolEntry>, name: string)
    requires DistinctNames(tools)
    ensures DistinctNames(ToolsWithout(tools, name))
  {
    if tools != [] {
      var init := tools[..|tools| - 1];
      var last := tools[|tools| - 1];
      assert DistinctNames(init) by {
        forall i, j | 0 <= i < j < |init| ensures init[i].name != init[j].name {
          assert init[i] == tools[i] && init[j] == tools[j];
        }
      }
      ToolsWithoutDistinct(init, name);
      var rest := ToolsWithout(init, name);
      if last.name != name {
        forall i | 0 <= i < |rest| ensures rest[i].name != last.name {
          assert rest[i] in init;
          var k :| 0 <= k < |init| && init[k] == rest[i];
          assert tools[k] == rest[i];
        }
        var r := rest + [last];
        forall i, j | 0 <= i < j < |r| ensures r[i].name != r[j].name {
          if j == |r| - 1 {
            assert r[i] == rest[i];
          } else {
            assert r[i] == rest[i] && r[j] == rest[j];
          }
        }
      } else {
        assert rest + [] == rest;
      }
    }
  }

  /** Removing a tool right after adding it restores the registry, order included. */
  lemma {:induction false} RemoveUndoesAdd(tools: seq<ToolEntry>, e: ToolEntry)
    requires forall i :: 0 <= i < |tools| ==> tools[i].name != e.name
    ensures ToolsWithout(tools + [e], e.name) == tools
  {
    assert (tools + [e])[..|tools|] == tools;
    ToolsWithoutAbsent(tools, e.name);
  }

  lemma {:induction false} ToolsWithoutAbsent(tools: seq<ToolEntry>, name: string)
    requires forall i :: 0 <= i < |tools| ==> tools[i].name != name
    ensures ToolsWithout(tools, name) == tools
  {
    if tools != [] {
      var init := tools[..|tools| - 1];
      var last := tools[|tools| - 1];
      assert last.name != name;
      assert ToolsWithout(tools, name) == ToolsWithout(init, name) + [last];
      ToolsWithoutAbsent(init, name);
      assert init + [last] == tools;
    }
  }

  /** `{"type": "function", **definition}`: a `type` key of the definition overrides the tag. */
  function Tagged(definition: map<string, Json>): (r: map<string, Json>)
    ensures "type" in r && r.Keys == definition.Keys + {"type"}
    ensures "type" !in definition ==> r["type"] == Str("function")
    ensures forall k :: k in definition ==> r[k] == definition[k]
  {
    map["type" := Str("function")] + definition
  }

  /** The tagged definitions of the registered tools, in registration order. */
  function RegisteredDefinitions(tools: seq<ToolEntry>): (r: seq<Json>)
    ensures |r| == |tools|
    ensures forall i :: 0 <= i < |tools| ==> r[i] == Obj(Tagged(tools[i].definition))
  {
    if tools == [] then [] else RegisteredDefinitions(tools[..|tools| - 1]) + [Obj(Tagged(tools[|tools| - 1].definition))]
  }

  /** The `tools` keyword argument as a list (`kwargs.get("tools") or []`), or `None` when it is a truthy non-list. */
  function PassedTools(kwargs: map<string, Json>): (r: Option<seq<Json>>)
    ensures "tools" !in kwargs || !Truthy(kwargs["tools"]) ==> r == Some([])
    ensures "tools" in kwargs && kwargs["tools"].Arr? ==> r == Some(kwargs["tools"].elems)
  {
    if "tools" in kwargs && Truthy(kwargs["tools"]) then
      (if kwargs["tools"].Arr? then Some(kwargs["tools"].elems) else None)
    else Some([])
  }

  /** The `session` of a `session.update`: the configuration with `tools` replaced by the passed and registered tools. */
  function SessionPayload(config: map<string, Json>, passed: seq<Json>, tools: seq<ToolEntry>): (r: map<string, Json>)
    ensures "tools" in r && r["tools"] == Arr(passed + RegisteredDefinitions(tools))
    ensures forall k :: k != "tools" ==> (k in r <==> k in config) && (k in config ==> r[k] == config[k])
  {
    config["tools" := Arr(passed + RegisteredDefinitions(tools))]
  }

  // ---------------------------------------------------------------------------
  // Cancelling a response
  // ---------------------------------------------------------------------------

  /** `int((sample_count / 24000) * 1000)` in exact arithmetic: whole milliseconds, rounded down. */
  function AudioEndMs(sampleCount: nat): (ms: nat)
    ensures ms * 24 <= sampleCount < (ms + 1) * 24
  {
    sampleCount / 24
  }

  /** The outcome of the search for the first audio part. */
  datatype Scan = Found(index: nat) | Untyped(index: nat) | NotFound

  /** Every part before `k` has a type, and none of them is `audio`. */
  ghost predicate NoAudioBefore(content: seq<Conversation.Part>, k: nat)
    requires k <= |content|
  {
    forall j :: 0 <= j < k ==> content[j].partType.Some? && content[j].partType != Some("audio")
  }

  /**
   * `r` is what the search for the first audio part meets: the first audio part, a part
   * without a type before any audio part, or the end of the content.
   */
  ghost predicate IsFirstAudio(content: seq<Conversation.Part>, r: Scan)
  {
    match r
    case Found(k) => k < |content| && NoAudioBefore(content, k) && content[k].partType == Some("audio")
    case Untyped(k) => k < |content| && NoAudioBefore(content, k) && content[k].partType.None?
    case NotFound => NoAudioBefore(content, |content|)
  }

  /** The outcome of the search, defined part by part from the front. */
  function FirstAudio(content: seq<Conversation.Part>): (r: Scan)
    ensures IsFirstAudio(content, r)
  {
    if |content| == 0 then NotFound
    else if content[0].partType.None? then Untyped(0)
    else if content[0].partType == Some("audio") then Found(0)
    else
      var rest := FirstAudio(content[1..]);
      assert forall j :: 0 < j < |content| ==> content[j] == content[1..][j - 1];
      match rest
      case Found(k) => Found(k + 1)
      case Untyped(k) => Untyped(k + 1)
      case NotFound => NotFound
  }

  /** At most one outcome fits a given content: the search result is determined. */
  lemma FirstAudioUnique(content: seq<Conversation.Part>, a: Scan, b: Scan)
    requires IsFirstAudio(content, a) && IsFirstAudio(content, b)
    ensures a == b
  {
  }

  /**
   * `next((i for i, c in enumerate(content) if c["type"] == "audio"), -1)`: the index of the
   * first audio part, or the index of a part without a type met before any audio part (the
   * generator raises there), or none.
   */
  method FirstAudioPart(content: seq<Conversation.Part>) returns (r: Scan)
    ensures r.Found? ==> r.index < |content| && NoAudioBefore(content, r.index) && content[r.index].partType == Some("audio")
    ensures r.Untyped? ==> r.index < |content| && NoAudioBefore(content, r.index) && content[r.index].partType.None?
    ensures r.NotFound? ==> NoAudioBefore(content, |content|)
    ensures r == FirstAudio(content)
  {
    var i := 0;
    while i < |content| && content[i].partType.Some? && content[i].partType != Some("audio")
      invariant 0 <= i <= |content|
      invariant NoAudioBefore(content, i)
    {
      i := i + 1;
    }
    if i == |content| {
      r := NotFound;
    } else if content[i].partType.None? {
      r := Untyped(i);
    } else {
      r := Found(i);
    }
    FirstAudioUnique(content, r, FirstAudio(content));
  }

  // ---------------------------------------------------------------------------
  // The client
  // ---------------------------------------------------------------------------

  class RealtimeClient {
    const realtime: RealtimeApi
    const conversation: Conversation.RealtimeConversation
    var sessionCreated: bool
    var tools: seq<ToolEntry>
    var sessionConfig: map<string, Json>
    var inputAudioBuffer: seq<Byte>

    /** The base64 encoder for outgoing audio (a library call whose body is not modelled). */
    const encodeBase64: seq<Byte> -> string

    /** Tool names are unique keys, and the conversation's stores are consistent. */
    ghost predicate Valid()
      reads this, conversation
    {
      DistinctNames(tools) && conversation.Valid()
    }

    constructor (api: RealtimeApi, conv: Conversation.RealtimeConversation, encode: seq<Byte> -> string)
      requires conv.Valid()
      ensures Valid()
      ensures realtime == api && conversation == conv && encodeBase64 == encode
      ensures !sessionCreated && tools == [] && sessionConfig == DefaultSessionConfig && inputAudioBuffer == []
    {
      realtime := api;
      conversation := conv;
      encodeBase64 := encode;
      sessionCreated := false;
      tools := [];
      sessionConfig := DefaultSessionConfig;
      inputAudioBuffer := [];
    }

    /** `_reset_config`: not created, no tools, the default configuration, an empty buffer. */
    method ResetConfig() returns (r: bool)
      requires Valid()
      modifies this
      ensures Valid() && r
      ensures !sessionCreated && tools == [] && sessionConfig == DefaultSessionConfig && inputAudioBuffer == []
    {
      sessionCreated := false;
      tools := [];
      sessionConfig := DefaultSessionConfig;
      inputAudioBuffer := [];
      r := true;
    }

    /** `disconnect`: not created, the socket closed, the conversation cleared; the registry and buffer stay. */
    method Disconnect()
      requires Valid()
      modifies this`sessionCreated, realtime`connected, conversation
      ensures Valid()
      ensures !sessionCreated && !realtime.connected
      ensures conversation.items == [] && conversation.itemLookup == map[]
      ensures conversation.responses == [] && conversation.responseLookup == map[]
      ensures conversation.queuedSpeechItems == map[] && conversation.queuedTranscriptItems == map[]
      ensures conversation.queuedInputAudio.None?
      ensures realtime.outbox == old(realtime.outbox) && tools == old(tools) && inputAudioBuffer == old(inputAudioBuffer)
    {
      sessionCreated := false;
      if realtime.connected {
        realtime.Disconnect();
      }
      var _ := conversation.Clear();
    }

    /** `get_turn_detection_type`, as written. */
    function GetTurnDetectionType(): (r: Result<Json, ClientError>)
      reads this
      ensures r == TurnDetectionTypeAsWritten(sessionConfig)
      ensures sessionConfig == DefaultSessionConfig ==> r == Err(AttributeError)
    {
      TurnDetectionTypeAsWritten(sessionConfig)
    }

    /**
     * `update_session`: non-`None` arguments are merged into the configuration; when
     * connected, a `session.update` carrying the configuration with `tools` set to the
     * passed tools followed by the registered definitions is sent. A truthy `tools` argument
     * that is not a list raises after the merge.
     */
    method UpdateSession(kwargs: map<string, Json>) returns (r: Result<bool, ClientError>)
      modifies this`sessionConfig, realtime`outbox
      ensures sessionConfig == MergedConfig(old(sessionConfig), kwargs)
      ensures PassedTools(kwargs).None? ==> r == Err(ToolsNotAList) && realtime.outbox == old(realtime.outbox)
      ensures PassedTools(kwargs).Some? ==>
        && r == Ok(true)
        && realtime.outbox == old(realtime.outbox) +
             (if realtime.connected
              then [Envelope("session.update", map["session" := Obj(SessionPayload(sessionConfig, PassedTools(kwargs).value, tools))])]
              else [])
    {
      sessionConfig := MergedConfig(sessionConfig, kwargs);
      var passed := PassedTools(kwargs);
      if passed.None? {
        return Err(ToolsNotAList);
      }
      var session := SessionPayload(sessionConfig, passed.value, tools);
      if realtime.connected {
        var _ := realtime.Send("session.update", Some(map["session" := Obj(session)]));
      }
      r := Ok(true);
    }

    /**
     * `add_tool`: a missing or empty name, an already registered name and a handler that is
     * not callable raise, in that order, with nothing changed; otherwise the tool is
     * registered last and the session resynchronised.
     */
    method AddTool(definition: map<string, Json>, handler: Handler) returns (r: Result<ToolEntry, ClientError>)
      requires Valid()
      modifies this`tools, this`sessionConfig, realtime`outbox
      ensures Valid()
      ensures ToolName(definition).None? ==> r == Err(MissingToolName)
      ensures ToolName(definition).Some? && ToolName(definition).value in Names(old(tools)) ==>
        r == Err(DuplicateTool(ToolName(definition).value))
      ensures ToolName(definition).Some? && ToolName(definition).value !in Names(old(tools)) && handler.NotCallable? ==>
        r == Err(HandlerNotCallable(ToolName(definition).value))
      ensures ToolName(definition).Some? && ToolName(definition).value !in Names(old(tools)) && !handler.NotCallable? ==> r.Ok?
      ensures r.Err? ==> tools == old(tools) && sessionConfig == old(sessionConfig) && realtime.outbox == old(realtime.outbox)
      ensures r.Ok? ==>
        && r.value == ToolEntry(ToolName(definition).value, definition, handler)
        && tools == old(tools) + [r.value]
        && sessionConfig == old(sessionConfig)
        && realtime.outbox == old(realtime.outbox) +
             (if realtime.connected
              then [Envelope("session.update", map["session" := Obj(SessionPayload(sessionConfig, [], tools))])]
              else [])
    {
      var name := ToolName(definition);
      if name.None? {
        return Err(MissingToolName);
      }
      if name.value in Names(tools) {
        return Err(DuplicateTool(name.value));
      }
      if handler.NotCallable? {
        return Err(HandlerNotCallable(name.value));
      }
      var entry := ToolEntry(name.value, definition, handler);
      assert forall i :: 0 <= i < |tools| ==> tools[i].name == Names(tools)[i];
      tools := tools + [entry];
      var _ := UpdateSession(map[]);
      assert MergedConfig(old(sessionConfig), map[]) == old(sessionConfig);
      r := Ok(entry);
    }

    /** `remove_tool`: an unregistered name raises; otherwise only that entry goes, and nothing is sent. */
    method RemoveTool(name: string) returns (r: Result<bool, ClientError>)
      requires Valid()
      modifies this`tools
      ensures Valid()
      ensures name !in Names(old(tools)) ==> r == Err(UnknownTool(name)) && tools == old(tools)
      ensures name in Names(old(tools)) ==> r == Ok(true) && tools == ToolsWithout(old(tools), name)
      ensures name !in Names(tools)
    {
      if name !in Names(tools) {
        assert forall i :: 0 <= i < |tools| ==> tools[i].name != name by {
          forall i | 0 <= i < |tools| ensures tools[i].name != name {
            assert Names(tools)[i] == tools[i].name;
          }
        }
        return Err(UnknownTool(name));
      }
      ToolsWithoutDistinct(tools, name);
      tools := ToolsWithout(tools, name);
      r := Ok(true);
      assert forall i :: 0 <= i < |tools| ==> tools[i].name != name by {
        forall i | 0 <= i < |tools| ensures tools[i].name != name {
          assert tools[i] in tools;
        }
      }
    }

    /**
     * `append_input_audio`: empty audio does nothing; otherwise one `input_audio_buffer.append`
     * carrying the encoded audio is sent and the audio is appended to the local buffer (the
     * send raises first when not connected, leaving the buffer as it was).
     */
    method AppendInputAudio(audio: seq<Byte>) returns (r: Result<bool, ClientError>)
      modifies this`inputAudioBuffer, realtime`outbox
      ensures audio == [] ==> r == Ok(true) && inputAudioBuffer == old(inputAudioBuffer) && realtime.outbox == old(realtime.outbox)
      ensures audio != [] && !realtime.connected ==>
        r == Err(ConnectionError) && inputAudioBuffer == old(inputAudioBuffer) && realtime.outbox == old(realtime.outbox)
      ensures audio != [] && realtime.connected ==>
        && r == Ok(true)
        && inputAudioBuffer == old(inputAudioBuffer) + audio
        && realtime.outbox == old(realtime.outbox) + [Envelope("input_audio_buffer.append", map["audio" := Str(encodeBase64(audio))])]
    {
      if |audio| > 0 {
        var sent := realtime.Send("input_audio_buffer.append", Some(map["audio" := Str(encodeBase64(audio))]));
        if sent.Err? {
          return Err(sent.error);
        }
        inputAudioBuffer := inputAudioBuffer + audio;
      }
      r := Ok(true);
    }

    /**
     * `create_response`: without turn detection and with buffered audio, commits the buffer
     * upstream, hands it to the conversation as the queued input audio and empties it; then
     * requests a response, which is always the last event sent. Turn detection is read as
     * `TurnDetectionType` intends.
     */
    method CreateResponse() returns (r: Result<bool, ClientError>)
      requires Valid()
      modifies this`inputAudioBuffer, realtime`outbox, conversation`queuedInputAudio
      ensures Valid()
      ensures !realtime.connected ==>
        && r == Err(ConnectionError) && realtime.outbox == old(realtime.outbox)
        && inputAudioBuffer == old(inputAudioBuffer) && conversation.queuedInputAudio == old(conversation.queuedInputAudio)
      ensures realtime.connected ==>
        var commit := TurnDetectionType(sessionConfig) == Null && old(inputAudioBuffer) != [];
        && r == Ok(true)
        && realtime.outbox == old(realtime.outbox)
             + (if commit then [Envelope("input_audio_buffer.commit", map[])] else [])
             + [Envelope("response.create", map[])]
        && inputAudioBuffer == (if commit then [] else old(inputAudioBuffer))
        && conversation.queuedInputAudio == (if commit then Some(old(inputAudioBuffer)) else old(conversation.queuedInputAudio))
    {
      if TurnDetectionType(sessionConfig) == Null && |inputAudioBuffer| > 0 {
        var sent := realtime.Send("input_audio_buffer.commit", None);
        if sent.Err? {
          return Err(sent.error);
        }
        var _ := conversation.QueueInputAudio(inputAudioBuffer);
        inputAudioBuffer := [];
      }
      var sent := realtime.Send("response.create", None);
      if sent.Err? {
        return Err(sent.error);
      }
      r := Ok(true);
    }

    /**
     * `cancel_response`. Without an id (or with an empty one) it sends one `response.cancel`
     * and returns no item. With an id it raises, sending nothing, for an unknown item, an
     * item that is not a message, or a message not from the assistant (a missing `type` or
     * `role` key raises too); otherwise it sends `response.cancel` first, then raises if no
     * audio part is found, or sends `conversation.item.truncate` at the first audio part.
     */
    method CancelResponse(id: Option<string>, sampleCount: nat) returns (r: Result<Option<Conversation.Item>, ClientError>)
      requires Valid()
      modifies realtime`outbox
      ensures id.None? || id == Some("") ==>
        if realtime.connected
        then r == Ok(None) && realtime.outbox == old(realtime.outbox) + [Envelope("response.cancel", map[])]
        else r == Err(ConnectionError) && realtime.outbox == old(realtime.outbox)
      ensures id.Some? && id.value != "" && id.value !in conversation.itemLookup ==>
        r == Err(ItemNotFound(id.value)) && realtime.outbox == old(realtime.outbox)
      ensures id.Some? && id.value != "" && id.value in conversation.itemLookup ==>
        var item := conversation.itemLookup[id.value];
        (item.itemType.None? ==> r == Err(MissingKey("type")) && realtime.outbox == old(realtime.outbox))
        && (item.itemType.Some? && item.itemType != Some("message") ==> r == Err(NotAMessage) && realtime.outbox == old(realtime.outbox))
        && (item.itemType == Some("message") && item.role.None? ==> r == Err(MissingKey("role")) && realtime.outbox == old(realtime.outbox))
        && (item.itemType == Some("message") && item.role.Some? && item.role != Some("assistant") ==>
              r == Err(NotAssistant) && realtime.outbox == old(realtime.outbox))
      ensures id.Some? && id.value != "" && id.value in conversation.itemLookup ==>
        var item := conversation.itemLookup[id.value];
        var cancel := Envelope("response.cancel", map[]);
        item.itemType == Some("message") && item.role == Some("assistant") ==>
          if !realtime.connected then r == Err(ConnectionError) && realtime.outbox == old(realtime.outbox)
          else if item.content.None? then r == Err(MissingKey("content")) && realtime.outbox == old(realtime.outbox) + [cancel]
          else match FirstAudio(item.content.value)
            case Found(k) =>
              && r == Ok(Some(item))
              && realtime.outbox == old(realtime.outbox) + [cancel,
                   Envelope("conversation.item.truncate", map[
                     "item_id" := Str(id.value),
                     "content_index" := Num(k as real),
                     "audio_end_ms" := Num(AudioEndMs(sampleCount) as real)])]
            case Untyped(_) => r == Err(MissingKey("type")) && realtime.outbox == old(realtime.outbox) + [cancel]
            case NotFound => r == Err(NoAudioPart) && realtime.outbox == old(realtime.outbox) + [cancel]
      ensures r.Ok? && r.value.Some? ==>
        && id.Some? && id.value in conversation.itemLookup
        && r.value.value == conversation.itemLookup[id.value]
        && r.value.value.itemType == Some("message") && r.value.value.role == Some("assistant")
        && r.value.value.content.Some?
        && exists k :: 0 <= k < |r.value.value.content.value|
             && NoAudioBefore(r.value.value.content.value, k)
             && r.value.value.content.value[k].partType == Some("audio")
             && realtime.outbox == old(realtime.outbox) + [
                  Envelope("response.cancel", map[]),
                  Envelope("conversation.item.truncate", map[
                    "item_id" := Str(id.value),
                    "content_index" := Num(k as real),
                    "audio_end_ms" := Num(AudioEndMs(sampleCount) as real)])]
      ensures r == Err(NoAudioPart) ==>
        && id.Some? && id.value in conversation.itemLookup
        && conversation.itemLookup[id.value].content.Some?
        && NoAudioBefore(conversation.itemLookup[id.value].content.value, |conversation.itemLookup[id.value].content.value|)
        && realtime.outbox == old(realtime.outbox) + [Envelope("response.cancel", map[])]
    {
      if id.None? || id.value == "" {
        var sent := realtime.Send("response.cancel", None);
        if sent.Err? {
          return Err(sent.error);
        }
        return Ok(None);
      }
      var found := conversation.GetItem(id.value);
      if found.None? {
        return Err(ItemNotFound(id.value));
      }
      var item := found.value;
      if item.itemType.None? {
        return Err(MissingKey("type"));
      }
      if item.itemType.value != "message" {
        return Err(NotAMessage);
      }
      if item.role.None? {
        return Err(MissingKey("role"));
      }
      if item.role.value != "assistant" {
        return Err(NotAssistant);
      }
      var sent := realtime.Send("response.cancel", None);
      if sent.Err? {
        return Err(sent.error);
      }
      if item.content.None? {
        return Err(MissingKey("content"));
      }
      var scan := FirstAudioPart(item.content.value);
      if scan.Untyped? {
        return Err(MissingKey("type"));
      }
      if scan.NotFound? {
        return Err(NoAudioPart);
      }
      var data := map[
        "item_id" := Str(id.value),
        "content_index" := Num(scan.index as real),
        "audio_end_ms" := Num(AudioEndMs(sampleCount) as real)];
      sent := realtime.Send("conversation.item.truncate", Some(data));
      r := Ok(Some(item));
    }

    /** `send`: returns false without sending when not connected; otherwise sends. */
    method Send(eventType: string, data: Option<map<string, Json>>) returns (r: bool)
      modifies realtime`outbox
      ensures r == realtime.connected
      ensures realtime.outbox == old(realtime.outbox) + (if realtime.connected then [Envelope(eventType, Payload(data))] else [])
    {
      if !realtime.connected {
        return false;
      }
      var _ := realtime.Send(eventType, data);
      r := true;
    }
  }
}

# Realtime relay client core, modelled in Dafny

This project models the three stateful components of the Python realtime client of
`python-openai-realtime-relay`:

- **`RealtimeConversation`** (`conversation.dfy`, module `Conversation`) is the conversation
  reconstruction engine. It folds upstream server events into an ordered item store, a
  response store, two queues keyed by item id and one queued input-audio slot. Each of its
  fourteen event processors is a method of the class. The processors are backed by
  specification functions on item values: `Created`, `Truncated`, `TranscriptionApplied`,
  `ContentDeltaApplied`, `ArgumentsDeltaApplied`, `Merged` and `StoppedSpeech`.
  - The Python list and lookup share item dictionaries. The model keeps the ids in `items`
    and the records in `itemLookup`, so an update through the lookup is seen through the
    list.
  - Keys that an upstream payload may lack are `Option`s. Reading an absent one is the
    `KeyError` the code raises, and the partial state the code leaves behind is kept.
- **`RealtimeEventHandler`** (`event_handler.dfy`, module `Events`) is the
  publish/subscribe registry of durable and one-shot listeners.
  - Listeners are identified by ids.
  - What a listener does when invoked is a sequence of calls back into the bus (`Op`). A
    dispatch returns the ids it invoked, so the order in which a dispatch sees listeners
    added or removed by other listeners is part of the model.
- **`RealtimeClient`** (`client.py` → `client.dfy`, module `Client`) covers the tool
  registry, session-configuration merging, the local input-audio buffer, and the commands
  `create_response` and `cancel_response`.
  - The upstream connection (`RealtimeAPI`) is a connected flag and an outbox of sent events.
  - Sending while disconnected raises `ConnectionError`.

`wrappers.dfy` holds the shared `Option`, `Result`, `Byte` and JSON-value types.

Where the written behaviour description and the code differ, the model follows the code:

- `remove_tool` does not resend the session configuration (`realtime_client/client.py:398-402`).
- In the tool list that `update_session` sends, the tools passed to the call come before
  the registered definitions (`realtime_client/client.py:411-413`).

## Model

| member | source | states |
|---|---|---|
| Conversation.SampleIndex | realtime_client/conversation.py:127 | A millisecond mark becomes byte offset `ms * 24`, which is exactly `ms * 24000 / 1000`. |
| Conversation.Padded | realtime_client/conversation.py:155-157 | Padding leaves `max(len, index + 1)` slots, keeps the old prefix and fills new slots with empty parts. |
| Conversation.PadContent | realtime_client/conversation.py:155-157 | The `while` padding loop computes exactly `Padded`. |
| Conversation.AppendField | realtime_client/conversation.py:227-231 | A missing slot field starts as `""`, then grows by the fragment; the slot's other fields and its type are unchanged. |
| Conversation.ContentDeltaShape | realtime_client/conversation.py:225-231 | An index-addressed delta: slot count is `max(old, index + 1)`, new slots are empty, other old slots are unchanged, and the addressed field grows by the fragment. |
| Conversation.ContentDeltasSlot | realtime_client/conversation.py:225-231 | After a run of text, transcript or audio deltas on one slot, the slot's raw field is its old value (or `""`) followed by all fragments in arrival order. |
| Conversation.ContentDeltasFormatted | realtime_client/conversation.py:217-262 | After such a run, the formatted text or transcript is the old value followed by all fragments in order, and the formatted audio is the old audio followed by their decodings. The other formatted fields are unchanged. |
| Conversation.ArgumentsDeltasConcatenate | realtime_client/conversation.py:264-279 | After a run of argument deltas, the item's arguments and its tool's arguments are the old value followed by all fragments in order. |
| Conversation.TranscriptionSentinel | realtime_client/conversation.py:142-161 | The slot gets the raw transcript. The formatted transcript equals it, or `" "` when it is empty, so it is never empty. Other slots and the formatted audio and text are unchanged. |
| Conversation.TruncatedIsPrefix | realtime_client/conversation.py:124-130 | Truncation clears the formatted transcript. The formatted audio becomes its prefix of length `min(len, ms * 24)`. |
| Conversation.TruncatedIdempotent | realtime_client/conversation.py:124-130 | Truncating twice at one mark equals truncating once. |
| Conversation.TruncatedTwice | realtime_client/conversation.py:124-130 | Two truncations equal one truncation at the earlier mark. |
| Conversation.Without | realtime_client/conversation.py:139 | The filtered id list holds exactly the old ids other than the removed one. |
| Conversation.WithoutRemovesOne | realtime_client/conversation.py:139 | On a duplicate-free list, the filter drops exactly the entry at its position and keeps the order of the rest. |
| Conversation.WithoutKeepsDistinct | realtime_client/conversation.py:139 | The filter keeps the id list duplicate-free. |
| Conversation.Placeholder | realtime_client/conversation.py:64-69 | A placeholder has the given id, empty content, empty formatted audio/text/transcript, status `in_progress`, and no type. |
| Conversation.TextParts | realtime_client/conversation.py:92-94 | The comprehension keeps only `text` and `input_text` parts. |
| Conversation.CreatedTextIsConcatenation | realtime_client/conversation.py:91-96 | When every text part has text, the formatted text is the in-order concatenation of the texts of the `text`/`input_text` parts. |
| Conversation.JoinTextStops | realtime_client/conversation.py:95-96 | Once a text part without text raises, later parts contribute nothing. |
| Conversation.CollectText | realtime_client/conversation.py:91-96 | The comprehension and the loop give the joined text. An untyped part raises before any text is added. A text part without text raises after the texts before it were added. |
| Conversation.ProjectCreated | realtime_client/conversation.py:81-120 | The creation steps, in source order, compute exactly `Created`. |
| Conversation.CreatedFailsOnSpeechWithoutAudio | realtime_client/conversation.py:86-90 | A queued speech entry without audio makes creation raise before any queue is consumed; the formatted projection stays empty. |
| Conversation.CreatedProjection | realtime_client/conversation.py:75-122 | For a well-formed payload, creation does not raise and consumes the speech and transcript entries exactly when they exist. It sets the formatted text to the text-part concatenation. By type and role: a user message is `completed` and takes the non-empty queued input audio; any other message is `in_progress`; a function call is `in_progress` with tool arguments `""`; a function call output is `completed` with its output copied. |
| Conversation.StoppedSpeechSlice | realtime_client/conversation.py:168-182 | Speech-stopped records the end mark. With a non-empty buffer the audio is `buffer[start*24 : end*24]`; with no prior start the slice is empty; with an empty buffer no audio is stored. |
| Conversation.RealtimeConversation.constructor | realtime_client/conversation.py:16-17 | A new engine has empty stores and queues. |
| Conversation.RealtimeConversation.Clear | realtime_client/conversation.py:19-27 | Every store and queue is emptied. |
| Conversation.RealtimeConversation.QueueInputAudio | realtime_client/conversation.py:29-31 | The slot holds the given audio, which is returned. |
| Conversation.RealtimeConversation.GetItem | realtime_client/conversation.py:52-53 | An item is found exactly when its id is in the lookup, and the found item carries that id. |
| Conversation.RealtimeConversation.GetItems | realtime_client/conversation.py:55-56 | Items come back in list order, one per listed id. |
| Conversation.RealtimeConversation.EnsureItemExists | realtime_client/conversation.py:58-72 | An unknown id adds exactly one placeholder to both lookup and list. A known id changes nothing. Store consistency is kept. |
| Conversation.RealtimeConversation.ItemCreated | realtime_client/conversation.py:75-122 | A new id is appended once and stored with the projection (partial on a `KeyError`). A known id leaves both stores unchanged. The queues are consumed as `Created` says, and store consistency is kept. |
| Conversation.RealtimeConversation.ItemTruncated | realtime_client/conversation.py:124-130 | The (possibly new placeholder) item is replaced by its truncation. |
| Conversation.RealtimeConversation.ItemDeleted | realtime_client/conversation.py:132-140 | A known id leaves lookup and list and the item is returned. An unknown id changes nothing and returns `(None, None)`. |
| Conversation.RealtimeConversation.TranscriptionCompleted | realtime_client/conversation.py:142-161 | Pads, then stores the transcript as `TranscriptionApplied` says and returns it as the fragment. An item without content raises. |
| Conversation.RealtimeConversation.SpeechStarted | realtime_client/conversation.py:163-166 | The entry for the id is replaced by one holding only the start mark. |
| Conversation.RealtimeConversation.SpeechStopped | realtime_client/conversation.py:168-182 | The entry (created from the end mark if absent) becomes `StoppedSpeech` of the given buffer. |
| Conversation.RealtimeConversation.ResponseCreated | realtime_client/conversation.py:184-189 | A new response is registered once. A known id changes nothing, so replays are idempotent. |
| Conversation.RealtimeConversation.OutputItemAdded | realtime_client/conversation.py:191-200 | A known response gets the item id appended to its output. An unknown response is ignored. |
| Conversation.RealtimeConversation.OutputItemDone | realtime_client/conversation.py:202-210 | An absent item raises with nothing changed. Otherwise the payload's keys are merged into the (possibly new) item, and a payload without `status` then raises. |
| Conversation.RealtimeConversation.ContentPartAdded | realtime_client/conversation.py:212-215 | The part is appended at the end of the content. |
| Conversation.RealtimeConversation.ContentDelta | realtime_client/conversation.py:217-262 | The shared delta body: the item becomes `ContentDeltaApplied`, and an item without content raises. |
| Conversation.RealtimeConversation.AudioTranscriptDelta | realtime_client/conversation.py:217-233 | Grows the slot transcript and the formatted transcript, and returns only the fragment. |
| Conversation.RealtimeConversation.AudioDelta | realtime_client/conversation.py:235-248 | The slot keeps the base64 text and the projection gets the decoded bytes, which are returned. |
| Conversation.RealtimeConversation.TextDelta | realtime_client/conversation.py:250-262 | Grows the slot text and the formatted text, and returns only the fragment. |
| Conversation.RealtimeConversation.ArgumentsDelta | realtime_client/conversation.py:264-279 | Grows the item's arguments and the tool's arguments (creating the tool as `{"arguments": ""}`), and returns only the fragment. |
| Conversation.RealtimeConversation.ProcessEvent | realtime_client/conversation.py:33-50 | A missing `event_id` or `type`, or a type without a processor, raises and changes nothing. So does an extra argument the processor does not take. Otherwise the new state and the result are exactly `ProcessorEffect` of the looked-up processor on the old state. |
| Conversation.RealtimeConversation.Route | realtime_client/conversation.py:44-50 | The new state and the result are exactly `ProcessorEffect`: a payload of the wrong shape raises the `KeyError` of the processor's first key and changes nothing; otherwise the processor's effect on the stores and queues and its outcome, as its method states. Store consistency is kept. |
| Conversation.RealtimeConversation.RouteItemEvent | realtime_client/conversation.py:75-189 | For the item-created, truncated, deleted, transcription-completed, speech-started, speech-stopped and response-created processors, the state and result are `ItemEventEffect`. |
| Conversation.RealtimeConversation.RouteDeltaEvent | realtime_client/conversation.py:217-262 | For the transcript, audio and text delta processors, the state and result are `DeltaEventEffect`: an item without content raises, otherwise the slot and formatted field grow. |
| Conversation.RealtimeConversation.RouteOutputEvent | realtime_client/conversation.py:191-216 | For the output-item-added, output-item-done and content-part-added processors, and the function-arguments delta processor of lines 264-279, the state and result are `OutputEventEffect`. |
| Events.Subscribed | realtime_client/event_handler.py:17-31 | `on`/`on_next` append the callback to the end of the name's list, creating it if absent. No other name changes. |
| Events.RemoveFirst | realtime_client/event_handler.py:39 | `list.remove` takes away exactly one occurrence of the callback: the first one, with the order of the rest kept. |
| Events.Unsubscribed | realtime_client/event_handler.py:33-61 | Removal raises exactly when a named callback is not in the list, including for an unknown name. A named callback loses one occurrence and the emptied list stays. Without a callback the whole name goes. Other names are unchanged. |
| Events.OffUndoesOn | realtime_client/event_handler.py:17-46 | `off` right after `on` of a new callback restores the list. |
| Events.RunAllInvokesPrefix | realtime_client/event_handler.py:82-84 | A run invokes a prefix of the snapshot it was given, all of it when nothing raises, whatever listeners do to the stored list meanwhile. |
| Events.RunAllStops | realtime_client/event_handler.py:83-84 | After a listener raises, no later listener runs or changes anything. |
| Events.RunAllInert | realtime_client/event_handler.py:83-88 | Listeners that call nothing are all invoked in order and change nothing. |
| Events.DispatchInert | realtime_client/event_handler.py:81-90 | A dispatch invokes the durable then the one-shot listeners of the name. It keeps the durable registry and drops the name's one-shot list, so a second dispatch invokes only the durable ones. |
| Events.OneShotFromDurableRunsNow | realtime_client/event_handler.py:81-90 | A one-shot listener registered by a durable listener during the dispatch runs in that same dispatch, because the pop happens after the durable phase. |
| Events.DurableFromDurableWaits | realtime_client/event_handler.py:81-84 | A durable listener registered by a durable listener during the dispatch does not run in it, because the durable list is copied first. It runs from the next dispatch on. |
| Events.OneShotFromOneShotWaits | realtime_client/event_handler.py:86-88 | A one-shot listener registered by a one-shot listener waits for the next dispatch. |
| Events.EventHandler.ClearEventHandlers | realtime_client/event_handler.py:12-15 | Both registries become empty. |
| Events.EventHandler.On | realtime_client/event_handler.py:17-23 | The durable registry becomes `Subscribed`. |
| Events.EventHandler.OnNext | realtime_client/event_handler.py:25-31 | The one-shot registry becomes `Subscribed`. |
| Events.EventHandler.Off | realtime_client/event_handler.py:33-46 | The durable registry becomes `Unsubscribed`, or stays and the error is returned. |
| Events.EventHandler.OffNext | realtime_client/event_handler.py:48-61 | The same for the one-shot registry. |
| Events.EventHandler.Call | realtime_client/event_handler.py:17-61 | One call a listener makes into the bus has exactly the effect `ApplyOp` gives it. |
| Events.EventHandler.Perform | realtime_client/event_handler.py:83-88 | A listener's calls into the bus take effect in order, up to the first that raises. |
| Events.EventHandler.RunListeners | realtime_client/event_handler.py:83-84 | The `for` loop over a listener list invokes, changes and raises exactly as `RunAll` says. |
| Events.EventHandler.Dispatch | realtime_client/event_handler.py:81-90 | The invoked ids, the new registries and the outcome are exactly `DispatchSpec`: the snapshot of durable listeners first, then the one-shot list popped after them. |
| Client.RealtimeApi.Send | realtime_client/api.py:153-171 | Sending while disconnected raises `ConnectionError` and sends nothing. Otherwise exactly one event is appended to the outbox. |
| Client.RealtimeApi.Disconnect | realtime_client/api.py:81-85 | The connection is closed. |
| Client.TurnDetectionTypeAsWritten | realtime_client/client.py:379-380 | The lookup raises exactly when `turn_detection` is present but not an object (for example `None`). Otherwise it yields the configured `type`. |
| Client.TurnDetectionType | realtime_client/client.py:379-380 | The intended lookup: `None` (or any non-object) means no turn detection. It agrees with the code wherever the code does not raise. |
| Client.DefaultTurnDetectionRaises | realtime_client/client.py:186 | On the default configuration the lookup as written raises; the intended reading is "no turn detection". |
| Client.MergedConfig | realtime_client/client.py:409 | Only non-`None` arguments overwrite; every other key keeps its value. |
| Client.MergeNeverRestoresNone | realtime_client/client.py:409 | Once `turn_detection` is not `None`, no session update can put `None` back. |
| Client.ToolName | realtime_client/client.py:385-387 | A tool name exists exactly when the definition's `name` is a non-empty string. |
| Client.ToolsWithout | realtime_client/client.py:401 | Deleting a tool keeps exactly the entries with other names. |
| Client.ToolsWithoutDistinct | realtime_client/client.py:398-402 | Deleting keeps tool names unique. |
| Client.RemoveUndoesAdd | realtime_client/client.py:382-402 | Removing a tool right after adding it restores the registry, order included. |
| Client.Tagged | realtime_client/client.py:412 | A sent definition is the definition plus `type: function`; a `type` in the definition overrides the tag. |
| Client.RegisteredDefinitions | realtime_client/client.py:411-413 | One tagged definition per registered tool, in registration order. |
| Client.PassedTools | realtime_client/client.py:411 | A missing or falsy `tools` argument counts as the empty list, and a list argument is used as is. |
| Client.SessionPayload | realtime_client/client.py:415 | The sent session is the configuration with `tools` replaced by the passed tools followed by the registered definitions. |
| Client.AudioEndMs | realtime_client/client.py:494-496 | The truncation mark is the sample count in whole milliseconds, rounded down. |
| Client.FirstAudio | realtime_client/client.py:484-488 | The outcome of the search, defined part by part: the first audio part, or the untyped part the generator raises on, or no audio part. |
| Client.FirstAudioPart | realtime_client/client.py:484-488 | The scan finds the first audio part, or the untyped part the generator raises on, or reports that there is no audio part. Its result equals `FirstAudio`, since only one outcome fits a given content. |
| Client.RealtimeClient.constructor | realtime_client/client.py:214-219 | A new client starts from the reset configuration. |
| Client.RealtimeClient.ResetConfig | realtime_client/client.py:214-219 | Not created, no tools, the default configuration and an empty buffer. |
| Client.RealtimeClient.Disconnect | realtime_client/client.py:373-377 | Not created and connection closed. All seven conversation stores and queues are empty. The tool registry and buffer stay. |
| Client.RealtimeClient.GetTurnDetectionType | realtime_client/client.py:379-380 | The as-written lookup on the current configuration, which raises on the defaults. |
| Client.RealtimeClient.UpdateSession | realtime_client/client.py:408-420 | The configuration becomes `MergedConfig`. A `session.update` carrying `SessionPayload` is sent only when connected. A non-list `tools` argument raises after the merge. |
| Client.RealtimeClient.AddTool | realtime_client/client.py:382-396 | Checks, in order: a missing name, a duplicate name, a non-callable handler, each raising with nothing changed. A named, unregistered tool with a callable handler always succeeds. On success the tool is registered last and one `session.update` is sent if connected. |
| Client.RealtimeClient.RemoveTool | realtime_client/client.py:398-402 | An unknown name raises. Otherwise only that entry goes and nothing is sent. |
| Client.RealtimeClient.AppendInputAudio | realtime_client/client.py:445-454 | Empty audio does nothing. Otherwise, when connected, exactly one `input_audio_buffer.append` carrying the encoded audio is sent and the buffer becomes old ++ audio. When disconnected the send raises first and the buffer is unchanged. |
| Client.RealtimeClient.CreateResponse | realtime_client/client.py:456-463 | Without turn detection and with buffered audio: commit, queue the buffer in the conversation and empty it. `response.create` is always the last event sent. |
| Client.RealtimeClient.CancelResponse | realtime_client/client.py:465-499 | With no id, one `response.cancel` and no item. Unknown, non-message and non-assistant items raise without sending. For an assistant message: disconnected raises with nothing sent. Otherwise `response.cancel` is sent first. Then, by the first-audio search: a truncate at that part with `AudioEndMs` of the sample count, returning the item; or `KeyError` for missing content or an untyped part, or `NoAudioPart`, with no truncate. |
| Client.RealtimeClient.Send | realtime_client/client.py:501-505 | Returns false and sends nothing when disconnected. Otherwise it sends exactly one event. |

## Findings

| source | as written | input that shows it | evidently intended | confidence | as-written member | corrected member |
|---|---|---|---|---|---|---|
| realtime_client/client.py:379-380 | `session_config.get("turn_detection", {}).get("type")` calls `.get` on the stored value, and the default stores `None` (realtime_client/client.py:186). | `create_response()` after `_reset_config`, i.e. on `DefaultSessionConfig`: the lookup raises `AttributeError`, so no response is requested and the buffer is never committed. | A `None` setting means "no turn detection", so the commit-then-create path runs. | not executed; follows from Python's `dict.get` semantics | Client.TurnDetectionTypeAsWritten, Client.DefaultTurnDetectionRaises | Client.TurnDetectionType (used by Client.RealtimeClient.CreateResponse) |

## Left out

- Websocket I/O is not modelled: connecting, the receive pump, the ping monitor, the `create_task(ws.send(...))` of `realtime_client/api.py`, and the relay server in `relay.py`.
- Client.RealtimeApi.Send: does not stamp an `event_id` or dispatch the local `client.<type>` and `client.*` events. The outbox records the type and the data only.
- `wait_for_next` is not modelled (futures and timeouts).
- These client members are not modelled because they are asynchronous or only wire callbacks:
  - `connect`, `reset`, `wait_for_session_created`, `wait_for_next_item`, `wait_for_next_completed_item`;
  - `_call_tool` and the callback wiring in `_add_api_event_handlers`;
  - `send_user_message_content` and `delete_item`, which are not part of this model.
- The client's own listener registry is not modelled. It is inherited from `RealtimeEventHandler`, which `Events` models on its own.
- Base64 encoding and decoding are not modelled. They are function-valued constants whose bodies are not known (`decodeBase64`, `encodeBase64`).
- Logging is not modelled.
- Client.AudioEndMs: computed in exact arithmetic. The code computes `int(sample_count / 24000 * 1000)` in floating point, which can round a whole millisecond down by one.
- Events.EventHandler.Dispatch: a listener's effect is limited to `on`, `on_next`, `off`, `off_next` and raising. A listener that itself dispatches (nested dispatch) is not modelled.
- Client.ToolName: a truthy `name` that is not a string is treated as missing. Tool names are modelled as strings.
- Conversation.RealtimeConversation.ItemCreated: a queued transcript entry is modelled as its text. The core never writes that queue, so the `KeyError` on an entry without `transcript` is not modelled.
- Event payloads are not modelled as free-form dictionaries:
  - Keys the protocol always sends (an item's `id` and `type`, `item_id`, `content_index`, the millisecond marks, `delta`, `transcript`) are typed fields.
  - A payload of the wrong shape raises the `KeyError` of the first key its processor reads.
  - Negative indices and marks are not modelled.
- Conversation.Merged: `update` copies only the modelled item keys. Other upstream keys are not represented.

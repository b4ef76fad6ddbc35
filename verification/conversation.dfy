/**
 * The conversation reconstruction engine (`RealtimeConversation`): it folds the upstream
 * server events into an item store, a response store, two pending queues keyed by item id
 * and one queued input-audio slot.
 *
 * The Python item dictionaries are shared between `item_lookup` and the ordered `items`
 * list; here `items` holds the ids and `itemLookup` the records, so an update through the
 * lookup is seen through the list as well.
 */
module Conversation {
  import opened Wrappers

  /** Sample rate of every audio stream: 24,000 samples per second. */
  const DefaultFrequency: nat := 24000

  // ---------------------------------------------------------------------------
  // Records
  // ---------------------------------------------------------------------------

  /**
   * One content part. Upstream parts carry a `type`; the empty parts written by padding
   * carry no key at all. `audio` is the base64 text as received, not decoded bytes.
   */
  datatype Part = Part(partType: Option<string>, text: Option<string>, audio: Option<string>, transcript: Option<string>)

  /** The `{}` written into each slot that padding adds. */
  const EmptyPart := Part(None, None, None, None)

  /** The tool descriptor of a function call; only `arguments` is always present. */
  datatype Tool = Tool(toolType: Option<string>, name: Option<string>, callId: Option<string>, arguments: string)

  /** The derived `formatted` projection of an item. */
  datatype Formatted = Formatted(audio: seq<Byte>, text: string, transcript: string, tool: Option<Tool>, output: Option<string>)

  const EmptyFormatted := Formatted([], "", "", None, None)

  /** A stored item. Keys that an item may lack are options. */
  datatype Item = Item(
    id: string,
    itemType: Option<string>,
    role: Option<string>,
    status: Option<string>,
    content: Option<seq<Part>>,
    name: Option<string>,
    callId: Option<string>,
    arguments: Option<string>,
    output: Option<string>,
    formatted: Formatted)

  /** An item as the upstream sends it in `conversation.item.created` and `response.output_item.*`. */
  datatype ItemPayload = ItemPayload(
    id: string,
    itemType: string,
    role: Option<string>,
    status: Option<string>,
    content: Option<seq<Part>>,
    name: Option<string>,
    callId: Option<string>,
    arguments: Option<string>,
    output: Option<string>)

  /** A response: its id, status and the ids appended to its `output` list. */
  datatype Response = Response(id: string, status: Option<string>, output: seq<string>)

  /** A pending speech segment: millisecond marks and, once sliced, its audio. */
  datatype Speech = Speech(startMs: nat, endMs: Option<nat>, audio: Option<seq<Byte>>)

  /** The incremental fragment a delta processor returns. */
  datatype Delta =
    | NewText(text: string)
    | NewTranscript(transcript: string)
    | NewAudio(audio: seq<Byte>)
    | NewArguments(arguments: string)

  /** What a processor returns: the item it touched (if any) and the fragment (if any). */
  datatype Outcome = Outcome(item: Option<Item>, delta: Option<Delta>)

  /**
   * The exceptions the engine raises: the two `ValueError`s for a malformed envelope, the one
   * for an unknown event type, the `TypeError` of a processor called with the wrong number
   * of arguments, the `KeyError` of a read of an absent key, and the `ValueError` of an
   * output-item-done event without an item.
   */
  datatype Error =
    | MissingEventId
    | MissingEventType
    | NoProcessor(eventType: string)
    | ArgumentMismatch
    | MissingKey(key: string)
    | MissingItem

  /** The payload of a server event, one shape per processor. */
  datatype Payload =
    | ItemCreatedPayload(item: ItemPayload)
    | ItemTruncatedPayload(itemId: string, audioEndMs: nat)
    | ItemDeletedPayload(itemId: string)
    | TranscriptionCompletedPayload(itemId: string, contentIndex: nat, transcript: string)
    | SpeechStartedPayload(itemId: string, audioStartMs: nat)
    | SpeechStoppedPayload(itemId: string, audioEndMs: nat)
    | ResponseCreatedPayload(response: Response)
    | OutputItemAddedPayload(responseId: string, addedItem: ItemPayload)
    | OutputItemDonePayload(doneItem: Option<ItemPayload>)
    | ContentPartAddedPayload(itemId: string, part: Part)
    | ContentDeltaPayload(itemId: string, contentIndex: nat, delta: string)
    | ArgumentsDeltaPayload(itemId: string, delta: string)
    | OtherPayload

  /** A server event: the envelope's `event_id` and `type`, and its payload. */
  datatype Event = Event(eventId: Option<string>, eventType: Option<string>, payload: Payload)

  /** The processors of the dispatch table. */
  datatype Processor =
    | ItemCreatedProc | ItemTruncatedProc | ItemDeletedProc | TranscriptionCompletedProc
    | SpeechStartedProc | SpeechStoppedProc | ResponseCreatedProc | OutputItemAddedProc
    | OutputItemDoneProc | ContentPartAddedProc | AudioTranscriptDeltaProc | AudioDeltaProc
    | TextDeltaProc | ArgumentsDeltaProc

  /** The dispatch table, keyed by the upstream event type. */
  const Processors: map<string, Processor> := map[
    "conversation.item.created" := ItemCreatedProc,
    "conversation.item.truncated" := ItemTruncatedProc,
    "conversation.item.deleted" := ItemDeletedProc,
    "conversation.item.input_audio_transcription.completed" := TranscriptionCompletedProc,
    "input_audio_buffer.speech_started" := SpeechStartedProc,
    "input_audio_buffer.speech_stopped" := SpeechStoppedProc,
    "response.created" := ResponseCreatedProc,
    "response.output_item.added" := OutputItemAddedProc,
    "response.output_item.done" := OutputItemDoneProc,
    "response.content_part.added" := ContentPartAddedProc,
    "response.audio_transcript.delta" := AudioTranscriptDeltaProc,
    "response.audio.delta" := AudioDeltaProc,
    "response.text.delta" := TextDeltaProc,
    "response.function_call_arguments.delta" := ArgumentsDeltaProc
  ]

  /** The key each processor reads first, named in the `KeyError` of a payload of the wrong shape. */
  function FirstKey(k: Processor): string
  {
    match k
    case ItemCreatedProc => "item"
    case OutputItemAddedProc => "response_id"
    case OutputItemDoneProc => "item"
    case ResponseCreatedProc => "response"
    case _ => "item_id"
  }

  // ---------------------------------------------------------------------------
  // Sequences, slices and sample offsets
  // ---------------------------------------------------------------------------

  function Min(a: int, b: int): int { if a <= b then a else b }

  function Max(a: int, b: int): int { if a <= b then b else a }

  function GetOr(o: Option<string>, default: string): string
  {
    match o
    case Some(v) => v
    case None => default
  }

  /** The byte offset of a millisecond mark, `int((ms * 24000) / 1000)`: exact for whole milliseconds. */
  function SampleIndex(ms: nat): (r: nat)
    ensures r * 1000 == ms * DefaultFrequency
  {
    ms * 24
  }

  /** Python's `s[lo:hi]` for non-negative bounds: both bounds are clamped to `|s|`. */
  function Slice<T>(s: seq<T>, lo: nat, hi: nat): (r: seq<T>)
    ensures |r| == Max(0, Min(hi, |s|) - Min(lo, |s|))
    ensures forall k :: 0 <= k < |r| ==> r[k] == s[lo + k]
  {
    var a := Min(lo, |s|);
    var b := Min(hi, |s|);
    if a <= b then s[a..b] else []
  }

  ghost predicate Distinct(s: seq<string>)
  {
    forall i, j :: 0 <= i < j < |s| ==> s[i] != s[j]
  }

  /** `order` lists every key of `lookup` exactly once. */
  ghost predicate Indexes<V>(order: seq<string>, lookup: map<string, V>)
  {
    Distinct(order) && (forall id :: id in order <==> id in lookup)
  }

  /** The list comprehension `[i for i in s if i["id"] != x]` on ids. */
  function Without(s: seq<string>, x: string): (r: seq<string>)
    ensures forall y :: y in r <==> y in s && y != x
    ensures |r| <= |s|
  {
    if s == [] then [] else (if s[0] == x then [] else [s[0]]) + Without(s[1..], x)
  }

  /** Removing an id from a duplicate-free list leaves a duplicate-free list. */
  lemma {:induction false} WithoutKeepsDistinct(s: seq<string>, x: string)
    requires Distinct(s)
    ensures Distinct(Without(s, x))
  {
    if s != [] {
      DistinctTail(s);
      WithoutKeepsDistinct(s[1..], x);
      var t := Without(s[1..], x);
      if s[0] != x {
        assert s[0] !in t;
        DistinctCons(s[0], t);
      } else {
        assert [] + t == t;
      }
    }
  }

  lemma DistinctTail(s: seq<string>)
    requires Distinct(s) && s != []
    ensures Distinct(s[1..]) && s[0] !in s[1..]
  {
    forall i, j | 0 <= i < j < |s[1..]| ensures s[1..][i] != s[1..][j] {
      assert s[1..][i] == s[i + 1] && s[1..][j] == s[j + 1];
    }
    forall k | 0 <= k < |s[1..]| ensures s[1..][k] != s[0] {
      assert s[1..][k] == s[k + 1];
    }
  }

  lemma DistinctCons(a: string, t: seq<string>)
    requires Distinct(t) && a !in t
    ensures Distinct([a] + t)
  {
    var u := [a] + t;
    forall i, j | 0 <= i < j < |u| ensures u[i] != u[j] {
      assert u[j] == t[j - 1];
      if i > 0 {
        assert u[i] == t[i - 1];
      }
    }
  }

  /** Removing a listed id from a duplicate-free list drops exactly that entry and keeps the order of the rest. */
  lemma {:induction false} WithoutRemovesOne(s: seq<string>, k: nat)
    requires Distinct(s) && k < |s|
    ensures Without(s, s[k]) == s[..k] + s[k + 1..]
  {
    DistinctTail(s);
    if k == 0 {
      WithoutAbsent(s[1..], s[0]);
      assert Without(s, s[0]) == [] + Without(s[1..], s[0]);
    } else {
      var t := s[1..];
      assert t[k - 1] == s[k];
      assert s[0] != s[k];
      assert Without(s, s[k]) == [s[0]] + Without(t, s[k]);
      WithoutRemovesOne(t, k - 1);
      assert t[..k - 1] == s[1..k] && t[k..] == s[k + 1..];
      assert Without(s, s[k]) == [s[0]] + (s[1..k] + s[k + 1..]);
      assert s[..k] == [s[0]] + s[1..k];
      assert [s[0]] + (s[1..k] + s[k + 1..]) == ([s[0]] + s[1..k]) + s[k + 1..];
    }
  }

  /** Removing an id that is not listed changes nothing. */
  lemma {:induction false} WithoutAbsent(s: seq<string>, x: string)
    requires x !in s
    ensures Without(s, x) == s
  {
    if s != [] {
      assert s[1..] + [] == s[1..];
      WithoutAbsent(s[1..], x);
      assert s == [s[0]] + s[1..];
    }
  }

  // ---------------------------------------------------------------------------
  // Index-addressed content
  // ---------------------------------------------------------------------------

  /** The content list after `while len(content) <= index: content.append({})`. */
  function Padded(content: seq<Part>, index: nat): (r: seq<Part>)
    ensures |r| == Max(|content|, index + 1)
    ensures r[..|content|] == content
    ensures forall i :: |content| <= i < |r| ==> r[i] == EmptyPart
  {
    if index < |content| then content else content + seq(index + 1 - |content|, _ => EmptyPart)
  }

  /** The padding loop of the transcription and delta processors. */
  method PadContent(content: seq<Part>, index: nat) returns (padded: seq<Part>)
    ensures padded == Padded(content, index)
  {
    padded := content;
    while |padded| <= index
      invariant |content| <= |padded| <= Max(|content|, index + 1)
      invariant padded == content + seq(|padded| - |content|, _ => EmptyPart)
      decreases index + 1 - |padded|
    {
      padded := padded + [EmptyPart];
    }
  }

  /** The three string fields of a part that deltas grow. */
  datatype Field = TextField | AudioField | TranscriptField

  function FieldOf(p: Part, f: Field): Option<string>
  {
    match f
    case TextField => p.text
    case AudioField => p.audio
    case TranscriptField => p.transcript
  }

  /** Pads the content up to `index` and grows the slot's field by the fragment. */
  method AppendToSlot(content: seq<Part>, f: Field, index: nat, delta: string) returns (r: seq<Part>)
    ensures index < |r|
    ensures r == Padded(content, index)[index := AppendField(Padded(content, index)[index], f, delta)]
  {
    r := PadContent(content, index);
    r := r[index := AppendField(r[index], f, delta)];
  }

  /** Pads the item's content, grows the addressed slot by the fragment and the projection by the fragment or its decoding. */
  method GrowSlot(item: Item, f: Field, index: nat, delta: string, decoded: seq<Byte>) returns (r: Item)
    requires item.content.Some?
    ensures r == ContentDeltaApplied(item, f, index, delta, decoded)
  {
    var content := AppendToSlot(item.content.value, f, index, delta);
    r := item.(content := Some(content), formatted := WithFormatted(item.formatted, f, delta, decoded));
  }

  /** `if f not in part: part[f] = ""` followed by `part[f] += delta`. */
  function AppendField(p: Part, f: Field, delta: string): (r: Part)
    ensures FieldOf(r, f) == Some(GetOr(FieldOf(p, f), "") + delta)
    ensures forall g :: g != f ==> FieldOf(r, g) == FieldOf(p, g)
    ensures r.partType == p.partType
  {
    var v := GetOr(FieldOf(p, f), "") + delta;
    match f
    case TextField => p.(text := Some(v))
    case AudioField => p.(audio := Some(v))
    case TranscriptField => p.(transcript := Some(v))
  }

  /** The field of the `formatted` projection that a delta on field `f` grows. */
  function WithFormatted(fm: Formatted, f: Field, delta: string, decoded: seq<Byte>): Formatted
  {
    match f
    case TextField => fm.(text := fm.text + delta)
    case AudioField => fm.(audio := fm.audio + decoded)
    case TranscriptField => fm.(transcript := fm.transcript + delta)
  }

  /**
   * An index-addressed delta applied to an item that has a content list: pad up to `index`,
   * grow slot `index` by the raw fragment and the formatted field by the fragment (by the
   * decoded bytes for audio).
   */
  function ContentDeltaApplied(item: Item, f: Field, index: nat, delta: string, decoded: seq<Byte>): (r: Item)
    requires item.content.Some?
    ensures r.id == item.id && r.content.Some?
  {
    var c := Padded(item.content.value, index);
    item.(content := Some(c[index := AppendField(c[index], f, delta)]),
          formatted := WithFormatted(item.formatted, f, delta, decoded))
  }

  /**
   * An index-addressed delta leaves `max(old length, index + 1)` slots, fills new slots
   * with empty parts, grows the addressed slot's field and changes no other slot.
   */
  lemma ContentDeltaShape(item: Item, f: Field, index: nat, delta: string, decoded: seq<Byte>)
    requires item.content.Some?
    ensures var r := ContentDeltaApplied(item, f, index, delta, decoded);
      var old_ := item.content.value;
      && r.content.Some?
      && |r.content.value| == Max(|old_|, index + 1)
      && (forall i :: 0 <= i < |old_| && i != index ==> r.content.value[i] == old_[i])
      && (forall i :: |old_| <= i < |r.content.value| && i != index ==> r.content.value[i] == EmptyPart)
      && FieldOf(r.content.value[index], f) == Some(GetOr(if index < |old_| then FieldOf(old_[index], f) else None, "") + delta)
      && r.id == item.id && r.status == item.status && r.itemType == item.itemType
  {
    var c := Padded(item.content.value, index);
    assert forall i :: 0 <= i < |item.content.value| ==> c[i] == c[..|item.content.value|][i];
  }

  /** Applies a run of fragments, in arrival order, to the same slot and field. */
  function ContentDeltas(item: Item, f: Field, index: nat, deltas: seq<string>, decode: string -> seq<Byte>): (r: Item)
    requires item.content.Some?
    ensures r.content.Some?
    decreases |deltas|
  {
    if deltas == [] then item
    else ContentDeltas(ContentDeltaApplied(item, f, index, deltas[0], decode(deltas[0])), f, index, deltas[1..], decode)
  }

  function Concat(ss: seq<string>): string
  {
    if ss == [] then "" else ss[0] + Concat(ss[1..])
  }

  function ConcatDecoded(ss: seq<string>, decode: string -> seq<Byte>): seq<Byte>
  {
    if ss == [] then [] else decode(ss[0]) + ConcatDecoded(ss[1..], decode)
  }

  /** The slot field a delta grows, as the processor reads it before appending: `""` when absent. */
  function SlotValue(item: Item, f: Field, index: nat): string
    requires item.content.Some?
  {
    GetOr(if index < |item.content.value| then FieldOf(item.content.value[index], f) else None, "")
  }

  /** One delta leaves the addressed slot in place and grows its field by the fragment. */
  lemma SlotGrows(item: Item, f: Field, index: nat, delta: string, decoded: seq<Byte>)
    requires item.content.Some?
    ensures var r := ContentDeltaApplied(item, f, index, delta, decoded);
      && index < |r.content.value|
      && FieldOf(r.content.value[index], f) == Some(SlotValue(item, f, index) + delta)
      && SlotValue(r, f, index) == SlotValue(item, f, index) + delta
  {
    ContentDeltaShape(item, f, index, delta, decoded);
  }

  /**
   * After a run of text, transcript or audio fragments on one slot, the slot's raw field is
   * its old value followed by the raw fragments in arrival order.
   */
  lemma {:induction false} ContentDeltasSlot(item: Item, f: Field, index: nat, deltas: seq<string>, decode: string -> seq<Byte>)
    requires item.content.Some? && deltas != []
    decreases |deltas|
    ensures var r := ContentDeltas(item, f, index, deltas, decode);
      && index < |r.content.value|
      && FieldOf(r.content.value[index], f) == Some(SlotValue(item, f, index) + Concat(deltas))
  {
    var next := ContentDeltaApplied(item, f, index, deltas[0], decode(deltas[0]));
    SlotGrows(item, f, index, deltas[0], decode(deltas[0]));
    var before := SlotValue(item, f, index);
    assert Concat(deltas) == deltas[0] + Concat(deltas[1..]);
    if |deltas| == 1 {
      assert ContentDeltas(item, f, index, deltas, decode) == next;
      assert deltas[0] + "" == deltas[0];
    } else {
      ContentDeltasSlot(next, f, index, deltas[1..], decode);
      assert SlotValue(next, f, index) == before + deltas[0];
      assert before + deltas[0] + Concat(deltas[1..]) == before + (deltas[0] + Concat(deltas[1..]));
    }
  }

  /**
   * After a run of fragments on one slot, the formatted text or transcript is the old value
   * followed by the fragments in arrival order, and the formatted audio is the old audio
   * followed by their decodings; the other formatted fields are unchanged.
   */
  lemma {:induction false} ContentDeltasFormatted(item: Item, f: Field, index: nat, deltas: seq<string>, decode: string -> seq<Byte>)
    requires item.content.Some?
    decreases |deltas|
    ensures var r := ContentDeltas(item, f, index, deltas, decode);
      && r.formatted.text == item.formatted.text + (if f == TextField then Concat(deltas) else "")
      && r.formatted.transcript == item.formatted.transcript + (if f == TranscriptField then Concat(deltas) else "")
      && r.formatted.audio == item.formatted.audio + (if f == AudioField then ConcatDecoded(deltas, decode) else [])
  {
    if deltas == [] {
      assert item.formatted.text + "" == item.formatted.text;
      assert item.formatted.transcript + "" == item.formatted.transcript;
      assert item.formatted.audio + [] == item.formatted.audio;
    } else {
      var next := ContentDeltaApplied(item, f, index, deltas[0], decode(deltas[0]));
      assert next.formatted == WithFormatted(item.formatted, f, deltas[0], decode(deltas[0]));
      ContentDeltasFormatted(next, f, index, deltas[1..], decode);
      assert Concat(deltas) == deltas[0] + Concat(deltas[1..]);
      assert ConcatDecoded(deltas, decode) == decode(deltas[0]) + ConcatDecoded(deltas[1..], decode);
      match f
      case TextField =>
        assert item.formatted.text + deltas[0] + Concat(deltas[1..]) == item.formatted.text + Concat(deltas);
      case TranscriptField =>
        assert item.formatted.transcript + deltas[0] + Concat(deltas[1..]) == item.formatted.transcript + Concat(deltas);
      case AudioField =>
        assert item.formatted.audio + decode(deltas[0]) + ConcatDecoded(deltas[1..], decode) == item.formatted.audio + ConcatDecoded(deltas, decode);
    }
  }

  /** `response.function_call_arguments.delta`: the item's arguments and its tool descriptor's arguments both grow. */
  function ArgumentsDeltaApplied(item: Item, delta: string): Item
  {
    var tool := match item.formatted.tool
      case Some(t) => t
      case None => Tool(None, None, None, "");
    item.(arguments := Some(GetOr(item.arguments, "") + delta),
          formatted := item.formatted.(tool := Some(tool.(arguments := tool.arguments + delta))))
  }

  function ArgumentsDeltas(item: Item, deltas: seq<string>): Item
    decreases |deltas|
  {
    if deltas == [] then item else ArgumentsDeltas(ArgumentsDeltaApplied(item, deltas[0]), deltas[1..])
  }

  /** The accumulated arguments are the fragments in arrival order, on the item and on its tool descriptor. */
  lemma {:induction false} ArgumentsDeltasConcatenate(item: Item, deltas: seq<string>)
    requires deltas != []
    decreases |deltas|
    ensures var r := ArgumentsDeltas(item, deltas);
      && r.arguments == Some(GetOr(item.arguments, "") + Concat(deltas))
      && r.formatted.tool.Some?
      && r.formatted.tool.value.arguments
         == (if item.formatted.tool.Some? then item.formatted.tool.value.arguments else "") + Concat(deltas)
      && r.content == item.content && r.formatted.text == item.formatted.text
  {
    var next := ArgumentsDeltaApplied(item, deltas[0]);
    assert Concat(deltas) == deltas[0] + Concat(deltas[1..]);
    assert ArgumentsDeltas(item, deltas) == ArgumentsDeltas(next, deltas[1..]);
    if |deltas| > 1 {
      ArgumentsDeltasConcatenate(next, deltas[1..]);
      var before := GetOr(item.arguments, "");
      assert next.arguments == Some(before + deltas[0]);
      assert before + deltas[0] + Concat(deltas[1..]) == before + (deltas[0] + Concat(deltas[1..]));
      var tb := if item.formatted.tool.Some? then item.formatted.tool.value.arguments else "";
      assert next.formatted.tool.value.arguments == tb + deltas[0];
      assert tb + deltas[0] + Concat(deltas[1..]) == tb + (deltas[0] + Concat(deltas[1..]));
    } else {
      assert deltas[1..] == [];
      assert ArgumentsDeltas(next, deltas[1..]) == next;
      assert Concat(deltas[1..]) == "";
      assert deltas[0] + "" == deltas[0];
    }
  }

  /** Two updates of one key leave the map as the second update alone would. */
  lemma SameKeyUpdates<V>(m: map<string, V>, k: string, a: V, b: V)
    ensures m[k := a][k := b] == m[k := b]
  {
  }

  /** `conversation.item.input_audio_transcription.completed` on an item that has content. */
  function TranscriptionApplied(item: Item, index: nat, transcript: string): (r: Item)
    requires item.content.Some?
    ensures r.id == item.id
  {
    var c := Padded(item.content.value, index);
    item.(content := Some(c[index := c[index].(transcript := Some(transcript))]),
          formatted := item.formatted.(transcript := if transcript == "" then " " else transcript))
  }

  /** Pads the content up to `index`, stores the raw transcript in the slot and the formatted one in the projection. */
  method StoreTranscript(item: Item, index: nat, transcript: string, formattedTranscript: string) returns (r: Item)
    requires item.content.Some?
    requires formattedTranscript == if transcript == "" then " " else transcript
    ensures r == TranscriptionApplied(item, index, transcript)
  {
    var content := PadContent(item.content.value, index);
    content := content[index := content[index].(transcript := Some(transcript))];
    r := item.(content := Some(content), formatted := item.formatted.(transcript := formattedTranscript));
  }

  /**
   * The slot keeps the raw transcript; the formatted transcript is the same text, or a single
   * space when the transcript is empty, so it is never empty afterwards.
   */
  lemma TranscriptionSentinel(item: Item, index: nat, transcript: string)
    requires item.content.Some?
    ensures var r := TranscriptionApplied(item, index, transcript);
      && |r.content.value| == Max(|item.content.value|, index + 1)
      && r.content.value[index].transcript == Some(transcript)
      && (forall i :: 0 <= i < |item.content.value| && i != index ==> r.content.value[i] == item.content.value[i])
      && r.formatted.transcript != ""
      && (transcript != "" ==> r.formatted.transcript == transcript)
      && r.formatted.audio == item.formatted.audio && r.formatted.text == item.formatted.text
  {
    var c := Padded(item.content.value, index);
    assert forall i :: 0 <= i < |item.content.value| ==> c[i] == c[..|item.content.value|][i];
  }

  /** `conversation.item.truncated`: the transcript is cleared and the audio cut at `ms * 24` bytes. */
  function Truncated(item: Item, audioEndMs: nat): Item
  {
    item.(formatted := item.formatted.(transcript := "", audio := Slice(item.formatted.audio, 0, SampleIndex(audioEndMs))))
  }

  /** Truncation keeps the leading `min(len, ms * 24)` bytes and nothing else of the formatted audio or transcript. */
  lemma TruncatedIsPrefix(item: Item, audioEndMs: nat)
    ensures var r := Truncated(item, audioEndMs);
      && r.formatted.transcript == ""
      && |r.formatted.audio| == Min(|item.formatted.audio|, audioEndMs * 24)
      && r.formatted.audio == item.formatted.audio[..|r.formatted.audio|]
      && r.content == item.content && r.formatted.text == item.formatted.text && r.status == item.status
  {
  }

  /** Truncating twice at the same mark is truncating once. */
  lemma TruncatedIdempotent(item: Item, audioEndMs: nat)
    ensures Truncated(Truncated(item, audioEndMs), audioEndMs) == Truncated(item, audioEndMs)
  {
    var a := item.formatted.audio;
    var n := Min(|a|, audioEndMs * 24);
    assert Slice(a, 0, SampleIndex(audioEndMs)) == a[..n];
    assert Slice(a[..n], 0, SampleIndex(audioEndMs)) == a[..n][..n];
  }

  /** `conversation.item.truncated` shortens the audio to at most the earlier of two marks when applied twice. */
  lemma TruncatedTwice(item: Item, first: nat, second: nat)
    ensures Truncated(Truncated(item, first), second) == Truncated(item, Min(first, second))
  {
    var a := item.formatted.audio;
    var n1 := Min(|a|, first * 24);
    var n2 := Min(n1, second * 24);
    assert Slice(a, 0, SampleIndex(first)) == a[..n1];
    assert Slice(a[..n1], 0, SampleIndex(second)) == a[..n2];
    assert Slice(a, 0, SampleIndex(Min(first, second))) == a[..n2];
  }

  /** `response.output_item.done`: `found_item.update(item)` overwrites each key the payload carries. */
  function Merged(item: Item, p: ItemPayload): Item
  {
    Item(item.id, Some(p.itemType),
      if p.role.Some? then p.role else item.role,
      if p.status.Some? then p.status else item.status,
      if p.content.Some? then p.content else item.content,
      if p.name.Some? then p.name else item.name,
      if p.callId.Some? then p.callId else item.callId,
      if p.arguments.Some? then p.arguments else item.arguments,
      if p.output.Some? then p.output else item.output,
      item.formatted)
  }

  // ---------------------------------------------------------------------------
  // Item creation
  // ---------------------------------------------------------------------------

  /** An unknown id referenced by an event becomes this placeholder. */
  function Placeholder(id: string): (item: Item)
    ensures item.id == id && item.content == Some([]) && item.status == Some("in_progress")
    ensures item.formatted == EmptyFormatted && item.itemType.None?
  {
    Item(id, None, None, Some("in_progress"), Some([]), None, None, None, None, EmptyFormatted)
  }

  /** `item.copy()` with a fresh, empty `formatted` projection. */
  function FromPayload(p: ItemPayload): Item
  {
    Item(p.id, Some(p.itemType), p.role, p.status, p.content, p.name, p.callId, p.arguments, p.output, EmptyFormatted)
  }

  predicate IsTextPart(p: Part)
  {
    p.partType == Some("text") || p.partType == Some("input_text")
  }

  predicate AllTyped(parts: seq<Part>)
  {
    forall i :: 0 <= i < |parts| ==> parts[i].partType.Some?
  }

  /** `[c for c in content if c["type"] in ["text", "input_text"]]`, for parts that all carry a type. */
  function TextParts(parts: seq<Part>): (r: seq<Part>)
    ensures forall i :: 0 <= i < |r| ==> IsTextPart(r[i])
    ensures |r| <= |parts|
  {
    if parts == [] then []
    else TextParts(parts[..|parts| - 1]) + (if IsTextPart(parts[|parts| - 1]) then [parts[|parts| - 1]] else [])
  }

  /**
   * `formatted["text"] += content["text"]` over the text parts: the accumulated text and
   * whether every part had a `text` key; accumulation stops at the first part that lacks one.
   */
  function JoinText(parts: seq<Part>): (string, bool)
  {
    if parts == [] then ("", true)
    else
      var prefix := JoinText(parts[..|parts| - 1]);
      var last := parts[|parts| - 1];
      if !prefix.1 || last.text.None? then (prefix.0, false) else (prefix.0 + last.text.value, true)
  }

  /** Independent reference: the concatenation of the texts of the text parts, read from the left. */
  function TextOfParts(parts: seq<Part>): string
  {
    if parts == [] then ""
    else (if IsTextPart(parts[0]) && parts[0].text.Some? then parts[0].text.value else "") + TextOfParts(parts[1..])
  }

  predicate TextPartsHaveText(parts: seq<Part>)
  {
    forall i :: 0 <= i < |parts| && IsTextPart(parts[i]) ==> parts[i].text.Some?
  }

  lemma {:induction false} TextOfPartsSnoc(parts: seq<Part>, p: Part)
    ensures TextOfParts(parts + [p]) == TextOfParts(parts) + TextOfParts([p])
  {
    if parts == [] {
      assert parts + [p] == [p];
    } else {
      assert (parts + [p])[1..] == parts[1..] + [p];
      TextOfPartsSnoc(parts[1..], p);
    }
  }

  /**
   * When every text part carries its text, the formatted text of a created item is the
   * in-order concatenation of the texts of its `text` and `input_text` parts.
   */
  lemma {:induction false} CreatedTextIsConcatenation(parts: seq<Part>)
    requires TextPartsHaveText(parts)
    ensures JoinText(TextParts(parts)) == (TextOfParts(parts), true)
  {
    if parts != [] {
      var init := parts[..|parts| - 1];
      var last := parts[|parts| - 1];
      assert parts == init + [last];
      assert TextPartsHaveText(init) by {
        forall i | 0 <= i < |init| && IsTextPart(init[i]) ensures init[i].text.Some? {
          assert init[i] == parts[i];
        }
      }
      CreatedTextIsConcatenation(init);
      TextOfPartsSnoc(init, last);
      assert TextOfParts([last]) == (if IsTextPart(last) then last.text.value else "") + TextOfParts([]);
      TextPartsSnoc(parts);
      assert [last][1..] == [];
      if IsTextPart(last) {
        assert last.text.Some?;
        JoinTextSnoc(TextParts(init), last);
        assert TextParts(parts) == TextParts(init) + [last];
        assert JoinText(TextParts(parts)) == (TextOfParts(init) + last.text.value, true);
        assert TextOfParts([last]) == last.text.value + "";
        assert TextOfParts(parts) == TextOfParts(init) + last.text.value;
      } else {
        assert TextParts(parts) == TextParts(init) + [] == TextParts(init);
        assert TextOfParts([last]) == "" + "";
        assert TextOfParts(parts) == TextOfParts(init) + "";
        assert TextOfParts(init) + "" == TextOfParts(init);
      }
    }
  }

  lemma TextPartsSnoc(parts: seq<Part>)
    requires parts != []
    ensures TextParts(parts) == TextParts(parts[..|parts| - 1]) + (if IsTextPart(parts[|parts| - 1]) then [parts[|parts| - 1]] else [])
  {
  }

  lemma JoinTextSnoc(ps: seq<Part>, p: Part)
    ensures JoinText(ps + [p]) == (if !JoinText(ps).1 || p.text.None? then (JoinText(ps).0, false) else (JoinText(ps).0 + p.text.value, true))
  {
    assert (ps + [p])[..|ps + [p]| - 1] == ps;
  }

  /** Once a text part without text has been met, later parts change nothing. */
  lemma {:induction false} JoinTextStops(parts: seq<Part>, i: nat)
    requires i <= |parts| && !JoinText(parts[..i]).1
    ensures JoinText(parts) == JoinText(parts[..i])
    decreases |parts| - i
  {
    if i < |parts| {
      assert parts[..i + 1][..i] == parts[..i];
      JoinTextStops(parts, i + 1);
    } else {
      assert parts[..i] == parts;
    }
  }

  /**
   * The comprehension and the `for` loop of item creation: the formatted text, or the
   * `KeyError` for a part without a type (before any text is added) or a text part without
   * text (after the texts before it were added).
   */
  method CollectText(parts: seq<Part>) returns (text: string, err: Option<Error>)
    ensures !AllTyped(parts) ==> text == "" && err == Some(MissingKey("type"))
    ensures AllTyped(parts) ==> text == JoinText(TextParts(parts)).0
    ensures AllTyped(parts) ==> (err.None? <==> JoinText(TextParts(parts)).1)
    ensures AllTyped(parts) && err.Some? ==> err == Some(MissingKey("text"))
  {
    text := "";
    var textParts: seq<Part> := [];
    var i := 0;
    while i < |parts|
      invariant 0 <= i <= |parts|
      invariant AllTyped(parts[..i])
      invariant textParts == TextParts(parts[..i])
    {
      if parts[i].partType.None? {
        err := Some(MissingKey("type"));
        return;
      }
      assert parts[..i + 1][..i] == parts[..i];
      if IsTextPart(parts[i]) {
        textParts := textParts + [parts[i]];
      }
      i := i + 1;
    }
    assert parts[..i] == parts;
    var j := 0;
    while j < |textParts|
      invariant 0 <= j <= |textParts|
      invariant JoinText(textParts[..j]) == (text, true)
    {
      assert textParts[..j + 1][..j] == textParts[..j];
      if textParts[j].text.None? {
        JoinTextStops(textParts, j + 1);
        err := Some(MissingKey("text"));
        return;
      }
      text := text + textParts[j].text.value;
      j := j + 1;
    }
    assert textParts[..j] == textParts;
    err := None;
  }

  /** What `conversation.item.created` computes: the projected item, the error raised (if any), and which queues it consumed. */
  datatype Creation = Creation(item: Item, error: Option<Error>, speechTaken: bool, transcriptTaken: bool, inputAudioTaken: bool)

  function WithAudio(item: Item, audio: seq<Byte>): Item
  {
    item.(formatted := item.formatted.(audio := audio))
  }

  /** The type- and role-dependent tail of item creation (from `if new_item["type"] == "message"` on). */
  function Classified(item: Item, p: ItemPayload, inputAudio: Option<seq<Byte>>, s: bool, t: bool): (c: Creation)
    ensures c.item.id == item.id
  {
    if p.itemType == "message" then
      if p.role.None? then Creation(item, Some(MissingKey("role")), s, t, false)
      else if p.role.value == "user" then
        var taken := inputAudio.Some? && inputAudio.value != [];
        var completed := item.(status := Some("completed"));
        Creation(if taken then WithAudio(completed, inputAudio.value) else completed, None, s, t, taken)
      else Creation(item.(status := Some("in_progress")), None, s, t, false)
    else if p.itemType == "function_call" then
      if p.name.None? then Creation(item, Some(MissingKey("name")), s, t, false)
      else if p.callId.None? then Creation(item, Some(MissingKey("call_id")), s, t, false)
      else
        var tool := Tool(Some("function"), p.name, p.callId, "");
        Creation(item.(formatted := item.formatted.(tool := Some(tool)), status := Some("in_progress")), None, s, t, false)
    else if p.itemType == "function_call_output" then
      var completed := item.(status := Some("completed"));
      if p.output.None? then Creation(completed, Some(MissingKey("output")), s, t, false)
      else Creation(completed.(formatted := completed.formatted.(output := p.output)), None, s, t, false)
    else Creation(item, None, s, t, false)
  }

  /** The whole of `conversation.item.created` as a value: the steps in source order, each able to raise. */
  function Created(p: ItemPayload, speech: map<string, Speech>, transcripts: map<string, string>, inputAudio: Option<seq<Byte>>): (c: Creation)
    ensures c.item.id == p.id
    ensures c.speechTaken ==> p.id in speech
    ensures c.transcriptTaken ==> p.id in transcripts
  {
    var item0 := FromPayload(p);
    if p.id in speech && speech[p.id].audio.None? then Creation(item0, Some(MissingKey("audio")), false, false, false)
    else
      var s := p.id in speech;
      var item1 := if s then WithAudio(item0, speech[p.id].audio.value) else item0;
      if p.content.Some? && !AllTyped(p.content.value) then Creation(item1, Some(MissingKey("type")), s, false, false)
      else
        var joined := if p.content.Some? then JoinText(TextParts(p.content.value)) else ("", true);
        var item2 := item1.(formatted := item1.formatted.(text := joined.0));
        if !joined.1 then Creation(item2, Some(MissingKey("text")), s, false, false)
        else
          var t := p.id in transcripts;
          var item3 := if t then item2.(formatted := item2.formatted.(transcript := transcripts[p.id])) else item2;
          Classified(item3, p, inputAudio, s, t)
  }

  /** A queued speech entry without audio makes creation fail before anything is consumed. */
  lemma CreatedFailsOnSpeechWithoutAudio(p: ItemPayload, speech: map<string, Speech>, transcripts: map<string, string>, inputAudio: Option<seq<Byte>>)
    requires p.id in speech && speech[p.id].audio.None?
    ensures var c := Created(p, speech, transcripts, inputAudio);
      c.error == Some(MissingKey("audio")) && !c.speechTaken && !c.transcriptTaken && !c.inputAudioTaken
      && c.item.formatted == EmptyFormatted
  {
  }

  /** The payload has everything creation reads: typed parts, texts, and the keys its type needs. */
  predicate WellFormed(p: ItemPayload)
  {
    && (p.content.Some? ==> AllTyped(p.content.value) && TextPartsHaveText(p.content.value))
    && (p.itemType == "message" ==> p.role.Some?)
    && (p.itemType == "function_call" ==> p.name.Some? && p.callId.Some?)
    && (p.itemType == "function_call_output" ==> p.output.Some?)
  }

  /**
   * Creation from a well-formed payload raises nothing unless a queued speech entry lacks
   * audio; it then consumes the speech and transcript entries for the id exactly when they
   * exist, sets the formatted text to the text parts' concatenation, and sets status and
   * projection by type and role: a user message is completed and takes the queued input
   * audio when there is some, any other message is in progress, a function call is in
   * progress with empty tool arguments, and a function call output is completed with its
   * output copied.
   */
  lemma CreatedProjection(p: ItemPayload, speech: map<string, Speech>, transcripts: map<string, string>, inputAudio: Option<seq<Byte>>)
    requires WellFormed(p)
    requires p.id in speech ==> speech[p.id].audio.Some?
    ensures var c := Created(p, speech, transcripts, inputAudio);
      && c.error.None?
      && c.item.id == p.id
      && c.speechTaken == (p.id in speech)
      && c.transcriptTaken == (p.id in transcripts)
      && c.item.formatted.text == (if p.content.Some? then TextOfParts(p.content.value) else "")
      && c.item.formatted.transcript == (if p.id in transcripts then transcripts[p.id] else "")
      && c.inputAudioTaken == (p.itemType == "message" && p.role == Some("user") && inputAudio.Some? && inputAudio.value != [])
      && c.item.formatted.audio
         == (if c.inputAudioTaken then inputAudio.value else if p.id in speech then speech[p.id].audio.value else [])
      && (p.itemType == "message" && p.role == Some("user") ==> c.item.status == Some("completed"))
      && (p.itemType == "message" && p.role != Some("user") ==> c.item.status == Some("in_progress"))
      && (p.itemType == "function_call" ==>
            c.item.status == Some("in_progress")
            && c.item.formatted.tool == Some(Tool(Some("function"), p.name, p.callId, "")))
      && (p.itemType == "function_call_output" ==>
            c.item.status == Some("completed") && c.item.formatted.output == p.output)
  {
    var item0 := FromPayload(p);
    var item1 := if p.id in speech then WithAudio(item0, speech[p.id].audio.value) else item0;
    var text := "";
    if p.content.Some? {
      CreatedTextIsConcatenation(p.content.value);
      text := JoinText(TextParts(p.content.value)).0;
    }
    var item2 := item1.(formatted := item1.formatted.(text := text));
    var item3 := if p.id in transcripts then item2.(formatted := item2.formatted.(transcript := transcripts[p.id])) else item2;
    assert Created(p, speech, transcripts, inputAudio) == Classified(item3, p, inputAudio, p.id in speech, p.id in transcripts);
    ClassifiedProjection(item3, p, inputAudio, p.id in speech, p.id in transcripts);
  }

  /** The type- and role-dependent part of creation, for a payload that has the keys its type needs. */
  lemma ClassifiedProjection(item: Item, p: ItemPayload, inputAudio: Option<seq<Byte>>, s: bool, t: bool)
    requires p.itemType == "message" ==> p.role.Some?
    requires p.itemType == "function_call" ==> p.name.Some? && p.callId.Some?
    requires p.itemType == "function_call_output" ==> p.output.Some?
    ensures var c := Classified(item, p, inputAudio, s, t);
      && c.error.None? && c.speechTaken == s && c.transcriptTaken == t
      && c.item.formatted.text == item.formatted.text && c.item.formatted.transcript == item.formatted.transcript
      && c.inputAudioTaken == (p.itemType == "message" && p.role == Some("user") && inputAudio.Some? && inputAudio.value != [])
      && c.item.formatted.audio == (if c.inputAudioTaken then inputAudio.value else item.formatted.audio)
      && (p.itemType == "message" && p.role == Some("user") ==> c.item.status == Some("completed"))
      && (p.itemType == "message" && p.role != Some("user") ==> c.item.status == Some("in_progress"))
      && (p.itemType == "function_call" ==>
            c.item.status == Some("in_progress")
            && c.item.formatted.tool == Some(Tool(Some("function"), p.name, p.callId, "")))
      && (p.itemType == "function_call_output" ==>
            c.item.status == Some("completed") && c.item.formatted.output == p.output)
  {
    if p.itemType == "message" {
      if p.role.value == "user" {
        assert p.role == Some("user");
      } else {
        assert p.role != Some("user");
      }
    }
  }

  /**
   * The projection steps of `conversation.item.created` in source order, on the queues'
   * current contents: the queued speech audio, the text of the text parts, the queued
   * transcript, then the type- and role-dependent part.
   */
  method ProjectCreated(p: ItemPayload, speech: map<string, Speech>, transcripts: map<string, string>, inputAudio: Option<seq<Byte>>)
    returns (c: Creation)
    ensures c == Created(p, speech, transcripts, inputAudio)
  {
    var item := FromPayload(p);
    var speechTaken := false;
    if p.id in speech {
      if speech[p.id].audio.None? {
        return Creation(item, Some(MissingKey("audio")), false, false, false);
      }
      item := WithAudio(item, speech[p.id].audio.value);
      speechTaken := true;
    }
    if p.content.Some? {
      var text, err := CollectText(p.content.value);
      item := item.(formatted := item.formatted.(text := text));
      if err.Some? {
        return Creation(item, err, speechTaken, false, false);
      }
    }
    var transcriptTaken := p.id in transcripts;
    if transcriptTaken {
      item := item.(formatted := item.formatted.(transcript := transcripts[p.id]));
    }
    c := Classified(item, p, inputAudio, speechTaken, transcriptTaken);
  }

  // ---------------------------------------------------------------------------
  // What one routed event does to the engine's state
  // ---------------------------------------------------------------------------

  /** The engine's seven stores and queues, as values. */
  datatype Store = Store(
    itemLookup: map<string, Item>,
    items: seq<string>,
    responseLookup: map<string, Response>,
    responses: seq<string>,
    queuedSpeechItems: map<string, Speech>,
    queuedTranscriptItems: map<string, string>,
    queuedInputAudio: Option<seq<Byte>>)

  /** The state after a processor ran, and what it returned or raised. */
  datatype Processed = Processed(store: Store, result: Result<Outcome, Error>)

  /** The item an event about `id` works on: the stored one, or the placeholder it creates. */
  function ExistingIn(s: Store, id: string): Item
  {
    if id in s.itemLookup then s.itemLookup[id] else Placeholder(id)
  }

  /** `item` stored under `id`, the id listed at the end if it was not stored before. */
  function Put(s: Store, id: string, item: Item): Store
  {
    s.(itemLookup := s.itemLookup[id := item],
       items := if id in s.itemLookup then s.items else s.items + [id])
  }

  /** A processor that stored `edited` under `id` and returns it with the fragment `delta`. */
  function Edited(s: Store, id: string, edited: Item, delta: Option<Delta>): Processed
  {
    Processed(Put(s, id, edited), Ok(Outcome(Some(edited), delta)))
  }

  /** The payload has the shape processor `k` reads; otherwise its first read raises a `KeyError`. */
  predicate Fits(k: Processor, payload: Payload)
  {
    match k
    case ItemCreatedProc => payload.ItemCreatedPayload?
    case ItemTruncatedProc => payload.ItemTruncatedPayload?
    case ItemDeletedProc => payload.ItemDeletedPayload?
    case TranscriptionCompletedProc => payload.TranscriptionCompletedPayload?
    case SpeechStartedProc => payload.SpeechStartedPayload?
    case SpeechStoppedProc => payload.SpeechStoppedPayload?
    case ResponseCreatedProc => payload.ResponseCreatedPayload?
    case OutputItemAddedProc => payload.OutputItemAddedPayload?
    case OutputItemDoneProc => payload.OutputItemDonePayload?
    case ContentPartAddedProc => payload.ContentPartAddedPayload?
    case AudioTranscriptDeltaProc | AudioDeltaProc | TextDeltaProc => payload.ContentDeltaPayload?
    case ArgumentsDeltaProc => payload.ArgumentsDeltaPayload?
  }

  /** The processors of conversation-item, transcription, speech and response-creation events. */
  predicate IsItemEvent(k: Processor)
  {
    k in {ItemCreatedProc, ItemTruncatedProc, ItemDeletedProc, TranscriptionCompletedProc,
          SpeechStartedProc, SpeechStoppedProc, ResponseCreatedProc}
  }

  /** The processors of streamed text, transcript and audio deltas. */
  predicate IsDeltaEvent(k: Processor)
  {
    k in {AudioTranscriptDeltaProc, AudioDeltaProc, TextDeltaProc}
  }

  /**
   * What processor `k` does with `payload` on the state `s`: a payload of another shape
   * raises the `KeyError` of the processor's first key and changes nothing.
   */
  function ProcessorEffect(k: Processor, payload: Payload, extra: Option<seq<Byte>>, decode: string -> seq<Byte>, s: Store): Processed
    requires extra.Some? <==> k == SpeechStoppedProc
  {
    if !Fits(k, payload) then Processed(s, Err(MissingKey(FirstKey(k))))
    else if IsItemEvent(k) then ItemEventEffect(k, payload, extra, s)
    else if IsDeltaEvent(k) then DeltaEventEffect(k, payload, decode, s)
    else OutputEventEffect(k, payload, s)
  }

  /** The effect of the conversation-item, transcription, speech and response-creation processors. */
  function ItemEventEffect(k: Processor, payload: Payload, extra: Option<seq<Byte>>, s: Store): Processed
    requires IsItemEvent(k) && Fits(k, payload)
    requires extra.Some? <==> k == SpeechStoppedProc
  {
    match k
    case ItemCreatedProc =>
      var p := payload.item;
      var c := Created(p, s.queuedSpeechItems, s.queuedTranscriptItems, s.queuedInputAudio);
      var known := p.id in s.itemLookup;
      Processed(
        s.(itemLookup := if known then s.itemLookup else s.itemLookup[p.id := c.item],
           items := if known then s.items else s.items + [p.id],
           queuedSpeechItems := if c.speechTaken then s.queuedSpeechItems - {p.id} else s.queuedSpeechItems,
           queuedTranscriptItems := if c.transcriptTaken then s.queuedTranscriptItems - {p.id} else s.queuedTranscriptItems,
           queuedInputAudio := if c.inputAudioTaken then None else s.queuedInputAudio),
        if c.error.Some? then Err(c.error.value) else Ok(Outcome(Some(c.item), None)))
    case ItemTruncatedProc =>
      Edited(s, payload.itemId, Truncated(ExistingIn(s, payload.itemId), payload.audioEndMs), None)
    case ItemDeletedProc =>
      var id := payload.itemId;
      if id in s.itemLookup
      then Processed(s.(itemLookup := s.itemLookup - {id}, items := Without(s.items, id)), Ok(Outcome(Some(s.itemLookup[id]), None)))
      else Processed(s, Ok(Outcome(None, None)))
    case TranscriptionCompletedProc =>
      var base := ExistingIn(s, payload.itemId);
      if base.content.None? then Processed(s, Err(MissingKey("content")))
      else Edited(s, payload.itemId, TranscriptionApplied(base, payload.contentIndex, payload.transcript),
             Some(NewTranscript(payload.transcript)))
    case SpeechStartedProc =>
      Processed(s.(queuedSpeechItems := s.queuedSpeechItems[payload.itemId := Speech(payload.audioStartMs, None, None)]),
        Ok(Outcome(None, None)))
    case SpeechStoppedProc =>
      var id := payload.itemId;
      var start := if id in s.queuedSpeechItems then s.queuedSpeechItems[id] else Speech(payload.audioEndMs, None, None);
      Processed(s.(queuedSpeechItems := s.queuedSpeechItems[id := StoppedSpeech(start, payload.audioEndMs, extra.value)]),
        Ok(Outcome(None, None)))
    case ResponseCreatedProc =>
      var resp := payload.response;
      var known := resp.id in s.responseLookup;
      Processed(
        s.(responseLookup := if known then s.responseLookup else s.responseLookup[resp.id := resp],
           responses := if known then s.responses else s.responses + [resp.id]),
        Ok(Outcome(None, None)))
  }

  /** The effect of the streamed content-delta processors: the slot and formatted field grow. */
  function DeltaEventEffect(k: Processor, payload: Payload, decode: string -> seq<Byte>, s: Store): Processed
    requires IsDeltaEvent(k) && Fits(k, payload)
  {
    var base := ExistingIn(s, payload.itemId);
    var d := payload.delta;
    if base.content.None? then Processed(s, Err(MissingKey("content")))
    else match k
      case AudioTranscriptDeltaProc =>
        Edited(s, payload.itemId, ContentDeltaApplied(base, TranscriptField, payload.contentIndex, d, []), Some(NewTranscript(d)))
      case AudioDeltaProc =>
        Edited(s, payload.itemId, ContentDeltaApplied(base, AudioField, payload.contentIndex, d, decode(d)), Some(NewAudio(decode(d))))
      case TextDeltaProc =>
        Edited(s, payload.itemId, ContentDeltaApplied(base, TextField, payload.contentIndex, d, []), Some(NewText(d)))
  }

  /** The effect of the output-item, content-part and function-arguments processors. */
  function OutputEventEffect(k: Processor, payload: Payload, s: Store): Processed
    requires !IsItemEvent(k) && !IsDeltaEvent(k) && Fits(k, payload)
  {
    match k
    case OutputItemAddedProc =>
      var rl := s.responseLookup;
      var rid := payload.responseId;
      Processed(
        if rid in rl then s.(responseLookup := rl[rid := rl[rid].(output := rl[rid].output + [payload.addedItem.id])]) else s,
        Ok(Outcome(None, None)))
    case OutputItemDoneProc =>
      if payload.doneItem.None? then Processed(s, Err(MissingItem))
      else
        var p := payload.doneItem.value;
        var merged := Merged(ExistingIn(s, p.id), p);
        Processed(Put(s, p.id, merged), if p.status.None? then Err(MissingKey("status")) else Ok(Outcome(Some(merged), None)))
    case ContentPartAddedProc =>
      var base := ExistingIn(s, payload.itemId);
      if base.content.None? then Processed(s, Err(MissingKey("content")))
      else Edited(s, payload.itemId, base.(content := Some(base.content.value + [payload.part])), None)
    case ArgumentsDeltaProc =>
      Edited(s, payload.itemId, ArgumentsDeltaApplied(ExistingIn(s, payload.itemId), payload.delta), Some(NewArguments(payload.delta)))
  }

  // ---------------------------------------------------------------------------
  // The engine
  // ---------------------------------------------------------------------------

  class RealtimeConversation {
    var itemLookup: map<string, Item>
    var items: seq<string>
    var responseLookup: map<string, Response>
    var responses: seq<string>
    var queuedSpeechItems: map<string, Speech>
    var queuedTranscriptItems: map<string, string>
    var queuedInputAudio: Option<seq<Byte>>

    /** The base64 decoder used for audio deltas (a library call whose body is not modelled). */
    const decodeBase64: string -> seq<Byte>

    /** The item list and the lookup hold the same ids, once each, keyed by their own id; likewise for responses. */
    ghost predicate Valid()
      reads this`itemLookup, this`items, this`responseLookup, this`responses
    {
      && Indexes(items, itemLookup)
      && (forall id :: id in itemLookup ==> itemLookup[id].id == id)
      && Indexes(responses, responseLookup)
      && (forall id :: id in responseLookup ==> responseLookup[id].id == id)
    }

    /** The stores and queues as a value. */
    ghost function Snapshot(): Store
      reads this
    {
      Store(itemLookup, items, responseLookup, responses, queuedSpeechItems, queuedTranscriptItems, queuedInputAudio)
    }

    /** The item an event about `id` works on: the stored one, or the placeholder it would create. */
    function Existing(id: string): Item
      reads this
    {
      if id in itemLookup then itemLookup[id] else Placeholder(id)
    }

    constructor (decode: string -> seq<Byte>)
      ensures Valid()
      ensures decodeBase64 == decode
      ensures itemLookup == map[] && items == [] && responseLookup == map[] && responses == []
      ensures queuedSpeechItems == map[] && queuedTranscriptItems == map[] && queuedInputAudio.None?
    {
      decodeBase64 := decode;
      itemLookup, items := map[], [];
      responseLookup, responses := map[], [];
      queuedSpeechItems, queuedTranscriptItems := map[], map[];
      queuedInputAudio := None;
    }

    /** `clear`: every store and queue is emptied. */
    method Clear() returns (r: bool)
      modifies this
      ensures Valid() && r
      ensures itemLookup == map[] && items == [] && responseLookup == map[] && responses == []
      ensures queuedSpeechItems == map[] && queuedTranscriptItems == map[] && queuedInputAudio.None?
    {
      itemLookup, items := map[], [];
      responseLookup, responses := map[], [];
      queuedSpeechItems, queuedTranscriptItems := map[], map[];
      queuedInputAudio := None;
      r := true;
    }

    /** `queue_input_audio`: the slot holds the given audio, whatever it held before. */
    method QueueInputAudio(inputAudio: seq<Byte>) returns (r: seq<Byte>)
      modifies this`queuedInputAudio
      ensures queuedInputAudio == Some(inputAudio) && r == inputAudio
    {
      queuedInputAudio := Some(inputAudio);
      r := inputAudio;
    }

    /** `get_item`: the stored item with this id, if any. */
    function GetItem(id: string): (r: Option<Item>)
      reads this
      requires Valid()
      ensures r.Some? <==> id in itemLookup
      ensures r.Some? ==> r.value.id == id && id in items
    {
      if id in itemLookup then Some(itemLookup[id]) else None
    }

    /** `get_items`: the items in list order. */
    function GetItems(): (r: seq<Item>)
      reads this
      requires Valid()
      ensures |r| == |items|
      ensures forall i :: 0 <= i < |r| ==> r[i].id == items[i]
    {
      seq(|items|, i requires 0 <= i < |items| && items[i] in itemLookup reads this => itemLookup[items[i]])
    }

    /**
     * `_ensure_item_exists`: an unknown id gets exactly one placeholder, added to the lookup
     * and appended to the list; a known id changes nothing.
     */
    method EnsureItemExists(itemId: string) returns (item: Item)
      requires Valid()
      modifies this`itemLookup, this`items
      ensures Valid()
      ensures item == old(Existing(itemId)) && item.id == itemId
      ensures itemLookup == old(itemLookup)[itemId := item]
      ensures items == if itemId in old(itemLookup) then old(items) else old(items) + [itemId]
      ensures itemId in old(itemLookup) ==> itemLookup == old(itemLookup)
    {
      if itemId in itemLookup {
        item := itemLookup[itemId];
      } else {
        item := Placeholder(itemId);
        Insert(item);
      }
    }

    /** A new item is stored under its id and appended to the list. */
    method Insert(item: Item)
      requires Valid() && item.id !in itemLookup
      modifies this`itemLookup, this`items
      ensures Valid()
      ensures itemLookup == old(itemLookup)[item.id := item] && items == old(items) + [item.id]
    {
      itemLookup := itemLookup[item.id := item];
      items := items + [item.id];
    }

    /** The record stored under a known id is updated in place; the list, which holds the id, is unaffected. */
    method Replace(item: Item)
      requires Valid() && item.id in itemLookup
      modifies this`itemLookup
      ensures Valid()
      ensures itemLookup == old(itemLookup)[item.id := item]
    {
      itemLookup := itemLookup[item.id := item];
    }

    /** The queue entries item creation used up: the id's speech and transcript entries and the queued input audio. */
    method Consume(id: string, speech: bool, transcript: bool, inputAudio: bool)
      modifies this`queuedSpeechItems, this`queuedTranscriptItems, this`queuedInputAudio
      ensures queuedSpeechItems == if speech then old(queuedSpeechItems) - {id} else old(queuedSpeechItems)
      ensures queuedTranscriptItems == if transcript then old(queuedTranscriptItems) - {id} else old(queuedTranscriptItems)
      ensures queuedInputAudio == if inputAudio then None else old(queuedInputAudio)
    {
      if speech {
        queuedSpeechItems := queuedSpeechItems - {id};
      }
      if transcript {
        queuedTranscriptItems := queuedTranscriptItems - {id};
      }
      if inputAudio {
        queuedInputAudio := None;
      }
    }

    /**
     * `conversation.item.created`. A new id is appended to the list and stored; a known id
     * leaves both stores as they were and only the returned copy gets the projection. The
     * queued speech, transcript and input audio are consumed as `Created` says, even when the
     * id is known; on a `KeyError` a new id keeps the partly projected item.
     */
    method ItemCreated(p: ItemPayload) returns (r: Result<Outcome, Error>)
      requires Valid()
      modifies this`itemLookup, this`items, this`queuedSpeechItems, this`queuedTranscriptItems, this`queuedInputAudio
      ensures Valid()
      ensures var c := Created(p, old(queuedSpeechItems), old(queuedTranscriptItems), old(queuedInputAudio));
        && itemLookup == (if p.id in old(itemLookup) then old(itemLookup) else old(itemLookup)[p.id := c.item])
        && items == (if p.id in old(itemLookup) then old(items) else old(items) + [p.id])
        && queuedSpeechItems == (if c.speechTaken then old(queuedSpeechItems) - {p.id} else old(queuedSpeechItems))
        && queuedTranscriptItems == (if c.transcriptTaken then old(queuedTranscriptItems) - {p.id} else old(queuedTranscriptItems))
        && queuedInputAudio == (if c.inputAudioTaken then None else old(queuedInputAudio))
        && r == (if c.error.Some? then Err(c.error.value) else Ok(Outcome(Some(c.item), None)))
    {
      var c := ProjectCreated(p, queuedSpeechItems, queuedTranscriptItems, queuedInputAudio);
      if p.id !in itemLookup {
        Insert(c.item);
      }
      Consume(p.id, c.speechTaken, c.transcriptTaken, c.inputAudioTaken);
      r := if c.error.Some? then Err(c.error.value) else Ok(Outcome(Some(c.item), None));
    }

    /** `conversation.item.truncated`: the (possibly new placeholder) item is truncated at the mark. */
    method ItemTruncated(itemId: string, audioEndMs: nat) returns (r: Outcome)
      requires Valid()
      modifies this`itemLookup, this`items
      ensures Valid()
      ensures itemLookup == old(itemLookup)[itemId := Truncated(old(Existing(itemId)), audioEndMs)]
      ensures items == if itemId in old(itemLookup) then old(items) else old(items) + [itemId]
      ensures r == Outcome(Some(Truncated(old(Existing(itemId)), audioEndMs)), None)
    {
      var item := EnsureItemExists(itemId);
      ghost var before := itemLookup;
      var endIndex := SampleIndex(audioEndMs);
      item := item.(formatted := item.formatted.(transcript := "", audio := Slice(item.formatted.audio, 0, endIndex)));
      Replace(item);
      SameKeyUpdates(old(itemLookup), itemId, before[itemId], item);
      r := Outcome(Some(item), None);
    }

    /**
     * `conversation.item.deleted`: a known id leaves both the lookup and the list and the
     * removed item is returned; an unknown id changes nothing and returns no item.
     */
    method ItemDeleted(itemId: string) returns (r: Outcome)
      requires Valid()
      modifies this`itemLookup, this`items
      ensures Valid()
      ensures itemId !in itemLookup && itemId !in items
      ensures itemId in old(itemLookup) ==>
        && itemLookup == old(itemLookup) - {itemId}
        && items == Without(old(items), itemId)
        && r == Outcome(Some(old(itemLookup[itemId])), None)
      ensures itemId !in old(itemLookup) ==> itemLookup == old(itemLookup) && items == old(items) && r == Outcome(None, None)
    {
      if itemId !in itemLookup {
        return Outcome(None, None);
      }
      var item := itemLookup[itemId];
      WithoutKeepsDistinct(items, item.id);
      itemLookup := itemLookup - {item.id};
      items := Without(items, item.id);
      r := Outcome(Some(item), None);
    }

    /**
     * `conversation.item.input_audio_transcription.completed`: pads the content, stores the
     * raw transcript in the slot and the (sentinel-protected) transcript in the projection,
     * and returns the transcript as the fragment. An item without a content list raises.
     */
    method TranscriptionCompleted(itemId: string, contentIndex: nat, transcript: string) returns (r: Result<Outcome, Error>)
      requires Valid()
      modifies this`itemLookup, this`items
      ensures Valid()
      ensures var base := old(Existing(itemId));
        if base.content.None? then
          r == Err(MissingKey("content")) && itemLookup == old(itemLookup) && items == old(items)
        else
          && itemLookup == old(itemLookup)[itemId := TranscriptionApplied(base, contentIndex, transcript)]
          && items == (if itemId in old(itemLookup) then old(items) else old(items) + [itemId])
          && r == Ok(Outcome(Some(TranscriptionApplied(base, contentIndex, transcript)), Some(NewTranscript(transcript))))
    {
      var item := EnsureItemExists(itemId);
      var formattedTranscript := if transcript == "" then " " else transcript;
      if item.content.None? {
        return Err(MissingKey("content"));
      }
      ghost var before := itemLookup;
      item := StoreTranscript(item, contentIndex, transcript, formattedTranscript);
      Replace(item);
      SameKeyUpdates(old(itemLookup), itemId, before[itemId], item);
      r := Ok(Outcome(Some(item), Some(NewTranscript(transcript))));
    }

    /** `input_audio_buffer.speech_started`: the entry for the id is replaced by one holding only the start mark. */
    method SpeechStarted(itemId: string, audioStartMs: nat) returns (r: Outcome)
      modifies this`queuedSpeechItems
      ensures queuedSpeechItems == old(queuedSpeechItems)[itemId := Speech(audioStartMs, None, None)]
      ensures r == Outcome(None, None)
    {
      queuedSpeechItems := queuedSpeechItems[itemId := Speech(audioStartMs, None, None)];
      r := Outcome(None, None);
    }

    /**
     * `input_audio_buffer.speech_stopped`: records the end mark (using it as the start when
     * no start was seen) and, when the supplied buffer is non-empty, the slice of the buffer
     * between the two marks; an empty buffer leaves any audio the entry held.
     */
    method SpeechStopped(itemId: string, audioEndMs: nat, inputAudioBuffer: seq<Byte>) returns (r: Outcome)
      modifies this`queuedSpeechItems
      ensures var start := if itemId in old(queuedSpeechItems) then old(queuedSpeechItems)[itemId] else Speech(audioEndMs, None, None);
        queuedSpeechItems == old(queuedSpeechItems)[itemId := StoppedSpeech(start, audioEndMs, inputAudioBuffer)]
      ensures r == Outcome(None, None)
    {
      if itemId !in queuedSpeechItems {
        queuedSpeechItems := queuedSpeechItems[itemId := Speech(audioEndMs, None, None)];
      }
      var speech := queuedSpeechItems[itemId];
      speech := speech.(endMs := Some(audioEndMs));
      if |inputAudioBuffer| > 0 {
        var startIndex := SampleIndex(speech.startMs);
        var endIndex := SampleIndex(audioEndMs);
        speech := speech.(audio := Some(Slice(inputAudioBuffer, startIndex, endIndex)));
      }
      queuedSpeechItems := queuedSpeechItems[itemId := speech];
      r := Outcome(None, None);
    }

    /** `response.created`: a new id is registered; a known id changes nothing (replays are idempotent). */
    method ResponseCreated(response: Response) returns (r: Outcome)
      requires Valid()
      modifies this`responseLookup, this`responses
      ensures Valid()
      ensures responseLookup == if response.id in old(responseLookup) then old(responseLookup) else old(responseLookup)[response.id := response]
      ensures responses == if response.id in old(responseLookup) then old(responses) else old(responses) + [response.id]
      ensures r == Outcome(None, None)
    {
      if response.id !in responseLookup {
        responseLookup := responseLookup[response.id := response];
        responses := responses + [response.id];
      }
      r := Outcome(None, None);
    }

    /** `response.output_item.added`: a known response gets the item id appended to its output; an unknown one is ignored. */
    method OutputItemAdded(responseId: string, p: ItemPayload) returns (r: Outcome)
      requires Valid()
      modifies this`responseLookup
      ensures Valid()
      ensures responseId in old(responseLookup) ==>
        responseLookup == old(responseLookup)[responseId := old(responseLookup)[responseId].(output := old(responseLookup)[responseId].output + [p.id])]
      ensures responseId !in old(responseLookup) ==> responseLookup == old(responseLookup)
      ensures r == Outcome(None, None)
    {
      if responseId in responseLookup {
        var response := responseLookup[responseId];
        responseLookup := responseLookup[responseId := response.(output := response.output + [p.id])];
      }
      r := Outcome(None, None);
    }

    /**
     * `response.output_item.done`: an absent item raises; otherwise the payload's keys are
     * merged into the (possibly new placeholder) item, and a payload without `status` then
     * raises with the merge already applied.
     */
    method OutputItemDone(doneItem: Option<ItemPayload>) returns (r: Result<Outcome, Error>)
      requires Valid()
      modifies this`itemLookup, this`items
      ensures Valid()
      ensures doneItem.None? ==> r == Err(MissingItem) && itemLookup == old(itemLookup) && items == old(items)
      ensures doneItem.Some? ==>
        var p := doneItem.value;
        var merged := Merged(old(Existing(p.id)), p);
        && itemLookup == old(itemLookup)[p.id := merged]
        && items == (if p.id in old(itemLookup) then old(items) else old(items) + [p.id])
        && r == (if p.status.None? then Err(MissingKey("status")) else Ok(Outcome(Some(merged), None)))
    {
      if doneItem.None? {
        return Err(MissingItem);
      }
      var p := doneItem.value;
      var found := EnsureItemExists(p.id);
      ghost var before := itemLookup;
      found := Merged(found, p);
      Replace(found);
      SameKeyUpdates(old(itemLookup), p.id, before[p.id], found);
      if p.status.None? {
        return Err(MissingKey("status"));
      }
      r := Ok(Outcome(Some(found), None));
    }

    /** `response.content_part.added`: the part is appended, not index-addressed. */
    method ContentPartAdded(itemId: string, part: Part) returns (r: Result<Outcome, Error>)
      requires Valid()
      modifies this`itemLookup, this`items
      ensures Valid()
      ensures var base := old(Existing(itemId));
        if base.content.None? then
          r == Err(MissingKey("content")) && itemLookup == old(itemLookup) && items == old(items)
        else
          && itemLookup == old(itemLookup)[itemId := base.(content := Some(base.content.value + [part]))]
          && items == (if itemId in old(itemLookup) then old(items) else old(items) + [itemId])
          && r == Ok(Outcome(Some(base.(content := Some(base.content.value + [part]))), None))
    {
      var item := EnsureItemExists(itemId);
      ghost var before := itemLookup;
      if item.content.None? {
        return Err(MissingKey("content"));
      }
      item := item.(content := Some(item.content.value + [part]));
      Replace(item);
      SameKeyUpdates(old(itemLookup), itemId, before[itemId], item);
      r := Ok(Outcome(Some(item), None));
    }

    /** The body shared by the three index-addressed delta processors. */
    method ContentDelta(itemId: string, f: Field, contentIndex: nat, delta: string, decoded: seq<Byte>) returns (r: Result<Item, Error>)
      requires Valid()
      modifies this`itemLookup, this`items
      ensures Valid()
      ensures var base := old(Existing(itemId));
        if base.content.None? then
          r == Err(MissingKey("content")) && itemLookup == old(itemLookup) && items == old(items)
        else
          && itemLookup == old(itemLookup)[itemId := ContentDeltaApplied(base, f, contentIndex, delta, decoded)]
          && items == (if itemId in old(itemLookup) then old(items) else old(items) + [itemId])
          && r == Ok(ContentDeltaApplied(base, f, contentIndex, delta, decoded))
    {
      var item := EnsureItemExists(itemId);
      ghost var before := itemLookup;
      if item.content.None? {
        return Err(MissingKey("content"));
      }
      item := GrowSlot(item, f, contentIndex, delta, decoded);
      Replace(item);
      SameKeyUpdates(old(itemLookup), itemId, before[itemId], item);
      r := Ok(item);
    }

    /** `response.audio_transcript.delta`: returns only the fragment. */
    method AudioTranscriptDelta(itemId: string, contentIndex: nat, delta: string) returns (r: Result<Outcome, Error>)
      requires Valid()
      modifies this`itemLookup, this`items
      ensures Valid()
      ensures var base := old(Existing(itemId));
        if base.content.None? then
          r == Err(MissingKey("content")) && itemLookup == old(itemLookup) && items == old(items)
        else
          && itemLookup == old(itemLookup)[itemId := ContentDeltaApplied(base, TranscriptField, contentIndex, delta, [])]
          && items == (if itemId in old(itemLookup) then old(items) else old(items) + [itemId])
          && r == Ok(Outcome(Some(ContentDeltaApplied(base, TranscriptField, contentIndex, delta, [])), Some(NewTranscript(delta))))
    {
      var res := ContentDelta(itemId, TranscriptField, contentIndex, delta, []);
      r := if res.Err? then Err(res.error) else Ok(Outcome(Some(res.value), Some(NewTranscript(delta))));
    }

    /** `response.audio.delta`: the slot keeps the base64 text, the projection the decoded bytes, which are returned. */
    method AudioDelta(itemId: string, contentIndex: nat, delta: string) returns (r: Result<Outcome, Error>)
      requires Valid()
      modifies this`itemLookup, this`items
      ensures Valid()
      ensures var base := old(Existing(itemId));
        var decoded := decodeBase64(delta);
        if base.content.None? then
          r == Err(MissingKey("content")) && itemLookup == old(itemLookup) && items == old(items)
        else
          && itemLookup == old(itemLookup)[itemId := ContentDeltaApplied(base, AudioField, contentIndex, delta, decoded)]
          && items == (if itemId in old(itemLookup) then old(items) else old(items) + [itemId])
          && r == Ok(Outcome(Some(ContentDeltaApplied(base, AudioField, contentIndex, delta, decoded)), Some(NewAudio(decoded))))
    {
      var decoded := decodeBase64(delta);
      var res := ContentDelta(itemId, AudioField, contentIndex, delta, decoded);
      r := if res.Err? then Err(res.error) else Ok(Outcome(Some(res.value), Some(NewAudio(decoded))));
    }

    /** `response.text.delta`: returns only the fragment. */
    method TextDelta(itemId: string, contentIndex: nat, delta: string) returns (r: Result<Outcome, Error>)
      requires Valid()
      modifies this`itemLookup, this`items
      ensures Valid()
      ensures var base := old(Existing(itemId));
        if base.content.None? then
          r == Err(MissingKey("content")) && itemLookup == old(itemLookup) && items == old(items)
        else
          && itemLookup == old(itemLookup)[itemId := ContentDeltaApplied(base, TextField, contentIndex, delta, [])]
          && items == (if itemId in old(itemLookup) then old(items) else old(items) + [itemId])
          && r == Ok(Outcome(Some(ContentDeltaApplied(base, TextField, contentIndex, delta, [])), Some(NewText(delta))))
    {
      var res := ContentDelta(itemId, TextField, contentIndex, delta, []);
      r := if res.Err? then Err(res.error) else Ok(Outcome(Some(res.value), Some(NewText(delta))));
    }

    /** `response.function_call_arguments.delta`: grows the item's and the tool's arguments; returns only the fragment. */
    method ArgumentsDelta(itemId: string, delta: string) returns (r: Outcome)
      requires Valid()
      modifies this`itemLookup, this`items
      ensures Valid()
      ensures itemLookup == old(itemLookup)[itemId := ArgumentsDeltaApplied(old(Existing(itemId)), delta)]
      ensures items == if itemId in old(itemLookup) then old(items) else old(items) + [itemId]
      ensures r == Outcome(Some(ArgumentsDeltaApplied(old(Existing(itemId)), delta)), Some(NewArguments(delta)))
    {
      var item := EnsureItemExists(itemId);
      ghost var before := itemLookup;
      var args := GetOr(item.arguments, "") + delta;
      var tool := if item.formatted.tool.Some? then item.formatted.tool.value else Tool(None, None, None, "");
      tool := tool.(arguments := tool.arguments + delta);
      item := item.(arguments := Some(args), formatted := item.formatted.(tool := Some(tool)));
      Replace(item);
      SameKeyUpdates(old(itemLookup), itemId, before[itemId], item);
      r := Outcome(Some(item), Some(NewArguments(delta)));
    }

    /**
     * `process_event`: an envelope without `event_id` or `type`, or whose type has no
     * processor, raises and changes nothing; so does an extra argument that the processor
     * does not take (the input-audio buffer belongs to `speech_stopped` only) or a payload
     * that lacks the processor's keys. Otherwise the processor runs.
     */
    method ProcessEvent(e: Event, extra: Option<seq<Byte>>) returns (r: Result<Outcome, Error>)
      requires Valid()
      modifies this
      ensures Valid()
      ensures e.eventId.None? ==> r == Err(MissingEventId) && unchanged(this)
      ensures e.eventId.Some? && e.eventType.None? ==> r == Err(MissingEventType) && unchanged(this)
      ensures e.eventId.Some? && e.eventType.Some? && e.eventType.value !in Processors ==>
        r == Err(NoProcessor(e.eventType.value)) && unchanged(this)
      ensures (e.eventId.Some? && e.eventType.Some? && e.eventType.value in Processors
        && (extra.Some? <==> Processors[e.eventType.value] != SpeechStoppedProc)) ==>
        r == Err(ArgumentMismatch) && unchanged(this)
      ensures (e.eventId.Some? && e.eventType.Some? && e.eventType.value in Processors
        && (extra.Some? <==> Processors[e.eventType.value] == SpeechStoppedProc)) ==>
        Processed(Snapshot(), r) == ProcessorEffect(Processors[e.eventType.value], e.payload, extra, decodeBase64, old(Snapshot()))
    {
      if e.eventId.None? {
        return Err(MissingEventId);
      }
      if e.eventType.None? {
        return Err(MissingEventType);
      }
      var t := e.eventType.value;
      if t !in Processors {
        return Err(NoProcessor(t));
      }
      var k := Processors[t];
      if extra.Some? != (k == SpeechStoppedProc) {
        return Err(ArgumentMismatch);
      }
      r := Route(k, e.payload, extra);
    }

    /** Runs the processor on the payload; a payload without the processor's keys raises the `KeyError` of the first. */
    method Route(k: Processor, payload: Payload, extra: Option<seq<Byte>>) returns (r: Result<Outcome, Error>)
      requires Valid()
      requires extra.Some? <==> k == SpeechStoppedProc
      modifies this
      ensures Valid()
      ensures Processed(Snapshot(), r) == ProcessorEffect(k, payload, extra, decodeBase64, old(Snapshot()))
      ensures !Fits(k, payload) ==> r == Err(MissingKey(FirstKey(k))) && unchanged(this)
    {
      if !Fits(k, payload) {
        return Err(MissingKey(FirstKey(k)));
      }
      if IsItemEvent(k) {
        r := RouteItemEvent(k, payload, extra);
      } else if IsDeltaEvent(k) {
        r := RouteDeltaEvent(k, payload);
      } else {
        r := RouteOutputEvent(k, payload);
      }
    }

    /** The processors of conversation-item, transcription, speech and response-creation events. */
    method RouteItemEvent(k: Processor, payload: Payload, extra: Option<seq<Byte>>) returns (r: Result<Outcome, Error>)
      requires Valid()
      requires IsItemEvent(k) && Fits(k, payload)
      requires extra.Some? <==> k == SpeechStoppedProc
      modifies this
      ensures Valid()
      ensures Processed(Snapshot(), r) == ItemEventEffect(k, payload, extra, old(Snapshot()))
    {
      match k
      case ItemCreatedProc =>
        r := ItemCreated(payload.item);
      case ItemTruncatedProc =>
        var o := ItemTruncated(payload.itemId, payload.audioEndMs);
        r := Ok(o);
      case ItemDeletedProc =>
        var o := ItemDeleted(payload.itemId);
        r := Ok(o);
      case TranscriptionCompletedProc =>
        r := TranscriptionCompleted(payload.itemId, payload.contentIndex, payload.transcript);
      case SpeechStartedProc =>
        var o := SpeechStarted(payload.itemId, payload.audioStartMs);
        r := Ok(o);
      case SpeechStoppedProc =>
        var o := SpeechStopped(payload.itemId, payload.audioEndMs, extra.value);
        r := Ok(o);
      case ResponseCreatedProc =>
        var o := ResponseCreated(payload.response);
        r := Ok(o);
    }

    /** The processors of streamed text, transcript and audio deltas. */
    method RouteDeltaEvent(k: Processor, payload: Payload) returns (r: Result<Outcome, Error>)
      requires Valid()
      requires IsDeltaEvent(k) && Fits(k, payload)
      modifies this
      ensures Valid()
      ensures Processed(Snapshot(), r) == DeltaEventEffect(k, payload, decodeBase64, old(Snapshot()))
    {
      match k
      case AudioTranscriptDeltaProc =>
        r := AudioTranscriptDelta(payload.itemId, payload.contentIndex, payload.delta);
      case AudioDeltaProc =>
        r := AudioDelta(payload.itemId, payload.contentIndex, payload.delta);
      case TextDeltaProc =>
        r := TextDelta(payload.itemId, payload.contentIndex, payload.delta);
    }

    /** The processors of output items, content parts and function-call arguments. */
    method RouteOutputEvent(k: Processor, payload: Payload) returns (r: Result<Outcome, Error>)
      requires Valid()
      requires !IsItemEvent(k) && !IsDeltaEvent(k) && Fits(k, payload)
      modifies this
      ensures Valid()
      ensures Processed(Snapshot(), r) == OutputEventEffect(k, payload, old(Snapshot()))
    {
      match k
      case OutputItemAddedProc =>
        var o := OutputItemAdded(payload.responseId, payload.addedItem);
        r := Ok(o);
      case OutputItemDoneProc =>
        r := OutputItemDone(payload.doneItem);
      case ContentPartAddedProc =>
        r := ContentPartAdded(payload.itemId, payload.part);
      case ArgumentsDeltaProc =>
        var o := ArgumentsDelta(payload.itemId, payload.delta);
        r := Ok(o);
    }
  }

  /** The speech entry after `speech_stopped` with the given end mark and buffer. */
  function StoppedSpeech(speech: Speech, audioEndMs: nat, buffer: seq<Byte>): Speech
  {
    var ended := speech.(endMs := Some(audioEndMs));
    if |buffer| > 0 then ended.(audio := Some(Slice(buffer, SampleIndex(speech.startMs), SampleIndex(audioEndMs)))) else ended
  }

  /**
   * With a non-empty buffer the stored audio is the buffer between `start * 24` and
   * `end * 24` (clamped); with no prior start the end mark is the start and the slice is
   * empty; with an empty buffer no audio is added.
   */
  lemma StoppedSpeechSlice(speech: Speech, audioEndMs: nat, buffer: seq<Byte>)
    ensures var s := StoppedSpeech(speech, audioEndMs, buffer);
      && s.startMs == speech.startMs && s.endMs == Some(audioEndMs)
      && (|buffer| == 0 ==> s.audio == speech.audio)
      && (|buffer| > 0 && speech.startMs * 24 <= audioEndMs * 24 <= |buffer| ==>
            s.audio == Some(buffer[speech.startMs * 24 .. audioEndMs * 24]))
      && (|buffer| > 0 && speech.startMs == audioEndMs ==> s.audio == Some([]))
  {
  }
}

/** The worker protocol's records and the JSON codec for events. A JSON
    document is modelled as a value tree; the text layer of `json.dumps` and
    `json.loads` is not part of this model. */
module EventCodec {
  import opened Base
  import opened Enums
  import opened Schemas

  /** A command on a worker's command queue. */
  datatype Command = Command(command: GeneratorCommandType, value: Option<Job>)

  /** The value an event may carry: JobFinished, ImageFinished or a
      TSTError (its tag and message). */
  datatype Payload =
    | JobFinished(jobId: int)
    | ImageFinished(jobId: int, imageId: int)
    | Failure(tag: string, message: string)

  datatype Event = Event(
    generatorName: string,
    generatorId: int,
    event: GeneratorEventType,
    value: Option<Payload>)

  datatype Json =
    | JNull
    | JBool(b: bool)
    | JInt(i: int)
    | JStr(s: string)
    | JArray(items: seq<Json>)
    | JObject(fields: map<string, Json>)

  /** Why decoding fails. The first four are the Python exceptions
      decoding raises; `FieldType` is the model's own refusal. */
  datatype DecodeError =
    | KeyError(key: string)              // a required key is missing
    | TypeError                          // the document or a value is not a mapping of the expected keys
    | InvalidEventType(given: Json)      // "Invalid GeneratorEventType"
    | UnhandledEventType(kind: GeneratorEventType)  // "Unhandled GeneratorEventType"
    | FieldType(key: string)             // a field is not of the type its typed record holds;
                                         // Python builds the record anyway, since dataclasses do not check types

  datatype Decoded = Decoded(ev: Event) | DecodeFailure(error: DecodeError)

  /** The members of GeneratorEventType in declaration order. */
  const AllEventTypes: seq<GeneratorEventType> :=
    [GeneratorEventType.Ready, GeneratorEventType.Error, GeneratorEventType.ImageFinished,
     GeneratorEventType.JobFinished, GeneratorEventType.Closed]

  /** The string value of an event type. */
  function EventTypeValue(k: GeneratorEventType): string
  {
    match k
    case Ready => "ready"
    case Error => "error"
    case ImageFinished => "image_finished"
    case JobFinished => "job_finished"
    case Closed => "closed"
  }

  /** `next((r for r in kinds if r.value == s), None)`. */
  function FindEventType(s: string, kinds: seq<GeneratorEventType>): (r: Option<GeneratorEventType>)
    ensures r.Some? ==> r.value in kinds && EventTypeValue(r.value) == s
    ensures r.None? ==> forall k :: k in kinds ==> EventTypeValue(k) != s
  {
    if kinds == [] then None
    else if EventTypeValue(kinds[0]) == s then Some(kinds[0])
    else FindEventType(s, kinds[1..])
  }

  /** `asdict` of an event value. */
  function EncodePayload(p: Payload): (j: Json)
    ensures j.JObject?
    ensures forall k :: k in j.fields ==> j.fields[k].JInt? || j.fields[k].JStr?
  {
    match p
    case JobFinished(j) => JObject(map["job_id" := JInt(j)])
    case ImageFinished(j, i) => JObject(map["job_id" := JInt(j), "image_id" := JInt(i)])
    case Failure(t, m) => JObject(map["tag" := JStr(t), "message" := JStr(m)])
  }

  /** `generator_event_to_json`: the event as a JSON object whose enum field
      is its string value and whose absent value is null. */
  function Encode(e: Event): (j: Json)
    ensures j.JObject? && j.fields.Keys == {"generator_name", "generator_id", "event", "value"}
    ensures j.fields["event"] == JStr(EventTypeValue(e.event))
    ensures e.value.None? <==> j.fields["value"] == JNull
  {
    JObject(map[
      "generator_name" := JStr(e.generatorName),
      "generator_id" := JInt(e.generatorId),
      "event" := JStr(EventTypeValue(e.event)),
      "value" := if e.value.Some? then EncodePayload(e.value.value) else JNull])
  }

  /** `Record(**value_data)` for the record a kind of event carries. */
  function DecodePayload(kind: GeneratorEventType, v: Json): (r: Parsed<Payload>)
    requires kind in {GeneratorEventType.JobFinished, GeneratorEventType.ImageFinished, GeneratorEventType.Error}
    ensures !v.JObject? ==> r == Fail(TypeError)
    ensures r.Done? ==> PayloadMatches(kind, Some(r.value)) && EncodePayload(r.value) == v
  {
    if !v.JObject? then Fail(TypeError)
    else
      match kind
      case JobFinished =>
        if v.fields.Keys != {"job_id"} then Fail(TypeError)
        else if !v.fields["job_id"].JInt? then Fail(FieldType("job_id"))
        else Done(Payload.JobFinished(v.fields["job_id"].i))
      case ImageFinished =>
        if v.fields.Keys != {"job_id", "image_id"} then Fail(TypeError)
        else if !v.fields["job_id"].JInt? then Fail(FieldType("job_id"))
        else if !v.fields["image_id"].JInt? then Fail(FieldType("image_id"))
        else Done(Payload.ImageFinished(v.fields["job_id"].i, v.fields["image_id"].i))
      case Error =>
        if v.fields.Keys != {"tag", "message"} then Fail(TypeError)
        else if !v.fields["tag"].JStr? then Fail(FieldType("tag"))
        else if !v.fields["message"].JStr? then Fail(FieldType("message"))
        else Done(Failure(v.fields["tag"].s, v.fields["message"].s))
  }

  datatype Parsed<T> = Done(value: T) | Fail(error: DecodeError)

  /** The first checks of `json_to_generator_event`: a mapping with an
      `event` whose value names an event type, a `value` key, and a kind
      that carries a record. */
  function DecodeKind(j: Json): (r: Parsed<GeneratorEventType>)
    ensures r.Done? ==> r.value in {GeneratorEventType.JobFinished, GeneratorEventType.ImageFinished, GeneratorEventType.Error}
    ensures r.Done? ==> j.JObject? && "value" in j.fields && "event" in j.fields
                        && j.fields["event"] == JStr(EventTypeValue(r.value))
  {
    if !j.JObject? then Fail(TypeError)
    else if "event" !in j.fields then Fail(KeyError("event"))
    else
      var kind := if j.fields["event"].JStr? then FindEventType(j.fields["event"].s, AllEventTypes) else None;
      if kind.None? then Fail(InvalidEventType(j.fields["event"]))
      else if "value" !in j.fields then Fail(KeyError("value"))
      else if kind.value !in {GeneratorEventType.JobFinished, GeneratorEventType.ImageFinished, GeneratorEventType.Error} then
        Fail(UnhandledEventType(kind.value))
      else Done(kind.value)
  }

  /** The event's value: null is None, anything else is the kind's record. */
  function DecodeValue(kind: GeneratorEventType, v: Json): (r: Parsed<Option<Payload>>)
    requires kind in {GeneratorEventType.JobFinished, GeneratorEventType.ImageFinished, GeneratorEventType.Error}
    ensures v == JNull ==> r == Done(None)
    ensures r.Done? ==> PayloadMatches(kind, r.value)
    ensures r.Done? && r.value.Some? ==> EncodePayload(r.value.value) == v
  {
    if v == JNull then Done(None)
    else match DecodePayload(kind, v)
      case Done(p) => Done(Some(p))
      case Fail(err) => Fail(err)
  }

  /** `json_to_generator_event`, checking keys in the order the source reads them. */
  function Decode(j: Json): (r: Decoded)
    ensures !j.JObject? ==> r == DecodeFailure(TypeError)
    ensures r.Decoded? ==> PayloadMatches(r.ev.event, r.ev.value)
    ensures r.Decoded? ==> j.JObject? && forall k :: k in Encode(r.ev).fields ==> k in j.fields && j.fields[k] == Encode(r.ev).fields[k]
  {
    match DecodeKind(j)
    case Fail(err) => DecodeFailure(err)
    case Done(kind) =>
      match DecodeValue(kind, j.fields["value"])
      case Fail(err) => DecodeFailure(err)
      case Done(value) =>
        if "generator_name" !in j.fields then DecodeFailure(KeyError("generator_name"))
        else if "generator_id" !in j.fields then DecodeFailure(KeyError("generator_id"))
        else if !j.fields["generator_name"].JStr? then DecodeFailure(FieldType("generator_name"))
        else if !j.fields["generator_id"].JInt? then DecodeFailure(FieldType("generator_id"))
        else Decoded(Event(j.fields["generator_name"].s, j.fields["generator_id"].i, kind, value))
  }

  /** The value an event carries is absent or is the record its kind names. */
  predicate PayloadMatches(kind: GeneratorEventType, value: Option<Payload>)
  {
    match value
    case None => true
    case Some(p) =>
      (kind == GeneratorEventType.JobFinished && p.JobFinished?) ||
      (kind == GeneratorEventType.ImageFinished && p.ImageFinished?) ||
      (kind == GeneratorEventType.Error && p.Failure?)
  }

  /** Event type values are distinct, so looking a value up finds its kind. */
  lemma FindEventTypeOfValue(k: GeneratorEventType)
    ensures FindEventType(EventTypeValue(k), AllEventTypes) == Some(k)
  {
  }

  /** Decoding rejects an event string that is the value of no event type. */
  lemma DecodeInvalidEventType(j: Json)
    requires j.JObject? && "event" in j.fields
    requires forall k: GeneratorEventType :: j.fields["event"] != JStr(EventTypeValue(k))
    ensures Decode(j) == DecodeFailure(InvalidEventType(j.fields["event"]))
  {
  }

  /** The kind of an encoded event is found again, and refused unless it
      carries a record. */
  lemma KindOfEncoded(e: Event)
    ensures DecodeKind(Encode(e)) ==
      if e.event in {GeneratorEventType.JobFinished, GeneratorEventType.ImageFinished, GeneratorEventType.Error}
      then Done(e.event) else Fail(UnhandledEventType(e.event))
  {
    FindEventTypeOfValue(e.event);
  }

  /** READY and CLOSED are encoded but decoding refuses them. */
  lemma ReadyAndClosedDoNotRoundTrip(e: Event)
    requires e.event == GeneratorEventType.Ready || e.event == GeneratorEventType.Closed
    ensures Decode(Encode(e)) == DecodeFailure(UnhandledEventType(e.event))
  {
    KindOfEncoded(e);
  }

  /** A null value on a kind that carries a record decodes to None. */
  lemma NullValueDecodesToNone(name: string, id: int, kind: GeneratorEventType)
    requires kind in {GeneratorEventType.JobFinished, GeneratorEventType.ImageFinished, GeneratorEventType.Error}
    ensures Decode(JObject(map["generator_name" := JStr(name), "generator_id" := JInt(id),
                               "event" := JStr(EventTypeValue(kind)), "value" := JNull]))
            == Decoded(Event(name, id, kind, None))
  {
    KindOfEncoded(Event(name, id, kind, None));
  }

  /** Decoding a payload's own encoding gives it back exactly when it is the
      record the kind names. */
  lemma {:induction false} PayloadRoundTrip(kind: GeneratorEventType, p: Payload)
    requires kind in {GeneratorEventType.JobFinished, GeneratorEventType.ImageFinished, GeneratorEventType.Error}
    ensures DecodePayload(kind, EncodePayload(p)) == Done(p) <==> PayloadMatches(kind, Some(p))
  {
    var v := EncodePayload(p);
    match p
    case JobFinished(_) =>
      assert v.fields.Keys == {"job_id"};
    case ImageFinished(_, _) =>
      assert v.fields.Keys == {"job_id", "image_id"};
      assert "image_id" !in {"job_id"} && {"job_id", "image_id"} != {"job_id"};
      assert {"job_id", "image_id"} != {"tag", "message"} by { assert "job_id" !in {"tag", "message"}; }
    case Failure(_, _) =>
      assert v.fields.Keys == {"tag", "message"};
      assert "tag" !in {"job_id"} && "tag" !in {"job_id", "image_id"};
  }

  /** The value of an encoded event decodes back exactly when it matches the kind. */
  lemma {:induction false} ValueOfEncoded(kind: GeneratorEventType, value: Option<Payload>)
    requires kind in {GeneratorEventType.JobFinished, GeneratorEventType.ImageFinished, GeneratorEventType.Error}
    ensures DecodeValue(kind, if value.Some? then EncodePayload(value.value) else JNull) == Done(value)
            <==> PayloadMatches(kind, value)
  {
    if value.Some? {
      PayloadRoundTrip(kind, value.value);
      assert EncodePayload(value.value) != JNull;
    }
  }

  /** The round trip of the codec: decoding an encoded event gives it back
      if and only if its kind is JOB_FINISHED, IMAGE_FINISHED or ERROR and
      its value is absent or the record that kind names. */
  lemma {:induction false} RoundTrip(e: Event)
    ensures Decode(Encode(e)) == Decoded(e) <==>
            e.event in {GeneratorEventType.JobFinished, GeneratorEventType.ImageFinished, GeneratorEventType.Error}
            && PayloadMatches(e.event, e.value)
  {
    KindOfEncoded(e);
    if e.event in {GeneratorEventType.JobFinished, GeneratorEventType.ImageFinished, GeneratorEventType.Error} {
      ValueOfEncoded(e.event, e.value);
    }
  }
}

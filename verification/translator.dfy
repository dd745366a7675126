/**
 * The request side of `chat_completions` (app.py): the fields of the
 * client's request that are forwarded upstream, and the headers of the
 * upstream call. Only the fields the client actually set are forwarded,
 * and of those only the six the upstream accepts.
 */
module Translator {
  import opened Wrappers
  import opened Json

  /** Whether the client gave a field of the request (pydantic's `fields_set`), and with what value. */
  datatype Setting<+T> = Unset | Set(value: T)

  /**
   * A validated `ChatRequest`. `messages` and `model` are required, so always
   * set; an optional field may be set to null explicitly, which is not the
   * same as leaving it out.
   */
  datatype ChatRequest = ChatRequest(
    messages: seq<map<string, Value>>,
    model: string,
    maxTokens: Setting<Option<int>>,
    temperature: Setting<Option<real>>,
    topP: Setting<Option<real>>,
    stream: Setting<bool>,
    presencePenalty: Setting<Option<real>>,
    frequencyPenalty: Setting<Option<real>>)

  /** `req.stream`: the flag, false when the client left it out. */
  predicate Streaming(req: ChatRequest) {
    req.stream.Set? && req.stream.value
  }

  /** The fields of ChatRequest. */
  datatype Field =
    | Messages | Model | MaxTokens | Temperature | TopP | Stream | PresencePenalty | FrequencyPenalty

  const AllFields: set<Field> :=
    {Messages, Model, MaxTokens, Temperature, TopP, Stream, PresencePenalty, FrequencyPenalty}

  /** The key a field has in the JSON payload. */
  function Name(f: Field): string {
    match f
    case Messages => "messages"
    case Model => "model"
    case MaxTokens => "max_tokens"
    case Temperature => "temperature"
    case TopP => "top_p"
    case Stream => "stream"
    case PresencePenalty => "presence_penalty"
    case FrequencyPenalty => "frequency_penalty"
  }

  /** Distinct fields have distinct keys, and the keys are the eight attributes of ChatRequest. */
  lemma FieldNames()
    ensures forall f, g :: Name(f) == Name(g) ==> f == g
    ensures (set f | f in AllFields :: Name(f)) ==
      {"messages", "model", "max_tokens", "temperature", "top_p", "stream", "presence_penalty", "frequency_penalty"}
  {
  }

  /** The fields forwarded upstream, in the order the source lists them. */
  const AllowList: seq<Field> := [Messages, Model, MaxTokens, Temperature, TopP, Stream]

  /** Whether the client set field `f`; the required fields always are. */
  predicate IsSet(req: ChatRequest, f: Field) {
    match f
    case Messages => true
    case Model => true
    case MaxTokens => req.maxTokens.Set?
    case Temperature => req.temperature.Set?
    case TopP => req.topP.Set?
    case Stream => req.stream.Set?
    case PresencePenalty => req.presencePenalty.Set?
    case FrequencyPenalty => req.frequencyPenalty.Set?
  }

  function IntOrNull(v: Option<int>): Value {
    match v
    case None => Null
    case Some(n) => Int(n)
  }

  function FloatOrNull(v: Option<real>): Value {
    match v
    case None => Null
    case Some(x) => Float(x)
  }

  /** The JSON value the client gave for a field it set. */
  function FieldValue(req: ChatRequest, f: Field): Value
    requires IsSet(req, f)
  {
    match f
    case Messages => Array(seq(|req.messages|, i requires 0 <= i < |req.messages| => Object(req.messages[i])))
    case Model => Str(req.model)
    case MaxTokens => IntOrNull(req.maxTokens.value)
    case Temperature => FloatOrNull(req.temperature.value)
    case TopP => FloatOrNull(req.topP.value)
    case Stream => Bool(req.stream.value)
    case PresencePenalty => FloatOrNull(req.presencePenalty.value)
    case FrequencyPenalty => FloatOrNull(req.frequencyPenalty.value)
  }

  /**
   * `req.dict(exclude_unset=True)`: the fields the client set, and no field
   * it left out, so an explicit null stays distinguishable from an absent field.
   */
  function Dump(req: ChatRequest): (d: map<Field, Value>)
    ensures Messages in d && Model in d && d[Model] == Str(req.model)
    ensures Stream in d <==> req.stream.Set?
    ensures Stream in d ==> d[Stream] == Bool(Streaming(req))
    ensures MaxTokens in d <==> req.maxTokens.Set?
    ensures Temperature in d <==> req.temperature.Set?
    ensures TopP in d <==> req.topP.Set?
    ensures PresencePenalty in d <==> req.presencePenalty.Set?
    ensures FrequencyPenalty in d <==> req.frequencyPenalty.Set?
    ensures forall f :: f in d <==> IsSet(req, f)
    ensures forall f :: f in d ==> d[f] == FieldValue(req, f)
  {
    map f | f in AllFields && IsSet(req, f) :: FieldValue(req, f)
  }

  /**
   * The allow-list filter: keeps exactly the keys that are both in the
   * payload and in AllowList, each with its value unchanged.
   */
  function Filter<V>(payload: map<Field, V>): (r: map<Field, V>)
    ensures r.Keys == payload.Keys * (set f | f in AllowList)
    ensures forall f :: f in r ==> r[f] == payload[f]
  {
    map f | f in payload && f in AllowList :: payload[f]
  }

  /** The allow-list names exactly the six keys the filter keeps. */
  lemma AllowListNames()
    ensures (set f | f in AllowList :: Name(f)) == {"messages", "model", "max_tokens", "temperature", "top_p", "stream"}
    ensures forall f :: f in AllowList <==> Name(f) in ["messages", "model", "max_tokens", "temperature", "top_p", "stream"]
  {
    var names := set f | f in AllowList :: Name(f);
    assert Name(Messages) in names && Name(Model) in names && Name(MaxTokens) in names;
    assert Name(Temperature) in names && Name(TopP) in names && Name(Stream) in names;
  }

  /** Filtering twice is filtering once. */
  lemma FilterIdempotent<V>(payload: map<Field, V>)
    ensures Filter(Filter(payload)) == Filter(payload)
  {
  }

  /** The payload sent upstream for a request. */
  function ForwardPayload(req: ChatRequest): map<Field, Value> {
    Filter(Dump(req))
  }

  /**
   * What the upstream receives: every field the client set except the two
   * penalties, each with the value the client gave; messages and model always.
   */
  lemma ForwardPayloadFields(req: ChatRequest)
    ensures forall f :: f in ForwardPayload(req) <==>
      f != PresencePenalty && f != FrequencyPenalty && IsSet(req, f)
    ensures forall f :: f in ForwardPayload(req) ==> ForwardPayload(req)[f] == FieldValue(req, f)
    ensures Messages in ForwardPayload(req) && Model in ForwardPayload(req)
  {
    forall f ensures f in ForwardPayload(req) <==> f != PresencePenalty && f != FrequencyPenalty && IsSet(req, f) {
      ForwardedField(req, f);
    }
  }

  lemma ForwardedField(req: ChatRequest, f: Field)
    ensures f in ForwardPayload(req) <==> f in AllowList && IsSet(req, f)
  {
  }

  /** The upstream is asked to stream exactly when the request is in streaming mode. */
  lemma ForwardPayloadStreams(req: ChatRequest)
    ensures var p := ForwardPayload(req);
      (Stream in p && p[Stream] == Bool(true)) <==> Streaming(req)
  {
  }

  const EventStreamType := "text/event-stream"
  const JsonType := "application/json"
  const UserAgent := "SillyTavern-Proxy/1.0"

  /**
   * The headers of the upstream chat-completions call: the credential as a
   * bearer token, and an Accept that asks for an event stream exactly when
   * the request streams.
   */
  function ChatHeaders(key: string, stream: bool): (h: map<string, string>)
    ensures h.Keys == {"Authorization", "Content-Type", "User-Agent", "Accept"}
    ensures h["Authorization"] == "Bearer " + key
    ensures h["Content-Type"] == JsonType
    ensures h["User-Agent"] == UserAgent
    ensures h["Accept"] == EventStreamType <==> stream
    ensures h["Accept"] == JsonType <==> !stream
  {
    map[
      "Authorization" := "Bearer " + key,
      "Content-Type" := JsonType,
      "User-Agent" := UserAgent,
      "Accept" := if stream then EventStreamType else JsonType
    ]
  }

  /** The headers of the upstream model-listing call. */
  function ModelsHeaders(key: string): (h: map<string, string>)
    ensures h.Keys == {"Authorization", "Content-Type"}
    ensures h["Authorization"] == "Bearer " + key
    ensures h["Content-Type"] == JsonType
  {
    map["Authorization" := "Bearer " + key, "Content-Type" := JsonType]
  }
}

/**
 * The two endpoints of the proxy, `POST /v1/chat/completions` and
 * `GET /v1/models`, with the upstream call abstracted: each endpoint is a
 * function of the incoming request and of the outcome the upstream call
 * would have, and returns the calls it makes together with its response.
 */
module Proxy {
  import opened Wrappers
  import opened Json
  import opened Translator
  import opened Upstream
  import opened Errors
  import Relay

  const Base := "https://api.x.ai/v1"
  const ChatUrl := Base + "/chat/completions"
  const ModelsUrl := Base + "/models"
  const ChatTimeout := 200
  const ModelsTimeout := 10

  /** The credential header, in the lower case under which request headers are looked up. */
  const KeyHeader := "x-xai-api-key"

  const Unauthorized := 401
  const BadGateway := 502
  const MissingChatKey := "缺少X-XAI-API-Key头"
  const MissingModelsKey := "缺少API密钥"
  const InvalidUpstream := "上游服务器返回无效响应"

  /** A call to the upstream API. */
  datatype Call =
    | Post(url: string, headers: map<string, string>, payload: map<Field, Value>, stream: bool, timeout: int)
    | Get(url: string, headers: map<string, string>, timeout: int)

  /** What the client receives: a JSON body, an event stream, or a raised HTTPException. */
  datatype Response = JsonBody(body: Value) | EventStream(run: Relay.Run) | Raised(error: HttpError)

  /** One handled request: the upstream calls made, in order, and the response. */
  datatype Exchange = Exchange(calls: seq<Call>, response: Response)

  /** The credential header's value, or the empty string when the header is absent. */
  function ApiKey(headers: map<string, string>): (key: string)
    ensures KeyHeader in headers ==> key == headers[KeyHeader]
    ensures key != [] ==> KeyHeader in headers
  {
    if KeyHeader in headers then headers[KeyHeader] else ""
  }

  /** The upstream call for a chat completion. */
  function ChatCall(key: string, req: ChatRequest): Call {
    Post(ChatUrl, ChatHeaders(key, Streaming(req)), ForwardPayload(req), Streaming(req), ChatTimeout)
  }

  /** `POST /v1/chat/completions`. */
  function ChatCompletions(headers: map<string, string>, req: ChatRequest, upstream: Outcome): (x: Exchange)
    ensures x.calls == [] <==> ApiKey(headers) == []
    ensures |x.calls| <= 1
    ensures x.response.EventStream? ==> Streaming(req) && !Failed(upstream)
    ensures x.response.JsonBody? ==> !Streaming(req) && !Failed(upstream)
  {
    var key := ApiKey(headers);
    if key == [] then
      Exchange([], Raised(HttpError(Unauthorized, Detail(MissingChatKey, None))))
    else
      Exchange([ChatCall(key, req)], ChatResponse(req, upstream))
  }

  /** The response once the upstream call has been made. */
  function ChatResponse(req: ChatRequest, upstream: Outcome): (r: Response)
    ensures Failed(upstream) ==> r == Raised(Normalize(upstream))
    ensures !Failed(upstream) && Streaming(req) ==>
      r.EventStream? && r.run == Relay.StreamGenerator(upstream.reply.lines, true) && r.run.closes == 1
    ensures !Failed(upstream) && !Streaming(req) ==>
      (r.JsonBody? <==> upstream.reply.body.json.Some?) &&
      (r.JsonBody? ==> r.body == upstream.reply.body.json.value) &&
      (!r.JsonBody? ==> r == Raised(HttpError(BadGateway, Detail(InvalidUpstream, None))))
  {
    if Failed(upstream) then
      Raised(Normalize(upstream))
    else if Streaming(req) then
      EventStream(Relay.StreamGenerator(upstream.reply.lines, Streaming(req)))
    else
      match upstream.reply.body.json
      case None => Raised(HttpError(BadGateway, Detail(InvalidUpstream, None)))
      case Some(v) => JsonBody(v)
  }

  /** The upstream call for the model listing. */
  function ModelsCall(key: string): Call {
    Get(ModelsUrl, ModelsHeaders(key), ModelsTimeout)
  }

  /** `GET /v1/models`. */
  function GetModels(headers: map<string, string>, upstream: Outcome): (x: Exchange)
    ensures x.calls == [] <==> ApiKey(headers) == []
    ensures |x.calls| <= 1
    ensures x.response.Raised? <==> ApiKey(headers) == []
  {
    var key := ApiKey(headers);
    if key == [] then
      Exchange([], Raised(HttpError(Unauthorized, Detail(MissingModelsKey, None))))
    else if Failed(upstream) || upstream.reply.body.json.None? then
      Exchange([ModelsCall(key)], JsonBody(FallbackCatalogue))
    else
      Exchange([ModelsCall(key)], JsonBody(upstream.reply.body.json.value))
  }

  // ---------------------------------------------------------------------------
  // The fallback catalogue.

  const Created := 1744681729
  const Owner := "xAI"

  const FallbackIds: seq<string> := [
    "grok-3-beta", "grok-3-mini-beta", "grok-3-fast-beta", "grok-3-mini-fast-beta",
    "grok-4-0709", "grok-4-fast-non-reasoning", "grok-4-fast-reasoning"
  ]

  /** One model of the catalogue. */
  function Entry(id: string): Value {
    Object(map["id" := Str(id), "object" := Str("model"), "created" := Int(Created), "owned_by" := Str(Owner)])
  }

  /** One catalogue entry per id, in order. */
  function Entries(ids: seq<string>): seq<Value> {
    seq(|ids|, i requires 0 <= i < |ids| => Entry(ids[i]))
  }

  /** The list returned when the upstream listing fails. */
  const FallbackCatalogue: Value := Object(map["object" := Str("list"), "data" := Array(Entries(FallbackIds))])

  // ---------------------------------------------------------------------------
  // Properties of the endpoints.

  /** Without a credential, the chat endpoint calls nothing upstream and answers 401. */
  lemma ChatRequiresKey(headers: map<string, string>, req: ChatRequest, upstream: Outcome)
    requires KeyHeader !in headers || headers[KeyHeader] == []
    ensures ChatCompletions(headers, req, upstream) == Exchange([], Raised(HttpError(401, Detail(MissingChatKey, None))))
  {
  }

  /** Without a credential, the model listing calls nothing upstream and answers 401. */
  lemma ModelsRequireKey(headers: map<string, string>, upstream: Outcome)
    requires KeyHeader !in headers || headers[KeyHeader] == []
    ensures GetModels(headers, upstream) == Exchange([], Raised(HttpError(401, Detail(MissingModelsKey, None))))
  {
  }

  /**
   * With a credential, the chat endpoint makes exactly one call: a POST of the
   * filtered payload to the upstream's chat-completions URL, carrying the key
   * as a bearer token, asking for an event stream exactly when the request
   * streams, with a 200-second timeout.
   */
  lemma ChatCallMade(headers: map<string, string>, req: ChatRequest, upstream: Outcome)
    requires KeyHeader in headers && headers[KeyHeader] != []
    ensures var x := ChatCompletions(headers, req, upstream);
      && |x.calls| == 1
      && x.calls[0].Post?
      && x.calls[0].url == ChatUrl
      && x.calls[0].headers["Authorization"] == "Bearer " + headers[KeyHeader]
      && (x.calls[0].headers["Accept"] == EventStreamType <==> Streaming(req))
      && (x.calls[0].headers["Accept"] == JsonType <==> !Streaming(req))
      && x.calls[0].payload == ForwardPayload(req)
      && (x.calls[0].stream <==> Streaming(req))
      && x.calls[0].timeout == ChatTimeout
  {
  }

  /** Every failure of the chat call reaches the client as the normalised error, whatever the request. */
  lemma ChatFailureNormalized(headers: map<string, string>, req: ChatRequest, upstream: Outcome)
    requires ApiKey(headers) != [] && Failed(upstream)
    ensures var r := ChatCompletions(headers, req, upstream).response;
      && r == Raised(Normalize(upstream))
      && (upstream.Responded? ==> r.error.status == upstream.reply.status)
      && (upstream.NoResponse? ==> r.error.status == 504)
      && Prefix <= r.error.detail.text
  {
  }

  /**
   * A streaming request that the upstream accepts is answered with the relay
   * of the upstream's lines, which closes the upstream response exactly once.
   */
  lemma StreamingRelayed(headers: map<string, string>, req: ChatRequest, upstream: Outcome)
    requires ApiKey(headers) != [] && !Failed(upstream) && Streaming(req)
    ensures var r := ChatCompletions(headers, req, upstream).response;
      && r == EventStream(Relay.StreamGenerator(upstream.reply.lines, true))
      && r.run.closes == 1
  {
  }

  /** A non-streaming request: the upstream's JSON is passed through, and a body that is not JSON gives 502. */
  lemma NonStreamingAnswered(headers: map<string, string>, req: ChatRequest, upstream: Outcome)
    requires ApiKey(headers) != [] && !Failed(upstream) && !Streaming(req)
    ensures var r := ChatCompletions(headers, req, upstream).response;
      && (upstream.reply.body.json.None? <==> r.Raised?)
      && (upstream.reply.body.json.None? ==> r.error == HttpError(502, Detail(InvalidUpstream, None)))
      && (upstream.reply.body.json.Some? ==> r == JsonBody(upstream.reply.body.json.value))
  {
  }

  /** A rate-limited upstream: the client sees 429 and the upstream's own error message. */
  lemma RateLimitedExample(headers: map<string, string>, req: ChatRequest)
    requires ApiKey(headers) != []
    ensures var upstream := Responded(Reply(429, Body("{\"error\": \"rate limited\"}", Some(Object(map["error" := Str("rate limited")]))), []));
      ChatCompletions(headers, req, upstream).response == Raised(HttpError(429, Detail(Prefix + "rate limited", None)))
  {
    var body := Body("{\"error\": \"rate limited\"}", Some(Object(map["error" := Str("rate limited")])));
    assert ErrorField(body) == Some(Str("rate limited"));
    ChatFailureNormalized(headers, req, Responded(Reply(429, body, [])));
  }

  /**
   * With a credential, the model listing never answers with an error: it
   * passes the upstream's JSON through when the call succeeds and decodes,
   * and answers with the fallback catalogue otherwise.
   */
  lemma ModelsNeverFail(headers: map<string, string>, upstream: Outcome)
    requires ApiKey(headers) != []
    ensures var x := GetModels(headers, upstream);
      && x.calls == [Get(ModelsUrl, ModelsHeaders(headers[KeyHeader]), ModelsTimeout)]
      && x.response.JsonBody?
      && (Failed(upstream) || upstream.reply.body.json.None? ==> x.response.body == FallbackCatalogue)
      && (!Failed(upstream) && upstream.reply.body.json.Some? ==> x.response.body == upstream.reply.body.json.value)
  {
  }

  /** Whether `v` is the catalogue entry of the model `id`: an xAI `model` object with the catalogue's creation time. */
  predicate ListsModel(v: Value, id: string) {
    && v.Object?
    && v.fields.Keys == {"id", "object", "created", "owned_by"}
    && v.fields["id"] == Str(id)
    && v.fields["object"] == Str("model")
    && v.fields["created"] == Int(1744681729)
    && v.fields["owned_by"] == Str("xAI")
  }

  /** The catalogue lists the seven models, in order, each an xAI `model` object with the same creation time. */
  lemma CatalogueShape()
    ensures FallbackCatalogue.Object? && FallbackCatalogue.fields.Keys == {"object", "data"}
    ensures FallbackCatalogue.fields["object"] == Str("list")
  {
  }

  lemma CatalogueContents()
    ensures var data := FallbackCatalogue.fields["data"];
      && data.Array? && |data.items| == |FallbackIds| == 7
      && (forall i :: 0 <= i < |data.items| ==> ListsModel(data.items[i], FallbackIds[i]))
  {
    EntriesListModels(FallbackIds);
  }

  lemma EntriesListModels(ids: seq<string>)
    ensures |Entries(ids)| == |ids|
    ensures forall i :: 0 <= i < |ids| ==> ListsModel(Entries(ids)[i], ids[i])
  {
    forall i | 0 <= i < |ids|
      ensures ListsModel(Entries(ids)[i], ids[i])
    {
      EntryListsModel(ids[i]);
    }
  }

  lemma EntryListsModel(id: string)
    ensures ListsModel(Entry(id), id)
  {
  }

  /** No model is listed twice. */
  lemma CatalogueIdsDistinct()
    ensures forall i, j :: 0 <= i < j < |FallbackIds| ==> FallbackIds[i] != FallbackIds[j]
  {
  }
}

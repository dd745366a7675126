# SillyTavern xAI proxy, modelled in Dafny

`app.py` is a small FastAPI proxy. It forwards OpenAI-style chat-completion and model-listing
requests to the xAI API, using a key the client sends in the `X-XAI-API-Key` header. This
project models the pure logic inside its two endpoints and proves what that logic promises:

- **Relay** (`relay.dfy`): `stream_generator`, the loop that re-frames the upstream's
  server-sent-event lines for the client. Everything the upstream delivers is a sequence of
  `Item`s: a line, a transport failure (`RequestException`), or any other exception (`Abort`).
  The generator is a function from those items to a `Run`: the events sent, how many times
  the upstream response was closed, and whether an exception escaped.
- **Json** (`json.dfy`): the JSON values that cross the proxy, and `json.dumps` of the
  `{"error": message}` objects the relay synthesises. It uses the default `ensure_ascii`
  escaping, including lower-case `\uXXXX` escapes and surrogate pairs. A decoder proves the
  escaping loses nothing.
- **Translator** (`translator.dfy`): the validated `ChatRequest`, with pydantic's
  "set or unset" distinction; `req.dict(exclude_unset=True)`; the six-field allow-list filter;
  and the headers of both upstream calls.
- **Upstream** (`upstream.dfy`): the outcome of an upstream call, with the HTTP client
  abstracted away: a reply (status, body text, decoded JSON, streamed lines) or no response.
- **Errors** (`errors.dfy`): the `except RequestException` block of `chat_completions`, in two
  versions. `NormalizeAsWritten` is the block as written. It has no result for a JSON error body
  that is not an object, because `.get` then raises AttributeError (see Findings). `Normalize`
  is the corrected block, which the endpoint model uses. It turns every upstream failure into
  an HTTP error carrying the upstream status (504 when there is no response) and an
  `xAI API错误: ` detail.
- **Proxy** (`proxy.dfy`): both endpoints end to end. Each one is modelled as a function of the
  incoming headers, the request, and the outcome the upstream call would have. It returns the
  upstream calls made and the response, which is a JSON body, an event stream, or a raised
  `HTTPException`. It also holds the seven-model fallback catalogue.

`raise_for_status()` is modelled as raising exactly for statuses 400 to 599.

`response.json()` on a body that is not JSON raises `requests.exceptions.JSONDecodeError`. The
model follows requests 2.27 and later, where that class derives from both
`json.JSONDecodeError` and `RequestException`. So in `get_models`, an undecodable success
body falls back to the catalogue, like any other request failure. The model also assumes
simplejson is not installed. With simplejson installed, requests derives its JSONDecodeError
from simplejson's instead, and the `except json.JSONDecodeError` clauses at app.py:82 and
app.py:91 no longer catch it.

## Model

| member | source | states |
|---|---|---|
| Relay.StreamGenerator | app.py:29-42 | the generator closes the upstream response exactly once when `stream` is true and never otherwise, and sends at most one event per upstream item |
| Relay.Drive | app.py:31-42 | the loop only appends to what was already sent, at most one event per item, and closes the response once in streaming mode on every exit path |
| Relay.StreamGeneratorMeetsSpec | app.py:29-42 | the generator equals the loop-free description: events for the non-empty lines before the first non-line item, one error event if that item is a transport failure, the close count, and whether an exception escaped |
| Relay.DriveMeetsSpec | app.py:31-42 | by induction over the items, the loop started after some events yields those events followed by the loop-free description |
| Relay.LineEvent | app.py:34-37 | a line with the `data: ` prefix becomes an event whose unframed payload is the rest of the line |
| Relay.UnframeFrame | app.py:35 | removing `data: ` and the trailing blank line from a framed event gives back its payload |
| Relay.DataLineRelayed | app.py:32-35 | a `data: ` line gives exactly one event, `data: ` + `line[6:]` + `\n\n`, which unframes back to `line[6:]` |
| Relay.InvalidLineRelayed | app.py:36-37 | a non-empty line without the prefix gives exactly one `{"error": "Invalid chunk format"}` event |
| Relay.InvalidChunkIsErrorEvent | app.py:37 | the fixed invalid-chunk event is the error event the relay builds for the message `Invalid chunk format` |
| Relay.BlankLineSkipped | app.py:32 | an empty line gives no event |
| Relay.RelayWithoutFailure | app.py:31-37 | without failures there is exactly one event per non-empty line, in order, each the re-framing of its line, and no exception escapes |
| Relay.RelayIsIncremental | app.py:31-37 | after a run of lines, an unrecognised line included, the events already sent are those of the run, and what follows is relayed exactly as it would be on its own |
| Relay.FailureEndsStream | app.py:38-39 | a transport failure after k lines gives the events of those k lines, then exactly one error event with the failure's message, then nothing |
| Relay.AbortEndsStream | app.py:40-42 | any other exception after k lines gives the events of those k lines and nothing more, and the exception escapes |
| Relay.ErrorEventRoundTrip | app.py:39 | the error event for a failure unframes to a JSON object from which the failure's message is read back exactly |
| Relay.EventsAreFramed | app.py:35-39 | when no upstream line holds a newline, every event sent is `data: <payload>\n\n` with a payload free of newlines |
| Json.EscapeChar | app.py:39 | one character as `json.dumps` writes it inside a string: printable ASCII; the character itself exactly when it needs no escape, a backslash escape otherwise |
| Json.Escape | app.py:39 | a string as `json.dumps` writes it with `ensure_ascii`: only printable ASCII, and never shorter than the input |
| Json.Hex4 | app.py:39 | a `\uXXXX` escape has four digits, each `0`-`9` or lower-case `a`-`f`, and they read back as the same code unit |
| Json.UnescapeEscape | app.py:39 | decoding the escaped form of any string gives back that string, astral characters included |
| Json.EscapeVerbatim | app.py:37 | a string of printable ASCII without quote or backslash is written unchanged |
| Json.ErrorObject | app.py:39 | the `{"error": message}` object as serialised text is printable ASCII, so it cannot break the event framing |
| Json.ErrorObjectRoundTrip | app.py:39 | reading the message back out of the serialised `{"error": message}` object gives the original message |
| Translator.Dump | app.py:61 | `exclude_unset` keeps a field exactly when the client set it, an explicit null included, with the value the client gave; `messages` and `model` are always kept |
| Translator.FieldNames | app.py:18-26 | each field has its own key, and the keys are the eight attribute names of `ChatRequest` |
| Translator.AllowListNames | app.py:62 | the allow-list is exactly the fields keyed `messages`, `model`, `max_tokens`, `temperature`, `top_p` and `stream` |
| Translator.Filter | app.py:62 | the filtered payload's keys are the payload's keys that are on the allow-list, with every value unchanged |
| Translator.FilterIdempotent | app.py:62 | filtering twice is filtering once |
| Translator.ForwardPayloadFields | app.py:61-62 | a field is forwarded exactly when the client set it and it is not a penalty, with the value the client gave; messages and model are always forwarded |
| Translator.ForwardedField | app.py:61-62 | a field is forwarded exactly when it is on the allow-list and the client set it |
| Translator.ForwardPayloadStreams | app.py:61-62 | the forwarded payload asks for streaming exactly when the request streams |
| Translator.ChatHeaders | app.py:55-60 | the chat call sends the key as a bearer token, JSON content, the proxy's user agent, and `Accept: text/event-stream` exactly when streaming, `application/json` otherwise |
| Translator.ModelsHeaders | app.py:113-116 | the listing call sends the key as a bearer token and JSON content, and nothing else |
| Errors.Excerpt | app.py:92 | `text[:500]` is the start of the text, of length 500 or the whole text if shorter |
| Errors.NormalizeAsWritten | app.py:86-101 | the block as written: no result exactly for a JSON body that is not an object; otherwise the upstream status, or 504 without a response, and a detail that starts with `xAI API错误: ` |
| Errors.Normalize | app.py:86-101 | the corrected block (see Findings): the upstream status when there is a response, else 504; as detail the `error` field if present, else the whole JSON body, else the first 500 characters of a non-JSON body, else the exception's message; always prefixed `xAI API错误: ` |
| Errors.NormalizeAgreesWithSource | app.py:86-101 | wherever the handler as written completes, it gives exactly Normalize's error; it fails to complete exactly for a JSON body that is not an object |
| Errors.AsWrittenLosesStatus | app.py:90 | as written, a 400 whose body is the JSON array `["bad request"]` escapes the handler instead of giving a 400 |
| Errors.NormalizeMirrorsStatus | app.py:93 | with a response, the client's status is the upstream's, and a non-string detail comes only from an `error` field |
| Errors.NonJsonDetailBounded | app.py:91-92 | a non-JSON body's detail is the prefix and the first 500 characters of the body, so it is at most 500 characters longer than the prefix |
| Proxy.ApiKey | app.py:49 | the credential is the header's value, and empty when the header is absent |
| Proxy.ChatCompletions | app.py:45-101 | the chat endpoint calls the upstream once exactly when the key is non-empty, and answers with JSON or a stream only after a successful call, in the matching mode |
| Proxy.GetModels | app.py:105-134 | the listing calls the upstream once exactly when the key is non-empty, and raises an error exactly when the key is empty |
| Proxy.ChatResponse | app.py:72-101 | after the call: a failure is raised as the corrected normalised error; a streaming request gets the relay of the upstream's lines, closed once; otherwise the upstream's JSON, or 502 exactly when the body is not JSON |
| Proxy.ChatRequiresKey | app.py:49-52 | without a key, the chat endpoint makes no upstream call and answers 401 `缺少X-XAI-API-Key头` |
| Proxy.ModelsRequireKey | app.py:107-110 | without a key, the listing makes no upstream call and answers 401 `缺少API密钥` |
| Proxy.ChatCallMade | app.py:55-71 | with a key, exactly one POST of the filtered payload with the key as a bearer token, `Accept` set by the stream flag, streaming as requested, and a 200-second timeout |
| Proxy.ChatFailureNormalized | app.py:86-101 | every failure of the chat call reaches the client as the normalised error: the upstream's status, or 504 without a response, and the prefixed detail |
| Proxy.StreamingRelayed | app.py:74-78 | an accepted streaming request is answered with the relay of the upstream's lines, which closes the upstream response exactly once |
| Proxy.NonStreamingAnswered | app.py:80-84 | an accepted non-streaming request passes the upstream's JSON through, and answers 502 `上游服务器返回无效响应` exactly when the body is not JSON |
| Proxy.RateLimitedExample | app.py:86-101 | an upstream 429 with body `{"error": "rate limited"}` reaches the client as 429 `xAI API错误: rate limited` |
| Proxy.ModelsNeverFail | app.py:112-134 | with a key, the listing makes one GET with a 10-second timeout and always answers with JSON: the upstream's on success, the fallback catalogue on any failure |
| Proxy.CatalogueShape | app.py:122-124 | the fallback is a `list` object with exactly the keys `object` and `data` |
| Proxy.CatalogueContents | app.py:124-133 | the fallback lists seven models in the source's order, each an xAI `model` object created at 1744681729 |
| Proxy.CatalogueIdsDistinct | app.py:125-132 | no model is listed twice in the fallback |

## Left out

- FastAPI routing, `StreamingResponse`, the `/health` endpoint and the uvicorn start-up are framework plumbing. The model states what each handler returns, not how it is served.
- The `requests` calls are not modelled as I/O. Each endpoint takes the outcome of its upstream call as a parameter (`Upstream.Outcome`). The call's arguments are recorded as a `Proxy.Call`, and timeouts are recorded but not enforced.
- Logging (app.py lines 47, 51, 63, 83, 97, 121) is output only and does not affect any response.
- Asynchronous suspension and cancellation of the generator are concurrency. A client going away, or a line that is not UTF-8, is an `Abort` item: an exception that is not a `RequestException` and leaves the loop through `finally`.
- UTF-8 decoding of lines is left out. Lines are modelled as already decoded strings.
- `iter_lines()` splitting of the body is left out. The upstream's lines are given as the reply's `lines`.
- Python's `str()` of an exception, and of a non-string JSON `error` value, is not rendered. An exception's message is a given string. A non-string value is kept as the `shown` part of `Errors.Detail`.
- Floats are modelled as `real`. The JSON number format and key order of payloads are not modelled.
- Request header names are matched case-insensitively by the framework. The model looks the key up under its lower-case name.
- Pydantic validation of the request body (422 for a missing `messages` or `model`) happens before the handler runs. The model starts from a validated `ChatRequest`.
- Proxy.ChatCompletions: the model follows the corrected error block (`Errors.Normalize`), not the as-written one, which raises AttributeError for a JSON body that is not an object (see Findings).

## Findings

| source | as written | input that shows it | evidently intended | confidence | as-written member | corrected member |
|---|---|---|---|---|---|---|
| app.py:90 | `e.response.json().get("error", e.response.text)` assumes the error body decodes to a JSON object. For any other JSON (an array, a string, a number) `.get` raises AttributeError, which neither `except` catches, so the client gets a 500 and the upstream status is lost | an upstream 400 whose body is `["bad request"]` | the upstream status, with the whole body as detail, as for a JSON object without an `error` field | medium, not executed | Errors.AsWrittenLosesStatus | Errors.NormalizeMirrorsStatus |

/**
 * Upstream-error normalisation (the `except RequestException` block of
 * `chat_completions` in app.py): every failure of the upstream call becomes
 * one HTTP error with a status and a `xAI API错误: ` detail.
 */
module Errors {
  import opened Wrappers
  import opened Json
  import opened Upstream

  const Prefix := "xAI API错误: "
  const GatewayTimeout := 504
  const ExcerptLength := 500

  /**
   * The detail of an HTTP error: `text`, followed by Python's str() of
   * `shown` when it is present (a decoded JSON value that is not a string,
   * whose rendering is not modelled).
   */
  datatype Detail = Detail(text: string, shown: Option<Value>)

  /** An HTTPException: status and detail. */
  datatype HttpError = HttpError(status: int, detail: Detail)

  /** `text[:500]`: the first 500 characters, or all of a shorter text. */
  function Excerpt(text: string): (r: string)
    ensures r <= text
    ensures |r| == (if |text| < ExcerptLength then |text| else ExcerptLength)
  {
    if |text| <= ExcerptLength then text else text[..ExcerptLength]
  }

  /** The detail for a decoded `error` field: a string shows as itself, anything else through str(). */
  function ShowField(v: Value): Detail {
    match v
    case Str(s) => Detail(Prefix + s, None)
    case _ => Detail(Prefix, Some(v))
  }

  /**
   * The block as written: None when `e.response.json().get(...)` raises
   * AttributeError, which happens when the body is JSON but not an object;
   * the exception then escapes the handler.
   */
  function NormalizeAsWritten(e: Outcome): (r: Option<HttpError>)
    ensures r.None? <==> e.Responded? && e.reply.body.json.Some? && !e.reply.body.json.value.Object?
    ensures e.NoResponse? ==> r == Some(HttpError(GatewayTimeout, Detail(Prefix + e.message, None)))
    ensures r.Some? && e.Responded? ==> r.value.status == e.reply.status
    ensures r.Some? ==> Prefix <= r.value.detail.text
  {
    match e
    case NoResponse(message) => Some(HttpError(GatewayTimeout, Detail(Prefix + message, None)))
    case Responded(reply) =>
      match reply.body.json
      case None => Some(HttpError(reply.status, Detail(Prefix + Excerpt(reply.body.text), None)))
      case Some(Object(fields)) =>
        Some(HttpError(reply.status,
          if "error" in fields then ShowField(fields["error"]) else Detail(Prefix + reply.body.text, None)))
      case Some(_) => None
  }

  /** The `error` field of a decoded body, when the body is a JSON object that has one. */
  function ErrorField(body: Body): Option<Value> {
    if body.json.Some? && body.json.value.Object? && "error" in body.json.value.fields
    then Some(body.json.value.fields["error"])
    else None
  }

  /**
   * The block as intended: the upstream status when there is a response
   * (504 when there is none); as detail the body's `error` field if it has
   * one, else the whole body if it is JSON, else its first 500 characters,
   * else the exception's message; every detail starts with Prefix.
   */
  function Normalize(e: Outcome): (r: HttpError)
    ensures e.Responded? ==> r.status == e.reply.status
    ensures e.NoResponse? ==> r == HttpError(GatewayTimeout, Detail(Prefix + e.message, None))
    ensures Prefix <= r.detail.text
    ensures e.Responded? && ErrorField(e.reply.body).Some? ==>
      r.detail == ShowField(ErrorField(e.reply.body).value)
    ensures e.Responded? && ErrorField(e.reply.body).None? && e.reply.body.json.Some? ==>
      r.detail == Detail(Prefix + e.reply.body.text, None)
    ensures e.Responded? && e.reply.body.json.None? ==>
      r.detail == Detail(Prefix + Excerpt(e.reply.body.text), None)
  {
    match e
    case NoResponse(message) => HttpError(GatewayTimeout, Detail(Prefix + message, None))
    case Responded(reply) =>
      match reply.body.json
      case None => HttpError(reply.status, Detail(Prefix + Excerpt(reply.body.text), None))
      case Some(Object(fields)) =>
        HttpError(reply.status,
          if "error" in fields then ShowField(fields["error"]) else Detail(Prefix + reply.body.text, None))
      case Some(_) => HttpError(reply.status, Detail(Prefix + reply.body.text, None))
  }

  /** Where the source's handler completes, it produces exactly what Normalize does. */
  lemma NormalizeAgreesWithSource(e: Outcome)
    ensures NormalizeAsWritten(e).Some? ==> NormalizeAsWritten(e).value == Normalize(e)
    ensures NormalizeAsWritten(e).None? <==>
      e.Responded? && e.reply.body.json.Some? && !e.reply.body.json.value.Object?
  {
  }

  /**
   * The source's handler loses the upstream status for a JSON body that is
   * not an object: a 400 whose body is `["bad request"]` escapes as an
   * uncaught AttributeError instead of a 400 error.
   */
  lemma AsWrittenLosesStatus()
    ensures var e := Responded(Reply(400, Body("[\"bad request\"]", Some(Array([Str("bad request")]))), []));
      && NormalizeAsWritten(e).None?
      && Normalize(e).status == 400
  {
  }

  /** With a response, the caller always sees the upstream's own status. */
  lemma NormalizeMirrorsStatus(reply: Reply)
    ensures Normalize(Responded(reply)).status == reply.status
    ensures Normalize(Responded(reply)).detail.shown.Some? ==> ErrorField(reply.body).Some?
  {
  }

  /** A non-JSON body is cut to at most 500 characters, and the excerpt is the start of the body. */
  lemma NonJsonDetailBounded(reply: Reply)
    requires reply.body.json.None?
    ensures var t := Normalize(Responded(reply)).detail.text;
      t == Prefix + Excerpt(reply.body.text) && |t| <= |Prefix| + ExcerptLength
  {
  }
}

/**
 * The Cloudflare cache-purge helper: `purgeCache(urls)` and
 * `purgeStudentsCache()`. The credentials come from the environment; the
 * outcome of the HTTP request is an input. Every path returns a result
 * record: none throws.
 */
module Cloudflare {
  import opened Wrappers
  import opened Js
  import opened Http

  /** CLOUDFLARE_API_TOKEN and CLOUDFLARE_ZONE_ID, each unset or a string. */
  datatype Credentials = Credentials(apiToken: Option<string>, zoneId: Option<string>)

  /** Both variables are set to non-empty strings. */
  predicate Configured(c: Credentials)
  {
    Truthy(FromOption(c.apiToken)) && Truthy(FromOption(c.zoneId))
  }

  /** The POST `purgeCache` sends: the zone's purge endpoint, the bearer header, and `{ files }`. */
  datatype PurgeRequest = PurgeRequest(url: string, authorization: string, files: seq<JsValue>)

  const ApiBase: string := "https://api.cloudflare.com/client/v4/zones/"

  /** `Array.isArray(urls) ? urls : [urls]`. */
  function Files(urls: JsValue): (files: seq<JsValue>)
    ensures urls.Arr? ==> files == urls.items
    ensures !urls.Arr? ==> |files| == 1 && files[0] == urls
  {
    if urls.Arr? then urls.items else [urls]
  }

  /**
   * The request `purgeCache(urls)` makes: none when the credentials are not
   * configured; otherwise one to the purge endpoint of the configured zone.
   */
  function Request(c: Credentials, urls: JsValue): (r: Option<PurgeRequest>)
    ensures r.None? <==> !Configured(c)
    ensures r.Some? ==>
      && r.value.url == ApiBase + c.zoneId.value + "/purge_cache"
      && r.value.authorization == "Bearer " + c.apiToken.value
      && r.value.files == Files(urls)
  {
    if !Configured(c) then None
    else Some(PurgeRequest(ApiBase + c.zoneId.value + "/purge_cache", "Bearer " + c.apiToken.value, Files(urls)))
  }

  /**
   * What `purgeCache` resolves to: `{success: true}`,
   * `{success: false, reason: 'not_configured'}`,
   * `{success: false, errors: result.errors}` or
   * `{success: false, error: error.message}`.
   */
  datatype PurgeResult =
    | Purged
    | NotConfigured
    | Rejected(errors: JsValue)
    | Failed(message: string)
  {
    function ToJs(): JsValue
    {
      match this
      case Purged => Obj(map["success" := Bool(true)])
      case NotConfigured => Obj(map["success" := Bool(false), "reason" := Str("not_configured")])
      case Rejected(errors) => Obj(map["success" := Bool(false), "errors" := errors])
      case Failed(message) => Obj(map["success" := Bool(false), "error" := Str(message)])
    }
  }

  /**
   * `purgeCache(urls)` given what the request produced. Cloudflare's status
   * code is not consulted: only the `success` field of the JSON reply. A
   * network failure, a reply that is not JSON, or a `null` reply (reading
   * `success` of it throws) all become `Failed` with the thrown message.
   */
  function PurgeCache(c: Credentials, urls: JsValue, reply: Fetched): (r: PurgeResult)
    ensures !Configured(c) <==> r == NotConfigured
    ensures r == Purged <==>
      Configured(c) && reply.Responded? && reply.json.Success?
      && !Nullish(reply.json.value) && Truthy(GetProp(reply.json.value, "success").value)
    ensures r.Rejected? ==>
      && reply.Responded? && reply.json.Success? && !Nullish(reply.json.value)
      && !Truthy(GetProp(reply.json.value, "success").value)
      && r.errors == GetProp(reply.json.value, "errors").value
    ensures r.Failed? ==> reply.NetworkError? || reply.json.Failure? || Nullish(reply.json.value)
    ensures Configured(c) && reply.NetworkError? ==> r == Failed(reply.message)
    ensures Configured(c) && reply.Responded? && reply.json.Failure? ==> r == Failed(reply.json.error)
    ensures Configured(c) && reply.Responded? && reply.json.Success? && Nullish(reply.json.value) ==>
      r == Failed(ReadError(reply.json.value, "success"))
  {
    if !Configured(c) then NotConfigured
    else match reply
      case NetworkError(message) => Failed(message)
      case Responded(_, Failure(message)) => Failed(message)
      case Responded(_, Success(result)) =>
        match GetProp(result, "success")
        case Failure(message) => Failed(message)
        case Success(success) =>
          if Truthy(success) then Purged
          else Rejected(GetProp(result, "errors").value)
  }

  /** The result record always reports `success`, true exactly for `Purged`. */
  lemma PurgeResultShape(r: PurgeResult)
    ensures r.ToJs().Obj? && "success" in r.ToJs().props
    ensures r.ToJs().props["success"] == Bool(r == Purged)
  {
  }

  const DefaultPublicUrl: string := "https://educationelly-k8s.el-jefe.me"

  /** `${process.env.PUBLIC_URL || default}/students`. */
  function StudentsUrl(publicUrl: Option<string>): (u: string)
    ensures Truthy(FromOption(publicUrl)) ==> u == publicUrl.value + "/students"
    ensures !Truthy(FromOption(publicUrl)) ==> u == DefaultPublicUrl + "/students"
  {
    ToStr(Or(FromOption(publicUrl), Str(DefaultPublicUrl))) + "/students"
  }

  /** The argument `purgeStudentsCache()` passes to `purgeCache`: a one-element array. */
  function StudentsUrls(publicUrl: Option<string>): JsValue
  {
    Arr([Str(StudentsUrl(publicUrl))])
  }

  /** `purgeStudentsCache()`: a best-effort purge that reports, never throws. */
  function PurgeStudentsCache(c: Credentials, publicUrl: Option<string>, reply: Fetched): (r: PurgeResult)
    ensures !Configured(c) <==> r == NotConfigured
    ensures reply.NetworkError? && Configured(c) ==> r == Failed(reply.message)
  {
    PurgeCache(c, StudentsUrls(publicUrl), reply)
  }

  /** When configured, the students purge asks for exactly one URL, the students page, at the zone's endpoint. */
  lemma StudentsPurgeTargetsOneUrl(c: Credentials, publicUrl: Option<string>)
    requires Configured(c)
    ensures Request(c, StudentsUrls(publicUrl))
      == Some(PurgeRequest(ApiBase + c.zoneId.value + "/purge_cache", "Bearer " + c.apiToken.value,
                           [Str(StudentsUrl(publicUrl))]))
  {
  }
}

/** `Resources::Media`: media type checks, the content type an upload declares, metadata lookup
    and deletion, and the download of media content. */
module Media {
  import opened Wrappers
  import opened Text
  import opened Values
  import opened Errors
  import opened Types
  import opened KapsoClient

  // ---------------------------------------------------------------- upload

  /** `validate_media_type`: `type.to_s` must be one of the five media types. */
  function ValidateMediaType(mediaType: Value): (r: Result<(), Failure>)
    ensures r.Success? <==> Render(mediaType) in MediaTypes
    ensures r.Failure? ==>
              r.error == ArgumentError("Invalid media type '" + Render(mediaType) +
                                       "'. Must be one of: image, audio, video, document, sticker")
  {
    if Render(mediaType) in MediaTypes then Success(())
    else Failure(ArgumentError("Invalid media type '" + Render(mediaType) + "'. Must be one of: image, audio, video, document, sticker"))
  }

  /** Strings and symbols are checked by their text. */
  lemma AcceptedMediaTypes(name: string)
    ensures ValidateMediaType(VStr(name)).Success? <==>
              name == "image" || name == "audio" || name == "video" || name == "document" || name == "sticker"
    ensures ValidateMediaType(VSym(name)) == ValidateMediaType(VStr(name))
  {
  }

  /** The generic content type of a media type, when the file name tells nothing. */
  function FallbackContentType(mediaType: Value): (ct: string) {
    match Render(mediaType)
    case "image" => "image/jpeg"
    case "audio" => "audio/mpeg"
    case "video" => "video/mp4"
    case "document" => "application/pdf"
    case "sticker" => "image/webp"
    case _ => "application/octet-stream"
  }

  /** Exactly the accepted media types have a content type of their own; the rest are sent as
      `application/octet-stream`. */
  lemma FallbackMatchesMediaTypes(mediaType: Value)
    ensures ValidateMediaType(mediaType).Success? <==> FallbackContentType(mediaType) != "application/octet-stream"
    ensures Render(mediaType) == "image" || Render(mediaType) == "sticker" ==> StartsWith(FallbackContentType(mediaType), "image/")
  {
  }

  /** `determine_content_type`: what MIME lookup found for the file name, then for the file's
      path, then the generic type of the media type. The lookups are inputs: `None` when no name
      or path was given or nothing matched, otherwise the first match. */
  function ContentType(byFilename: Option<string>, byPath: Option<string>, mediaType: Value): (ct: string)
    ensures byFilename.Some? ==> ct == byFilename.value
    ensures byFilename.None? && byPath.Some? ==> ct == byPath.value
    ensures byFilename.None? && byPath.None? ==> ct == FallbackContentType(mediaType)
  {
    if byFilename.Some? then byFilename.value else if byPath.Some? then byPath.value else FallbackContentType(mediaType)
  }

  /** The form of `upload`: the product and the type, then the file part, then the upload
      strategy when one is given. */
  function UploadForm(mediaType: Value, filePart: Value, messagingProduct: Value, uploadStrategy: Value): (form: Fields)
    ensures Holds(form, With(map[KStr("messaging_product") := messagingProduct, KStr("type") := mediaType, KStr("file") := filePart],
                             KStr("upload_strategy"), When(Truthy(uploadStrategy), uploadStrategy)))
    ensures |form| >= 3 && form[..3] == [(KStr("messaging_product"), messagingProduct), (KStr("type"), mediaType), (KStr("file"), filePart)]
  {
    var form := [(KStr("messaging_product"), messagingProduct), (KStr("type"), mediaType), (KStr("file"), filePart)];
    var m := map[KStr("messaging_product") := messagingProduct, KStr("type") := mediaType, KStr("file") := filePart];
    Hash3(KStr("messaging_product"), messagingProduct, KStr("type"), mediaType, KStr("file"), filePart);
    PutOptHolds(form, m, KStr("upload_strategy"), When(Truthy(uploadStrategy), uploadStrategy));
    assert !HasKey(form, KStr("upload_strategy")) by { HoldsLookup(form, m, KStr("upload_strategy")); }
    PutOpt(form, KStr("upload_strategy"), When(Truthy(uploadStrategy), uploadStrategy))
  }

  const MultipartHeaders: Fields := [(ContentTypeHeader, VStr("multipart/form-data"))]

  /** `upload`: the media type is checked first, then the file (`filePart` is the `UploadIO` part
      made of it, or the error the file argument raises); then a POST of the form to
      `<phone_number_id>/media` with the multipart content type, answered as JSON. */
  function Upload(phoneNumberId: Value, mediaType: Value, filePart: Result<Value, Failure>,
                  messagingProduct: Value := VStr("whatsapp"), uploadStrategy: Value := VNil): (r: Result<ApiCall, Failure>)
    ensures r.Success? <==> Render(mediaType) in MediaTypes && filePart.Success?
    ensures Render(mediaType) !in MediaTypes ==> r == Failure(ValidateMediaType(mediaType).error)
    ensures Render(mediaType) in MediaTypes && filePart.Failure? ==> r == Failure(filePart.error)
    ensures r.Success? ==>
              r.value.verb == POST && r.value.path == Render(phoneNumberId) + "/media" && r.value.query == None &&
              r.value.headers == [(ContentTypeHeader, VStr("multipart/form-data"))] && r.value.responseType == AsJson &&
              r.value.body.FormBody? &&
              Holds(r.value.body.form,
                    With(map[KStr("messaging_product") := messagingProduct, KStr("type") := mediaType, KStr("file") := filePart.value],
                         KStr("upload_strategy"), When(Truthy(uploadStrategy), uploadStrategy)))
  {
    var _ :- ValidateMediaType(mediaType);
    var part :- filePart;
    Success(ApiCall(POST, Render(phoneNumberId) + "/media", None,
                    FormBody(UploadForm(mediaType, part, messagingProduct, uploadStrategy)), MultipartHeaders, AsJson))
  }

  /** The upload's own content type replaces the JSON one, while the client's token and API key
      are still sent. */
  lemma UploadHeaders(c: Client, call: ApiCall, headers: Fields)
    requires call.headers == MultipartHeaders
    requires BuiltHeaders(c, call.headers, headers)
    ensures Lookup(headers, ContentTypeHeader) == Some(VStr("multipart/form-data"))
    ensures Lookup(headers, AuthorizationHeader) == if c.accessToken.Some? then Some(VStr("Bearer " + c.accessToken.value)) else None
    ensures Lookup(headers, ApiKeyHeader) == if c.kapsoApiKey.Some? then Some(VStr(c.kapsoApiKey.value)) else None
  {
    var custom := MultipartHeaders;
    assert custom[0].0 == ContentTypeHeader;
    assert Compact(custom) == custom;
    assert HasKey(custom, ContentTypeHeader);
    assert !HasKey(custom, AuthorizationHeader) && !HasKey(custom, ApiKeyHeader);
    assert Latest(custom, ContentTypeHeader) == Some(VStr("multipart/form-data"));
  }

  // ---------------------------------------------------------------- metadata and deletion

  const PhoneNumberRequired := "phone_number_id is required when using Kapso proxy"

  /** `get` (GET) and `delete` (DELETE) of a media id: through the proxy a phone number id must be
      given (a nil one is refused); it is sent in the query only when truthy. */
  function MediaRequest(c: Client, verb: Verb, mediaId: Value, phoneNumberId: Value): (r: Result<ApiCall, Failure>)
    ensures r.Success? <==> !(c.kapsoProxy && phoneNumberId.VNil?)
    ensures r.Failure? ==> r.error == ArgumentError(PhoneNumberRequired)
    ensures r.Success? ==>
              r.value.verb == verb && r.value.path == Render(mediaId) && r.value.body == NoBody && r.value.query.Some? &&
              Holds(r.value.query.value, With(map[], KSym("phone_number_id"), When(Truthy(phoneNumberId), phoneNumberId)))
  {
    if c.kapsoProxy && phoneNumberId.VNil? then Failure(ArgumentError(PhoneNumberRequired))
    else
      PutOptHolds([], map[], KSym("phone_number_id"), When(Truthy(phoneNumberId), phoneNumberId));
      Success(JsonCall(verb, Render(mediaId), Some(PutOpt([], KSym("phone_number_id"), When(Truthy(phoneNumberId), phoneNumberId))), NoBody))
  }

  /** `get`: the metadata, decoded as a `MediaMetadataResponse`. */
  function Get(c: Client, mediaId: Value, phoneNumberId: Value := VNil): (r: Result<ApiCall, Failure>)
    ensures r.Success? <==> !(c.kapsoProxy && phoneNumberId.VNil?)
    ensures r.Success? ==> r.value.verb == GET && r.value.path == Render(mediaId)
  {
    MediaRequest(c, GET, mediaId, phoneNumberId)
  }

  /** `delete`: answered with a `GraphSuccessResponse`. */
  function Delete(c: Client, mediaId: Value, phoneNumberId: Value := VNil): (r: Result<ApiCall, Failure>)
    ensures r.Success? <==> !(c.kapsoProxy && phoneNumberId.VNil?)
    ensures r.Success? ==> r.value.verb == DELETE && r.value.path == Render(mediaId)
  {
    MediaRequest(c, DELETE, mediaId, phoneNumberId)
  }

  /** Outside the proxy the phone number id is optional, and `false` passes the nil check but is
      not sent. */
  lemma PhoneNumberOptionalOutsideProxy(c: Client, mediaId: Value)
    requires !c.kapsoProxy
    ensures Get(c, mediaId).Success? && Get(c, mediaId).value.query == Some([])
    ensures Get(c.(kapsoProxy := true), mediaId, VBool(false)).value.query == Some([])
  {
  }

  // ---------------------------------------------------------------- download

  /** How the download goes out: to the URL of the metadata, through `fetch` (authorised) or
      `raw_request`. */
  datatype DownloadPlan = DownloadPlan(lookup: ApiCall, url: string, authorized: bool)

  /** `use_auth`: `:auto` authorises exactly the Graph API host, `:always` and `:never` say so
      themselves, and any other value is refused. The URL is only read under `:auto`. */
  function UseAuth(auth: Value, url: Value): (r: Result<bool, Failure>)
    ensures auth == VSym("always") ==> r == Success(true)
    ensures auth == VSym("never") ==> r == Success(false)
    ensures auth == VSym("auto") ==> (r.Success? <==> url.VStr?)
    ensures auth == VSym("auto") && url.VStr? ==> r.value == Contains(url.s, "graph.facebook.com")
    ensures auth != VSym("auto") && auth != VSym("always") && auth != VSym("never") ==>
              r == Failure(ArgumentError("auth must be :auto, :always, or :never"))
  {
    if auth == VSym("auto") then
      (if url.VStr? then Success(Contains(url.s, "graph.facebook.com")) else Failure(TypeFault("undefined method `include?'")))
    else if auth == VSym("always") then Success(true)
    else if auth == VSym("never") then Success(false)
    else Failure(ArgumentError("auth must be :auto, :always, or :never"))
  }

  /** Under `:auto`, a Graph API address is fetched with authorisation. */
  lemma AutoAuthorizesGraph()
    ensures UseAuth(VSym("auto"), VStr("https://graph.facebook.com/v24.0/123")) == Success(true)
  {
    var host := "graph.facebook.com";
    var graph := "https://" + host + "/v24.0/123";
    assert graph == "https://graph.facebook.com/v24.0/123";
    assert graph[8..8 + |host|] == host;
    assert OccursAt(graph, host, 8);
  }

  /** Under `:auto`, a media CDN address is fetched without authorisation. */
  lemma AutoSkipsCdnAuth()
    ensures UseAuth(VSym("auto"), VStr("https://lookaside.fbsbx.com/whatsapp/123")) == Success(false)
  {
    NotContainsChar("https://lookaside.fbsbx.com/whatsapp/123", "graph.facebook.com", 0);
  }

  /** The steps of `download` before the transfer: the metadata `get`, the URL read from its
      reply `metadata`, and the choice of authorisation. */
  function Plan(c: Client, mediaId: Value, phoneNumberId: Value, auth: Value, metadata: Reply): (r: Result<DownloadPlan, Failure>)
    ensures Get(c, mediaId, phoneNumberId).Failure? ==> r == Failure(Get(c, mediaId, phoneNumberId).error)
    ensures r.Success? ==> Get(c, mediaId, phoneNumberId).Success? && r.value.lookup == Get(c, mediaId, phoneNumberId).value
    ensures r.Success? ==>
              DecodeReplyRecord(metadata, MediaMetadataFields).Success? &&
              var url := Field(DecodeReplyRecord(metadata, MediaMetadataFields).value, "url");
              r.value.url == Render(url) && UseAuth(auth, url) == Success(r.value.authorized)
  {
    var lookup :- Get(c, mediaId, phoneNumberId);
    var record :- DecodeReplyRecord(metadata, MediaMetadataFields);
    var url := Field(record, "url");
    var authorized :- UseAuth(auth, url);
    Success(DownloadPlan(lookup, Render(url), authorized))
  }

  /** What `download` returns: the body (`:binary`), the response (`:response`), or the Base64
      text of the body (`:base64`), whose encoding is not part of this model. */
  datatype Downloaded = Binary(body: Option<string>) | WholeResponse(response: HttpResponse) | Base64Of(body: Option<string>)

  /** The transfer's outcome. An authorised transfer goes through `fetch`, which raises the
      parsed API error on a non-2xx status; an unauthorised one returns the response, and a
      non-2xx status then raises "Failed to download media: <status>". A successful response is
      returned as `as:` says; any other `as:` is refused after the transfer. */
  function Outcome(plan: DownloadPlan, resp: HttpResponse, returnAs: Value, env: Env): (r: Result<Downloaded, Failure>)
    ensures plan.authorized && !Successful(resp.status) ==> r == Failure(HandleErrorResponse(resp, env).error)
    ensures !plan.authorized && !Successful(resp.status) ==>
              r.Failure? && r.error.GraphApi? && r.error.error.httpStatus == resp.status &&
              r.error.error.message == "Failed to download media: " + IntToString(resp.status) &&
              r.error.error.rawResponse == (if resp.body.Some? then VStr(resp.body.value) else VNil)
    ensures Successful(resp.status) && returnAs == VSym("binary") ==> r == Success(Binary(resp.body))
    ensures Successful(resp.status) && returnAs == VSym("response") ==> r == Success(WholeResponse(resp))
    ensures Successful(resp.status) && returnAs == VSym("base64") ==> r == Success(Base64Of(resp.body))
    ensures Successful(resp.status) && returnAs != VSym("binary") && returnAs != VSym("response") && returnAs != VSym("base64") ==>
              r == Failure(ArgumentError("as must be :binary, :response, or :base64"))
  {
    if plan.authorized && !Successful(resp.status) then Failure(Fetch(resp, env).error)
    else if !Successful(resp.status) then
      var raw := if resp.body.Some? then VStr(resp.body.value) else VNil;
      var a := Args(resp.status).(message := VStr("Failed to download media: " + IntToString(resp.status)), rawResponse := raw);
      assert CategorizeErrorCode(VInt(resp.status), resp.status).Some? by { CodeAlwaysCategorized(resp.status); }
      Failure(GraphApi(NewApiError(a).value))
    else if returnAs == VSym("binary") then Success(Binary(resp.body))
    else if returnAs == VSym("response") then Success(WholeResponse(resp))
    else if returnAs == VSym("base64") then Success(Base64Of(resp.body))
    else Failure(ArgumentError("as must be :binary, :response, or :base64"))
  }

  /** The headers the transfer carries, as written: `fetch` and `raw_request` both call
      `build_headers`, so the client's credentials go out whether or not the transfer is
      authorised. */
  method DownloadHeaders(c: Client, custom: Fields, authorized: bool) returns (headers: Fields)
    ensures UniqueKeys(headers)
    ensures !HasKey(Compact(custom), AuthorizationHeader) && c.accessToken.Some? ==>
              Lookup(headers, AuthorizationHeader) == Some(VStr("Bearer " + c.accessToken.value))
    ensures !HasKey(Compact(custom), ApiKeyHeader) && c.kapsoApiKey.Some? ==>
              Lookup(headers, ApiKeyHeader) == Some(VStr(c.kapsoApiKey.value))
  {
    headers := BuildHeaders(c, custom);
  }

  /** The headers of a transfer as its authorisation choice intends: an unauthorised transfer
      carries no client credentials, only what the caller passed. */
  method DownloadHeadersFixed(c: Client, custom: Fields, authorized: bool) returns (headers: Fields)
    ensures UniqueKeys(headers)
    ensures authorized && !HasKey(Compact(custom), AuthorizationHeader) && c.accessToken.Some? ==>
              Lookup(headers, AuthorizationHeader) == Some(VStr("Bearer " + c.accessToken.value))
    ensures !authorized && !HasKey(Compact(custom), AuthorizationHeader) ==> Lookup(headers, AuthorizationHeader) == None
    ensures !authorized && !HasKey(Compact(custom), ApiKeyHeader) ==> Lookup(headers, ApiKeyHeader) == None
    ensures forall k :: HasKey(Compact(custom), k) ==> Lookup(headers, k) == Latest(Compact(custom), k)
  {
    if authorized {
      headers := BuildHeaders(c, custom);
    } else {
      headers := BuildHeaders(c.(accessToken := None, kapsoApiKey := None), custom);
    }
  }
}

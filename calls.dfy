/** `Resources::Calls`: call control through `<phone_number_id>/calls`, the proxy's call history,
    and call permissions. Replies are decoded by `Types.DecodeCallConnect`,
    `Types.DecodeCallAction`, `Types.DecodePaged` and `Types.SuccessResponse`. */
module Calls {
  import opened Wrappers
  import opened Values
  import opened Errors
  import opened KapsoClient

  const CallIdMessage := "call_id cannot be empty"
  const SessionMessage := "session cannot be nil"
  const UserMessage := "user_wa_id cannot be empty"
  const PermissionMessage := "permission cannot be empty"

  function CallsPath(phoneNumberId: Value): string {
    Render(phoneNumberId) + "/calls"
  }

  /** The entries of `connect`: WhatsApp, the callee, action `connect`, and the session and the
      callback data when they are truthy. */
  function ConnectMap(to: Value, session: Value, biz: Value): map<Key, Value> {
    With(With(map[KSym("messaging_product") := VStr("whatsapp"), KSym("to") := to, KSym("action") := VStr("connect")],
              KSym("session"), When(Truthy(session), session)),
         KSym("biz_opaque_callback_data"), When(Truthy(biz), biz))
  }

  /** `connect`: a POST of the connect payload; it checks nothing. */
  function Connect(phoneNumberId: Value, to: Value, session: Value := VNil, biz: Value := VNil): (call: ApiCall)
    ensures JsonRequest(call, POST, CallsPath(phoneNumberId), None, ConnectMap(to, session, biz))
  {
    var base := [(KSym("messaging_product"), VStr("whatsapp")), (KSym("to"), to), (KSym("action"), VStr("connect"))];
    Hash3(KSym("messaging_product"), VStr("whatsapp"), KSym("to"), to, KSym("action"), VStr("connect"));
    var withSession := PutOpt(base, KSym("session"), When(Truthy(session), session));
    PutOptHolds(base, map[KSym("messaging_product") := VStr("whatsapp"), KSym("to") := to, KSym("action") := VStr("connect")],
                KSym("session"), When(Truthy(session), session));
    var payload := PutOpt(withSession, KSym("biz_opaque_callback_data"), When(Truthy(biz), biz));
    PutOptHolds(withSession,
                With(map[KSym("messaging_product") := VStr("whatsapp"), KSym("to") := to, KSym("action") := VStr("connect")],
                     KSym("session"), When(Truthy(session), session)),
                KSym("biz_opaque_callback_data"), When(Truthy(biz), biz));
    JsonCall(POST, CallsPath(phoneNumberId), None, JsonBody(VHash(payload)))
  }

  /** The entries of a call action: WhatsApp, the call and the action. */
  function ActionMap(callId: Value, action: string): map<Key, Value> {
    map[KSym("messaging_product") := VStr("whatsapp"), KSym("call_id") := callId, KSym("action") := VStr(action)]
  }

  function ActionFields(callId: Value, action: string): (h: Fields)
    ensures Holds(h, ActionMap(callId, action))
  {
    Hash3(KSym("messaging_product"), VStr("whatsapp"), KSym("call_id"), callId, KSym("action"), VStr(action));
    [(KSym("messaging_product"), VStr("whatsapp")), (KSym("call_id"), callId), (KSym("action"), VStr(action))]
  }

  /** `pre_accept` and `accept` (the latter with optional callback data): a non-blank call id, then
      a session, then the action payload with the session. */
  function Answer(phoneNumberId: Value, callId: Value, session: Value, action: string, biz: Value): (r: Result<ApiCall, Failure>)
    ensures r.Success? <==> Filled(callId) && !session.VNil?
    ensures Blank(callId) ==> r == Failure(ArgumentError(CallIdMessage))
    ensures Filled(callId) && session.VNil? ==> r == Failure(ArgumentError(SessionMessage))
    ensures r.Success? ==>
              JsonRequest(r.value, POST, CallsPath(phoneNumberId), None,
                          With(ActionMap(callId, action)[KSym("session") := session],
                               KSym("biz_opaque_callback_data"), When(Truthy(biz), biz)))
  {
    var _ :- RequireText(callId, CallIdMessage);
    if session.VNil? then Failure(ArgumentError(SessionMessage))
    else
      var base := ActionFields(callId, action) + [(KSym("session"), session)];
      Snoc(ActionFields(callId, action), ActionMap(callId, action), KSym("session"), session);
      var payload := PutOpt(base, KSym("biz_opaque_callback_data"), When(Truthy(biz), biz));
      PutOptHolds(base, ActionMap(callId, action)[KSym("session") := session],
                  KSym("biz_opaque_callback_data"), When(Truthy(biz), biz));
      Success(JsonCall(POST, CallsPath(phoneNumberId), None, JsonBody(VHash(payload))))
  }

  /** `pre_accept`: never carries callback data. */
  function PreAccept(phoneNumberId: Value, callId: Value, session: Value): (r: Result<ApiCall, Failure>)
    ensures r.Success? <==> Filled(callId) && !session.VNil?
    ensures r.Success? ==>
              JsonRequest(r.value, POST, CallsPath(phoneNumberId), None, ActionMap(callId, "pre_accept")[KSym("session") := session])
  {
    Answer(phoneNumberId, callId, session, "pre_accept", VNil)
  }

  /** `accept`: carries the callback data when it is truthy. */
  function Accept(phoneNumberId: Value, callId: Value, session: Value, biz: Value := VNil): (r: Result<ApiCall, Failure>)
    ensures r.Success? <==> Filled(callId) && !session.VNil?
    ensures r.Success? ==>
              JsonRequest(r.value, POST, CallsPath(phoneNumberId), None,
                          With(ActionMap(callId, "accept")[KSym("session") := session],
                               KSym("biz_opaque_callback_data"), When(Truthy(biz), biz)))
  {
    Answer(phoneNumberId, callId, session, "accept", biz)
  }

  /** `reject` and `terminate`: a non-blank call id, then exactly the action payload. */
  function Hangup(phoneNumberId: Value, callId: Value, action: string): (r: Result<ApiCall, Failure>)
    ensures r.Success? <==> Filled(callId)
    ensures Blank(callId) ==> r == Failure(ArgumentError(CallIdMessage))
    ensures r.Success? ==> JsonRequest(r.value, POST, CallsPath(phoneNumberId), None, ActionMap(callId, action))
  {
    var _ :- RequireText(callId, CallIdMessage);
    Success(JsonCall(POST, CallsPath(phoneNumberId), None, JsonBody(VHash(ActionFields(callId, action)))))
  }

  function Reject(phoneNumberId: Value, callId: Value): (r: Result<ApiCall, Failure>)
    ensures r.Success? <==> Filled(callId)
    ensures r.Success? ==> JsonRequest(r.value, POST, CallsPath(phoneNumberId), None, ActionMap(callId, "reject"))
  {
    Hangup(phoneNumberId, callId, "reject")
  }

  function Terminate(phoneNumberId: Value, callId: Value): (r: Result<ApiCall, Failure>)
    ensures r.Success? <==> Filled(callId)
    ensures r.Success? ==> JsonRequest(r.value, POST, CallsPath(phoneNumberId), None, ActionMap(callId, "terminate"))
  {
    Hangup(phoneNumberId, callId, "terminate")
  }

  /** The filters of `list`, before `compact`; `until_time` is sent as `until`. */
  function ListFilters(direction: Value, status: Value, since: Value, untilTime: Value, callId: Value,
                       limit: Value, after: Value, before: Value, fields: Value): Fields {
    [(KSym("direction"), direction), (KSym("status"), status), (KSym("since"), since), (KSym("until"), untilTime),
     (KSym("call_id"), callId), (KSym("limit"), limit), (KSym("after"), after), (KSym("before"), before),
     (KSym("fields"), fields)]
  }

  /** `list` (proxy only): a GET of the calls with the filters that are not nil. */
  function List(c: Client, phoneNumberId: Value, direction: Value, status: Value, since: Value, untilTime: Value,
                callId: Value, limit: Value, after: Value, before: Value, fields: Value): (r: Result<ApiCall, Failure>)
    ensures r.Success? <==> c.kapsoProxy
    ensures r.Failure? ==> r.error == ProxyRequired("Call history API")
    ensures r.Success? ==>
              r.value.verb == GET && r.value.path == CallsPath(phoneNumberId) && r.value.body == NoBody &&
              CompactOf(r.value.query, ListFilters(direction, status, since, untilTime, callId, limit, after, before, fields))
  {
    var _ :- RequireProxy(c, "Call history API");
    Success(JsonCall(GET, CallsPath(phoneNumberId),
                     Some(Compact(ListFilters(direction, status, since, untilTime, callId, limit, after, before, fields))), NoBody))
  }

  /** `list` sends the end of the period under `until`, never under `until_time`. */
  lemma ListSendsUntil(c: Client, phoneNumberId: Value, untilTime: Value)
    requires c.kapsoProxy && !untilTime.VNil?
    ensures (KSym("until"), untilTime) in
            List(c, phoneNumberId, VNil, VNil, VNil, untilTime, VNil, VNil, VNil, VNil, VNil).value.query.value
    ensures !HasKey(List(c, phoneNumberId, VNil, VNil, VNil, untilTime, VNil, VNil, VNil, VNil, VNil).value.query.value,
                    KSym("until_time"))
  {
    var all := ListFilters(VNil, VNil, VNil, untilTime, VNil, VNil, VNil, VNil, VNil);
    assert (KSym("until"), untilTime) in all;
    CompactDropsNil(all, KSym("until_time"));
  }

  /** `get` (proxy only): a GET of `<phone_number_id>/calls/<call_id>`, asking for `fields` only
      when they are truthy. */
  function Get(c: Client, phoneNumberId: Value, callId: Value, fields: Value := VNil): (r: Result<ApiCall, Failure>)
    ensures r.Success? <==> c.kapsoProxy
    ensures r.Failure? ==> r.error == ProxyRequired("Call details API")
    ensures r.Success? ==>
              r.value.verb == GET && r.value.path == CallsPath(phoneNumberId) + "/" + Render(callId) && r.value.body == NoBody &&
              r.value.query.Some? && Holds(r.value.query.value, With(map[], KSym("fields"), When(Truthy(fields), fields)))
  {
    var _ :- RequireProxy(c, "Call details API");
    PutOptHolds([], map[], KSym("fields"), When(Truthy(fields), fields));
    Success(JsonCall(GET, CallsPath(phoneNumberId) + "/" + Render(callId),
                     Some(PutOpt([], KSym("fields"), When(Truthy(fields), fields))), NoBody))
  }

  function PermissionsPath(phoneNumberId: Value): string {
    Render(phoneNumberId) + "/call_permissions"
  }

  /** `Permissions#get`: a non-blank user, asked for in the query. */
  function PermissionsGet(phoneNumberId: Value, userWaId: Value): (r: Result<ApiCall, Failure>)
    ensures r.Success? <==> Filled(userWaId)
    ensures Blank(userWaId) ==> r == Failure(ArgumentError(UserMessage))
    ensures r.Success? ==> r.value == JsonCall(GET, PermissionsPath(phoneNumberId), Some([(KSym("user_wa_id"), userWaId)]), NoBody)
  {
    var _ :- RequireText(userWaId, UserMessage);
    Success(JsonCall(GET, PermissionsPath(phoneNumberId), Some([(KSym("user_wa_id"), userWaId)]), NoBody))
  }

  /** `Permissions#update`: a non-blank user, then a permission that is not nil; the payload holds
      both. */
  function PermissionsUpdate(phoneNumberId: Value, userWaId: Value, permission: Value): (r: Result<ApiCall, Failure>)
    ensures r.Success? <==> Filled(userWaId) && !permission.VNil?
    ensures Blank(userWaId) ==> r == Failure(ArgumentError(UserMessage))
    ensures Filled(userWaId) && permission.VNil? ==> r == Failure(ArgumentError(PermissionMessage))
    ensures r.Success? ==>
              JsonRequest(r.value, POST, PermissionsPath(phoneNumberId), None,
                          map[KSym("user_wa_id") := userWaId, KSym("permission") := permission])
  {
    var _ :- RequireText(userWaId, UserMessage);
    if permission.VNil? then Failure(ArgumentError(PermissionMessage))
    else
      Hash2(KSym("user_wa_id"), userWaId, KSym("permission"), permission);
      Success(JsonCall(POST, PermissionsPath(phoneNumberId), None,
                       JsonBody(VHash([(KSym("user_wa_id"), userWaId), (KSym("permission"), permission)]))))
  }
}

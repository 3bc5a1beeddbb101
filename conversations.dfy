/** `Resources::Conversations` (Kapso proxy only): listing, reading and changing the status of
    conversations, and their analytics. A listing is decoded by `Types.DecodePaged` with the
    conversation record, `get` by `Types.DecodeEnveloped`, a status change by
    `Types.SuccessResponse`. */
module Conversations {
  import opened Wrappers
  import opened Values
  import opened Errors
  import opened KapsoClient

  const Feature := "Conversations API"
  const AnalyticsFeature := "Conversation Analytics API"
  const IdMessage := "conversation_id cannot be empty"
  const StatusMessage := "status cannot be empty"

  /** The filters of `list`, before `compact`. */
  function ListFilters(status: Value, lastActiveSince: Value, lastActiveUntil: Value, phoneNumber: Value,
                       limit: Value, after: Value, before: Value, fields: Value): Fields {
    [(KSym("status"), status), (KSym("last_active_since"), lastActiveSince),
     (KSym("last_active_until"), lastActiveUntil), (KSym("phone_number"), phoneNumber), (KSym("limit"), limit),
     (KSym("after"), after), (KSym("before"), before), (KSym("fields"), fields)]
  }

  /** `list`: a GET of `<phone_number_id>/conversations` with the filters that are not nil. */
  function List(c: Client, phoneNumberId: Value, status: Value, lastActiveSince: Value, lastActiveUntil: Value,
                phoneNumber: Value, limit: Value, after: Value, before: Value, fields: Value): (r: Result<ApiCall, Failure>)
    ensures r.Success? <==> c.kapsoProxy
    ensures r.Failure? ==> r.error == ProxyRequired(Feature)
    ensures r.Success? ==>
              r.value.verb == GET && r.value.path == Render(phoneNumberId) + "/conversations" && r.value.body == NoBody &&
              CompactOf(r.value.query, ListFilters(status, lastActiveSince, lastActiveUntil, phoneNumber, limit, after, before, fields))
  {
    var _ :- RequireProxy(c, Feature);
    Success(JsonCall(GET, Render(phoneNumberId) + "/conversations",
                     Some(Compact(ListFilters(status, lastActiveSince, lastActiveUntil, phoneNumber, limit, after, before, fields))),
                     NoBody))
  }

  /** `get`: the proxy check, then a non-blank id, then a GET of `conversations/<id>`. */
  function Get(c: Client, conversationId: Value): (r: Result<ApiCall, Failure>)
    ensures r.Success? <==> c.kapsoProxy && Filled(conversationId)
    ensures !c.kapsoProxy ==> r == Failure(ProxyRequired(Feature))
    ensures c.kapsoProxy && Blank(conversationId) ==> r == Failure(ArgumentError(IdMessage))
    ensures r.Success? ==> r.value == JsonCall(GET, "conversations/" + conversationId.s, None, NoBody)
  {
    var _ :- RequireProxy(c, Feature);
    var _ :- RequireText(conversationId, IdMessage);
    Success(JsonCall(GET, "conversations/" + Render(conversationId), None, NoBody))
  }

  /** `update_status`: the proxy check, a non-blank id, a non-blank status, in that order; the
      PATCH carries the status and nothing else. */
  function UpdateStatus(c: Client, conversationId: Value, status: Value): (r: Result<ApiCall, Failure>)
    ensures r.Success? <==> c.kapsoProxy && Filled(conversationId) && Filled(status)
    ensures !c.kapsoProxy ==> r == Failure(ProxyRequired(Feature))
    ensures c.kapsoProxy && Blank(conversationId) ==> r == Failure(ArgumentError(IdMessage))
    ensures c.kapsoProxy && Filled(conversationId) && Blank(status) ==> r == Failure(ArgumentError(StatusMessage))
    ensures r.Success? ==>
              JsonRequest(r.value, PATCH, "conversations/" + conversationId.s, None, map[KSym("status") := status])
  {
    var _ :- RequireProxy(c, Feature);
    var _ :- RequireText(conversationId, IdMessage);
    var _ :- RequireText(status, StatusMessage);
    Hash1(KSym("status"), status);
    Success(JsonCall(PATCH, "conversations/" + Render(conversationId), None, JsonBody(VHash([(KSym("status"), status)]))))
  }

  /** A status wrapper sets the status named and fails only as `update_status` does on the id. */
  ghost predicate SetsStatus(r: Result<ApiCall, Failure>, c: Client, conversationId: Value, status: string) {
    (r.Success? <==> c.kapsoProxy && Filled(conversationId)) &&
    (!c.kapsoProxy ==> r == Failure(ProxyRequired(Feature))) &&
    (c.kapsoProxy && Blank(conversationId) ==> r == Failure(ArgumentError(IdMessage))) &&
    (r.Success? ==>
       JsonRequest(r.value, PATCH, "conversations/" + conversationId.s, None, map[KSym("status") := VStr(status)]))
  }

  /** `archive`: status `archived`. */
  function Archive(c: Client, conversationId: Value): (r: Result<ApiCall, Failure>)
    ensures SetsStatus(r, c, conversationId, "archived")
  {
    assert "archived"[0] == 'a';
    UpdateStatus(c, conversationId, VStr("archived"))
  }

  /** `unarchive`: status `active`. */
  function Unarchive(c: Client, conversationId: Value): (r: Result<ApiCall, Failure>)
    ensures SetsStatus(r, c, conversationId, "active")
  {
    assert "active"[0] == 'a';
    UpdateStatus(c, conversationId, VStr("active"))
  }

  /** `end_conversation`: status `ended`. */
  function EndConversation(c: Client, conversationId: Value): (r: Result<ApiCall, Failure>)
    ensures SetsStatus(r, c, conversationId, "ended")
  {
    assert "ended"[0] == 'e';
    UpdateStatus(c, conversationId, VStr("ended"))
  }

  /** The filters of `analytics`, before `compact`; `until_time` is sent as `until`. */
  function AnalyticsFilters(conversationId: Value, since: Value, untilTime: Value, granularity: Value): Fields {
    [(KSym("conversation_id"), conversationId), (KSym("since"), since), (KSym("until"), untilTime),
     (KSym("granularity"), granularity)]
  }

  /** `analytics`: a GET of `<phone_number_id>/conversations/analytics` with the filters that are
      not nil; the granularity is `day` unless the caller names another. */
  function Analytics(c: Client, phoneNumberId: Value, conversationId: Value, since: Value, untilTime: Value,
                     granularity: Value := VStr("day")): (r: Result<ApiCall, Failure>)
    ensures r.Success? <==> c.kapsoProxy
    ensures r.Failure? ==> r.error == ProxyRequired(AnalyticsFeature)
    ensures r.Success? ==>
              r.value.verb == GET && r.value.path == Render(phoneNumberId) + "/conversations/analytics" &&
              r.value.body == NoBody && CompactOf(r.value.query, AnalyticsFilters(conversationId, since, untilTime, granularity))
  {
    var _ :- RequireProxy(c, AnalyticsFeature);
    Success(JsonCall(GET, Render(phoneNumberId) + "/conversations/analytics",
                     Some(Compact(AnalyticsFilters(conversationId, since, untilTime, granularity))), NoBody))
  }

  /** With the default granularity and no other filter, the analytics query asks for daily figures
      only. */
  lemma DefaultAnalyticsIsDaily(c: Client, phoneNumberId: Value)
    requires c.kapsoProxy
    ensures Analytics(c, phoneNumberId, VNil, VNil, VNil).value.query == Some([(KSym("granularity"), VStr("day"))])
  {
    var f := AnalyticsFilters(VNil, VNil, VNil, VStr("day"));
    assert f[3..][1..] == [];
    assert Compact(f[3..]) == [f[3]];
    assert f[2..][1..] == f[3..];
    assert f[1..][1..] == f[2..];
  }
}

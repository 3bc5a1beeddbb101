/** `Resources::Flows`: the requests that create, change, read and publish WhatsApp Flows, the
    idempotent `deploy` built from them, and the token choice of `download_flow_media`. The reply
    of each request is the parsed JSON value; payload encryption is not part of this model. */
module Flows {
  import opened Wrappers
  import opened Text
  import opened Values
  import opened Errors
  import opened Types
  import opened KapsoClient

  const DefaultCategories := VArr([VStr("OTHER")])
  const UpdateAttributes: seq<Key> := [KSym("name"), KSym("categories"), KSym("endpoint_uri"), KSym("application_id")]
  const PreviewFields := "preview.preview_url,preview.expires_at"
  const NoAttributesMessage := "No valid attributes provided"
  const TokenMessage := "Access token required to download Flow media"

  /** A request of this resource: the verb, the path, a query holding exactly `query`, and, for
      `Some(m)`, a JSON payload holding exactly `m` (no body for `None`). */
  ghost predicate FlowRequest(call: ApiCall, verb: Verb, path: string, query: map<Key, Value>, body: Option<map<Key, Value>>) {
    call.verb == verb && call.path == path && call.headers == [] && call.responseType == AsJson &&
    call.query.Some? && Holds(call.query.value, query) &&
    (body.None? ==> call.body == NoBody) &&
    (body.Some? ==> call.body.JsonBody? && call.body.payload.VHash? && Holds(call.body.payload.fields, body.value))
  }

  // ---------------------------------------------------------------- create, update, delete

  /** The entries of the `create` payload. */
  function CreateMap(name: Value, categories: Value, endpointUri: Value, applicationId: Value): map<Key, Value> {
    With(With(map[KSym("name") := name, KSym("categories") := categories],
              KSym("endpoint_uri"), When(Truthy(endpointUri), endpointUri)),
         KSym("application_id"), When(Truthy(applicationId), applicationId))
  }

  /** `create`: a POST of `<business_account_id>/flows` with the name and the categories (`OTHER`
      unless the caller names others); endpoint and application only when they are truthy. */
  function Create(businessAccountId: Value, name: Value, categories: Value := DefaultCategories,
                  endpointUri: Value := VNil, applicationId: Value := VNil): (call: ApiCall)
    ensures JsonRequest(call, POST, Render(businessAccountId) + "/flows", None,
                        CreateMap(name, categories, endpointUri, applicationId))
  {
    var base := [(KSym("name"), name), (KSym("categories"), categories)];
    Hash2(KSym("name"), name, KSym("categories"), categories);
    var m := map[KSym("name") := name, KSym("categories") := categories];
    var withEndpoint := PutOpt(base, KSym("endpoint_uri"), When(Truthy(endpointUri), endpointUri));
    PutOptHolds(base, m, KSym("endpoint_uri"), When(Truthy(endpointUri), endpointUri));
    PutOptHolds(withEndpoint, With(m, KSym("endpoint_uri"), When(Truthy(endpointUri), endpointUri)),
                KSym("application_id"), When(Truthy(applicationId), applicationId));
    JsonCall(POST, Render(businessAccountId) + "/flows", None,
             JsonBody(VHash(PutOpt(withEndpoint, KSym("application_id"), When(Truthy(applicationId), applicationId)))))
  }

  /** Without categories, a flow is created in the `OTHER` category and with nothing but its
      name besides. */
  lemma CreateDefaults(businessAccountId: Value, name: Value)
    ensures var call := Create(businessAccountId, name);
      call.body.JsonBody? && call.body.payload.VHash? &&
      Lookup(call.body.payload.fields, KSym("categories")) == Some(VArr([VStr("OTHER")])) &&
      Lookup(call.body.payload.fields, KSym("endpoint_uri")) == None &&
      Lookup(call.body.payload.fields, KSym("application_id")) == None
  {
    var call := Create(businessAccountId, name);
    HoldsLookup(call.body.payload.fields, CreateMap(name, DefaultCategories, VNil, VNil), KSym("categories"));
    HoldsLookup(call.body.payload.fields, CreateMap(name, DefaultCategories, VNil, VNil), KSym("endpoint_uri"));
    HoldsLookup(call.body.payload.fields, CreateMap(name, DefaultCategories, VNil, VNil), KSym("application_id"));
  }

  /** `attributes.select { |k, _| keys.include?(k) }`: the entries under one of `keys`, in order. */
  function Select(h: Fields, keys: seq<Key>): (r: Fields)
    ensures |r| <= |h|
    ensures forall e :: e in r <==> e in h && e.0 in keys
  {
    if h == [] then []
    else if h[0].0 in keys then [h[0]] + Select(h[1..], keys)
    else Select(h[1..], keys)
  }

  /** Selecting from a longer hash: an entry under another key adds nothing. */
  lemma {:induction false} SelectSkips(h: Fields, keys: seq<Key>, k: Key, v: Value)
    requires k !in keys
    ensures Select(h + [(k, v)], keys) == Select(h, keys)
  {
    if h == [] {
      assert Select([(k, v)], keys) == Select([(k, v)][1..], keys);
    } else {
      assert (h + [(k, v)])[1..] == h[1..] + [(k, v)];
      SelectSkips(h[1..], keys, k, v);
    }
  }

  /** Selecting distributes over concatenation: the kept entries stay in the caller's order. */
  lemma {:induction false} SelectAppend(a: Fields, b: Fields, keys: seq<Key>)
    ensures Select(a + b, keys) == Select(a, keys) + Select(b, keys)
  {
    if a == [] {
      assert a + b == b;
    } else {
      assert (a + b)[1..] == a[1..] + b;
      SelectAppend(a[1..], b, keys);
    }
  }

  /** Selecting keeps a hash whose every key is selected. */
  lemma {:induction false} SelectKeepsAll(h: Fields, keys: seq<Key>)
    requires forall i :: 0 <= i < |h| ==> h[i].0 in keys
    ensures Select(h, keys) == h
  {
    if h != [] {
      SelectKeepsAll(h[1..], keys);
    }
  }

  /** `update`: only the name, categories, endpoint and application are kept, in the caller's
      order; with none of them left nothing is sent. */
  function Update(flowId: Value, attributes: Fields): (r: Result<ApiCall, Failure>)
    ensures r.Success? <==> exists e :: e in attributes && e.0 in UpdateAttributes
    ensures r.Failure? ==> r.error == ArgumentError(NoAttributesMessage)
    ensures r.Success? ==>
              r.value.verb == POST && r.value.path == Render(flowId) && r.value.query == None &&
              r.value.body.JsonBody? && r.value.body.payload.VHash? &&
              forall e :: e in r.value.body.payload.fields <==> e in attributes && e.0 in UpdateAttributes
  {
    var payload := Select(attributes, UpdateAttributes);
    if payload == [] then Failure(ArgumentError(NoAttributesMessage))
    else
      assert payload[0] in payload;
      Success(JsonCall(POST, Render(flowId), None, JsonBody(VHash(payload))))
  }

  /** Attributes `update` does not know are dropped: adding one changes nothing. */
  lemma UpdateIgnoresUnknown(flowId: Value, attributes: Fields, k: Key, v: Value)
    requires k !in UpdateAttributes
    ensures Update(flowId, attributes + [(k, v)]) == Update(flowId, attributes)
  {
    SelectSkips(attributes, UpdateAttributes, k, v);
  }

  /** `delete`: a DELETE of the flow itself. */
  function Delete(flowId: Value): (call: ApiCall)
    ensures call.verb == DELETE && call.path == Render(flowId) && call.query == None && call.body == NoBody
  {
    JsonCall(DELETE, Render(flowId), None, NoBody)
  }

  // ---------------------------------------------------------------- reading

  /** `query_params[:fields] = fields.join(',') if fields`: nothing for nil or false, the items
      joined with commas (inner arrays flattened) for an array; any other value has no `join`. */
  function FieldsParam(fields: Value): (r: Result<Fields, Failure>)
    ensures !Truthy(fields) ==> r == Success([])
    ensures Truthy(fields) && !fields.VArr? ==> r.Failure?
    ensures fields.VArr? ==> r == Success([(KSym("fields"), VStr(ArrayJoin(fields.items, ",")))])
  {
    if !Truthy(fields) then Success([])
    else if fields.VArr? then Success([(KSym("fields"), VStr(ArrayJoin(fields.items, ",")))])
    else Failure(TypeFault("undefined method `join'"))
  }

  /** The field list splits back on its commas into the item texts, when no item text holds a
      comma. */
  lemma FieldsSplitBack(items: seq<Value>)
    requires |items| > 0
    requires forall k, i :: 0 <= k < |items| && 0 <= i < |JoinPiece(items[k], ",")| ==> JoinPiece(items[k], ",")[i] != ','
    ensures FieldsParam(VArr(items)).value[0].1.s == Join(JoinPieces(items, ","), ",")
    ensures SplitFields(FieldsParam(VArr(items)).value[0].1.s, ',') == JoinPieces(items, ",")
  {
    SplitFieldsJoin(JoinPieces(items, ","), ',');
  }

  /** An inner array of names is sent as if its names stood in the outer list. */
  lemma NestedFieldsFlattened(names: seq<Value>, inner: seq<Value>)
    requires |inner| > 0
    ensures FieldsParam(VArr(names + [VArr(inner)])) == FieldsParam(VArr(names + inner))
  {
    ArrayJoinFlattens(names, inner, [], ",");
    assert names + [VArr(inner)] + [] == names + [VArr(inner)] && names + inner + [] == names + inner;
  }

  /** Field names are sent as one comma-separated list. */
  lemma FieldsJoined()
    ensures FieldsParam(VArr([VStr("id"), VStr("name"), VStr("status")])) == Success([(KSym("fields"), VStr("id,name,status"))])
  {
    var items := [VStr("id"), VStr("name"), VStr("status")];
    var parts := JoinPieces(items, ",");
    assert parts == ["id", "name", "status"];
    assert parts[1..][1..] == ["status"];
    assert Join(parts[1..], ",") == "name" + "," + "status";
    assert Join(parts, ",") == "id,name,status";
  }

  /** `fields: [['id', 'name']]` asks for the same fields as `['id', 'name']`. */
  lemma NestedFieldsExample()
    ensures FieldsParam(VArr([VArr([VStr("id"), VStr("name")])])) == Success([(KSym("fields"), VStr("id,name"))])
  {
    NestedFieldsFlattened([], [VStr("id"), VStr("name")]);
    assert [] + [VArr([VStr("id"), VStr("name")])] == [VArr([VStr("id"), VStr("name")])];
    assert [] + [VStr("id"), VStr("name")] == [VStr("id"), VStr("name")];
    var parts := JoinPieces([VStr("id"), VStr("name")], ",");
    assert parts == ["id", "name"];
    assert Join(parts, ",") == "id,name";
  }

  /** `get`: a GET of the flow, asking for the fields when they are given. */
  function Get(flowId: Value, fields: Value := VNil): (r: Result<ApiCall, Failure>)
    ensures r.Success? <==> FieldsParam(fields).Success?
    ensures r.Success? ==> r.value == JsonCall(GET, Render(flowId), Some(FieldsParam(fields).value), NoBody)
    ensures !Truthy(fields) ==> r == Success(JsonCall(GET, Render(flowId), Some([]), NoBody))
  {
    var query :- FieldsParam(fields);
    Success(JsonCall(GET, Render(flowId), Some(query), NoBody))
  }

  /** `list`: a GET of `<business_account_id>/flows`, asking for the fields when they are given. */
  function List(businessAccountId: Value, fields: Value := VNil): (r: Result<ApiCall, Failure>)
    ensures r.Success? <==> FieldsParam(fields).Success?
    ensures r.Success? ==> r.value == JsonCall(GET, Render(businessAccountId) + "/flows", Some(FieldsParam(fields).value), NoBody)
    ensures !Truthy(fields) ==> r == Success(JsonCall(GET, Render(businessAccountId) + "/flows", Some([]), NoBody))
  {
    var query :- FieldsParam(fields);
    Success(JsonCall(GET, Render(businessAccountId) + "/flows", Some(query), NoBody))
  }

  // ---------------------------------------------------------------- publishing and assets

  /** The entries of `build_query_params`. */
  function QueryMap(phoneNumberId: Value, businessAccountId: Value): map<Key, Value> {
    With(With(map[], KSym("phone_number_id"), When(Truthy(phoneNumberId), phoneNumberId)),
         KSym("business_account_id"), When(Truthy(businessAccountId), businessAccountId))
  }

  /** `build_query_params`: the phone number and the business account, each only when truthy. */
  function BuildQueryParams(phoneNumberId: Value, businessAccountId: Value): (r: Fields)
    ensures Holds(r, QueryMap(phoneNumberId, businessAccountId))
    ensures !Truthy(phoneNumberId) && !Truthy(businessAccountId) ==> r == []
  {
    var withPhone := PutOpt([], KSym("phone_number_id"), When(Truthy(phoneNumberId), phoneNumberId));
    PutOptHolds([], map[], KSym("phone_number_id"), When(Truthy(phoneNumberId), phoneNumberId));
    PutOptHolds(withPhone, With(map[], KSym("phone_number_id"), When(Truthy(phoneNumberId), phoneNumberId)),
                KSym("business_account_id"), When(Truthy(businessAccountId), businessAccountId));
    PutOpt(withPhone, KSym("business_account_id"), When(Truthy(businessAccountId), businessAccountId))
  }

  /** `publish`: a POST of `<flow_id>/publish` with the query parameters and an empty payload. */
  function Publish(flowId: Value, phoneNumberId: Value := VNil, businessAccountId: Value := VNil): (call: ApiCall)
    ensures FlowRequest(call, POST, Render(flowId) + "/publish", QueryMap(phoneNumberId, businessAccountId), Some(map[]))
  {
    JsonCall(POST, Render(flowId) + "/publish", Some(BuildQueryParams(phoneNumberId, businessAccountId)), JsonBody(VHash([])))
  }

  /** `deprecate`: a POST of `<flow_id>/deprecate` with the query parameters and an empty payload. */
  function Deprecate(flowId: Value, phoneNumberId: Value := VNil, businessAccountId: Value := VNil): (call: ApiCall)
    ensures FlowRequest(call, POST, Render(flowId) + "/deprecate", QueryMap(phoneNumberId, businessAccountId), Some(map[]))
  {
    JsonCall(POST, Render(flowId) + "/deprecate", Some(BuildQueryParams(phoneNumberId, businessAccountId)), JsonBody(VHash([])))
  }

  /** The asset as `update_asset` sends it: a String verbatim, anything else through `to_json`
      (here the caller-supplied `toJson`). */
  function AssetText(asset: Value, toJson: Value -> string): (r: Value)
    ensures r.VStr?
    ensures asset.VStr? ==> r == asset
    ensures !asset.VStr? ==> r == VStr(toJson(asset))
  {
    if asset.VStr? then asset else VStr(toJson(asset))
  }

  function AssetMap(asset: Value, toJson: Value -> string): map<Key, Value> {
    map[KSym("messaging_product") := VStr("whatsapp"), KSym("asset_type") := VStr("FLOW_JSON"),
        KSym("asset") := AssetText(asset, toJson)]
  }

  /** `update_asset`: a POST of `<flow_id>/assets` holding the WhatsApp product, the `FLOW_JSON`
      asset type and the asset text. */
  function UpdateAsset(flowId: Value, asset: Value, toJson: Value -> string, phoneNumberId: Value := VNil,
                       businessAccountId: Value := VNil): (call: ApiCall)
    ensures FlowRequest(call, POST, Render(flowId) + "/assets", QueryMap(phoneNumberId, businessAccountId),
                        Some(AssetMap(asset, toJson)))
  {
    Hash3(KSym("messaging_product"), VStr("whatsapp"), KSym("asset_type"), VStr("FLOW_JSON"),
          KSym("asset"), AssetText(asset, toJson));
    JsonCall(POST, Render(flowId) + "/assets", Some(BuildQueryParams(phoneNumberId, businessAccountId)),
             JsonBody(VHash([(KSym("messaging_product"), VStr("whatsapp")), (KSym("asset_type"), VStr("FLOW_JSON")),
                             (KSym("asset"), AssetText(asset, toJson))])))
  }

  /** A flow definition already in JSON text goes out as it is: the serialiser is never used. */
  lemma TextAssetVerbatim(flowId: Value, text: string, toJson1: Value -> string, toJson2: Value -> string)
    ensures UpdateAsset(flowId, VStr(text), toJson1) == UpdateAsset(flowId, VStr(text), toJson2)
    ensures var call := UpdateAsset(flowId, VStr(text), toJson1);
      call.body.JsonBody? && call.body.payload.VHash? && Lookup(call.body.payload.fields, KSym("asset")) == Some(VStr(text))
  {
    var call := UpdateAsset(flowId, VStr(text), toJson1);
    HoldsLookup(call.body.payload.fields, AssetMap(VStr(text), toJson1), KSym("asset"));
  }

  /** `preview`: a GET of the flow with the query parameters and the fixed preview fields. */
  function Preview(flowId: Value, phoneNumberId: Value := VNil, businessAccountId: Value := VNil): (call: ApiCall)
    ensures FlowRequest(call, GET, Render(flowId),
                        QueryMap(phoneNumberId, businessAccountId)[KSym("fields") := VStr(PreviewFields)], None)
  {
    PutHolds(BuildQueryParams(phoneNumberId, businessAccountId), QueryMap(phoneNumberId, businessAccountId),
             KSym("fields"), VStr(PreviewFields));
    JsonCall(GET, Render(flowId), Some(Put(BuildQueryParams(phoneNumberId, businessAccountId), KSym("fields"), VStr(PreviewFields))),
             NoBody)
  }

  // ---------------------------------------------------------------- deploy

  /** `items.find { |f| f['name'] == name }`, as an index: the first item whose name is `name`.
      Each item up to it must answer `['name']`; one that cannot raises. */
  function FirstNamed(items: seq<Value>, name: Value): (r: Result<Option<nat>, Failure>)
    ensures r.Success? && r.value.Some? ==> r.value.value < |items| && Index(items[r.value.value], "name") == Some(name)
    ensures r.Success? ==>
              forall j :: 0 <= j < (if r.value.Some? then r.value.value else |items|) ==>
                Index(items[j], "name").Some? && Index(items[j], "name").value != name
    ensures r.Failure? ==> exists j :: 0 <= j < |items| && Index(items[j], "name").None?
    decreases |items|
  {
    if items == [] then Success(None)
    else match Index(items[0], "name")
      case None => Failure(TypeFault("undefined method `[]'"))
      case Some(n) =>
        if n == name then Success(Some(0))
        else
          var rest := FirstNamed(items[1..], name);
          if rest.Failure? then Failure(rest.error)
          else Success(if rest.value.Some? then Some(rest.value.value + 1) else None)
  }

  /** The flows a listing holds, as `find` walks them: an array's items, or a hash's
      `[key, value]` pairs; any other value has no `find`. */
  function FlowsIn(data: Value): (r: Option<seq<Value>>)
    ensures data.VArr? ==> r == Some(data.items)
    ensures data.VHash? ==> r == Some(ToArray(data))
    ensures !data.VArr? && !data.VHash? ==> r.None?
  {
    if data.VArr? || data.VHash? then Some(ToArray(data)) else None
  }

  /** The existing flow `deploy` reuses: the first listed flow with the name, if any. */
  function ExistingFlow(listReply: Reply, name: Value): (r: Result<Option<Value>, Failure>)
    ensures DecodePaged(listReply, None).Failure? ==> r == Failure(DecodePaged(listReply, None).error)
    ensures r.Success? ==> DecodePaged(listReply, None).Success?
  {
    var page :- DecodePaged(listReply, None);
    match FlowsIn(page.data.value)
    case None => Failure(TypeFault("undefined method `find'"))
    case Some(items) =>
      var found :- FirstNamed(items, name);
      Success(if found.Some? then Some(items[found.value]) else None)
  }

  /** The attributes `deploy` sends to a reused flow: categories other than the default, and a
      truthy endpoint and application. */
  function RedeployAttributes(categories: Value, endpointUri: Value, applicationId: Value): (r: Fields)
    ensures forall i :: 0 <= i < |r| ==> r[i].0 in UpdateAttributes
    ensures r == [] <==> categories == DefaultCategories && !Truthy(endpointUri) && !Truthy(applicationId)
  {
    var h := if categories != DefaultCategories then [(KSym("categories"), categories)] else [];
    var h := if Truthy(endpointUri) then h + [(KSym("endpoint_uri"), endpointUri)] else h;
    if Truthy(applicationId) then h + [(KSym("application_id"), applicationId)] else h
  }

  /** What a deployment did: the requests in order, and the summary it returns. */
  datatype Deployment = Deployment(calls: seq<ApiCall>, id: Value, name: Value, status: string, message: string)

  const CreatedMessage := "Flow created and published"
  const UpdatedMessage := "Flow updated and published"

  /** Every deployment starts with the listing and ends with the asset upload and the publish of
      the flow's id, and reports it published under its name. */
  ghost predicate Deployed(d: Deployment, listCall: ApiCall, name: Value, flowJson: Value, toJson: Value -> string) {
    |d.calls| >= 3 && d.calls[0] == listCall &&
    d.calls[|d.calls| - 2] == UpdateAsset(d.id, flowJson, toJson) && d.calls[|d.calls| - 1] == Publish(d.id) &&
    d.name == name && d.status == "published"
  }

  /** The branch of `deploy` that creates the flow: its id comes from the `create` reply. */
  function DeployNew(listCall: ApiCall, businessAccountId: Value, name: Value, flowJson: Value, toJson: Value -> string,
                     created: Value, categories: Value, endpointUri: Value, applicationId: Value): (r: Result<Deployment, Failure>)
    ensures r.Success? <==> Index(created, "id").Some?
    ensures r.Success? ==>
              Deployed(r.value, listCall, name, flowJson, toJson) && r.value.message == CreatedMessage &&
              |r.value.calls| == 4 && r.value.calls[1] == Create(businessAccountId, name, categories, endpointUri, applicationId) &&
              r.value.id == Index(created, "id").value
  {
    match Index(created, "id")
    case None => Failure(TypeFault("undefined method `[]'"))
    case Some(id) =>
      Success(Deployment([listCall, Create(businessAccountId, name, categories, endpointUri, applicationId),
                          UpdateAsset(id, flowJson, toJson), Publish(id)], id, name, "published", CreatedMessage))
  }

  /** The branch of `deploy` that reuses a listed flow: its own id, and an update only when an
      attribute applies. */
  function DeployExisting(listCall: ApiCall, flow: Value, name: Value, flowJson: Value, toJson: Value -> string,
                          categories: Value, endpointUri: Value, applicationId: Value): (d: Deployment)
    ensures Deployed(d, listCall, name, flowJson, toJson) && d.message == UpdatedMessage
    ensures d.id == Values.Get(flow, "id")
    ensures |d.calls| == (if RedeployAttributes(categories, endpointUri, applicationId) == [] then 3 else 4)
    ensures |d.calls| == 4 ==>
              d.calls[1] == Update(d.id, RedeployAttributes(categories, endpointUri, applicationId)).value
  {
    var id := Values.Get(flow, "id");
    var attributes := RedeployAttributes(categories, endpointUri, applicationId);
    var update := if attributes == [] then []
                  else (assert attributes[0] in attributes; [Update(id, attributes).value]);
    Deployment([listCall] + update + [UpdateAsset(id, flowJson, toJson), Publish(id)], id, name, "published", UpdatedMessage)
  }

  /** `deploy` with the existing flows read from the listing's `data`. A new flow takes its id
      from the `create` reply; a reused one keeps its own and is updated only when an attribute
      applies. The asset upload and the publish of that id always close the sequence. `toJson`
      serialises the flow definition. */
  function Deploy(businessAccountId: Value, name: Value, flowJson: Value, toJson: Value -> string, listReply: Reply,
                  created: Value, categories: Value := DefaultCategories, endpointUri: Value := VNil,
                  applicationId: Value := VNil): (r: Result<Deployment, Failure>)
    ensures ExistingFlow(listReply, name).Failure? ==> r == Failure(ExistingFlow(listReply, name).error)
    ensures ExistingFlow(listReply, name) == Success(None) ==>
              r == DeployNew(List(businessAccountId).value, businessAccountId, name, flowJson, toJson, created,
                             categories, endpointUri, applicationId)
    ensures ExistingFlow(listReply, name).Success? && ExistingFlow(listReply, name).value.Some? ==>
              r == Success(DeployExisting(List(businessAccountId).value, ExistingFlow(listReply, name).value.value, name,
                                          flowJson, toJson, categories, endpointUri, applicationId))
    ensures r.Success? ==> Deployed(r.value, List(businessAccountId).value, name, flowJson, toJson)
  {
    var listCall := List(businessAccountId).value;
    var flow :- ExistingFlow(listReply, name);
    if flow.None? then DeployNew(listCall, businessAccountId, name, flowJson, toJson, created, categories, endpointUri, applicationId)
    else Success(DeployExisting(listCall, flow.value, name, flowJson, toJson, categories, endpointUri, applicationId))
  }

  /** A listing whose first flow has the name: that flow is the one reused. */
  lemma ListedFlowFound(name: Value, id: Value, others: seq<Value>)
    ensures var flow := VHash([(KStr("name"), name), (KStr("id"), id)]);
      ExistingFlow(Json(VHash([(KStr("data"), VArr([flow] + others))])), name) == Success(Some(flow)) &&
      Values.Get(flow, "id") == id
  {
    var flow := VHash([(KStr("name"), name), (KStr("id"), id)]);
    assert Lookup([(KStr("data"), VArr([flow] + others))], KStr("data")) == Some(VArr([flow] + others));
    assert Index(flow, "name") == Some(name);
    assert FirstNamed([flow] + others, name) == Success(Some(0));
    IndexOfIs(Keys(flow.fields), KStr("id"), 1);
  }

  /** Deploying again under the same name, once the listing shows the flow, creates nothing: the
      listed flow's id is reused and, with the default attributes, only the asset and the publish
      follow the listing. */
  lemma RedeployReusesFlow(businessAccountId: Value, name: Value, flowJson: Value, toJson: Value -> string,
                           id: Value, others: seq<Value>, created: Value)
    ensures var flow := VHash([(KStr("name"), name), (KStr("id"), id)]);
      var r := Deploy(businessAccountId, name, flowJson, toJson,
                      Json(VHash([(KStr("data"), VArr([flow] + others))])), created);
      r.Success? && r.value.id == id && r.value.message == UpdatedMessage &&
      r.value.calls == [List(businessAccountId).value, UpdateAsset(id, flowJson, toJson), Publish(id)]
  {
    var flow := VHash([(KStr("name"), name), (KStr("id"), id)]);
    ListedFlowFound(name, id, others);
    ReusedWithDefaults(List(businessAccountId).value, flow, name, flowJson, toJson);
  }

  /** A reused flow with the default attributes is not updated. */
  lemma ReusedWithDefaults(listCall: ApiCall, flow: Value, name: Value, flowJson: Value, toJson: Value -> string)
    ensures var d := DeployExisting(listCall, flow, name, flowJson, toJson, DefaultCategories, VNil, VNil);
      d.calls == [listCall, UpdateAsset(d.id, flowJson, toJson), Publish(d.id)]
  {
    assert RedeployAttributes(DefaultCategories, VNil, VNil) == [];
  }

  /** `deploy` as written: the listing is a `PagedResponse`, which has no `dig`, so every
      deployment whose listing succeeds raises before anything is created. */
  function DeployAsWritten(businessAccountId: Value, name: Value, listReply: Reply): (r: Result<Deployment, Failure>)
    ensures r.Failure?
    ensures DecodePaged(listReply, None).Success? ==> r.error == TypeFault("undefined method `dig' for PagedResponse")
  {
    var page :- DecodePaged(listReply, None);
    Failure(TypeFault("undefined method `dig' for PagedResponse"))
  }

  /** The listing of a business account with one flow of the name: the intended `deploy` reuses it,
      the one as written raises. */
  lemma DeployAsWrittenNeverFindsFlow(businessAccountId: Value, name: Value, flowJson: Value, toJson: Value -> string,
                                      id: Value, created: Value)
    ensures var listReply := Json(VHash([(KStr("data"), VArr([VHash([(KStr("name"), name), (KStr("id"), id)])]))]));
      DeployAsWritten(businessAccountId, name, listReply).Failure? &&
      Deploy(businessAccountId, name, flowJson, toJson, listReply, created).Success?
  {
    RedeployReusesFlow(businessAccountId, name, flowJson, toJson, id, [], created);
    assert [VHash([(KStr("name"), name), (KStr("id"), id)])] + [] == [VHash([(KStr("name"), name), (KStr("id"), id)])];
  }

  // ---------------------------------------------------------------- media

  /** `download_flow_media`: the explicit token when truthy, the client's otherwise, and a
      configuration error with neither. With a token, `fetch` sends a GET of the media URL itself,
      with `build_headers` over `Bearer <token>`: the client's API key and the JSON content type
      go to that URL as well. The reply is the body of a successful response. */
  method DownloadFlowMedia(c: Client, mediaUrl: string, accessToken: Value, resp: HttpResponse, env: Env)
    returns (r: Result<Option<string>, Failure>, sent: Option<SentRequest>)
    ensures !Truthy(accessToken) && c.accessToken.None? ==> r == Failure(ConfigurationError(TokenMessage)) && sent.None?
    ensures Truthy(accessToken) || c.accessToken.Some? ==>
              var token := if Truthy(accessToken) then Render(accessToken) else c.accessToken.value;
              sent.Some? && sent.value.verb == GET && sent.value.url == RequestUrl(mediaUrl, None) &&
              sent.value.body == NoBody &&
              BuiltHeaders(c, [(AuthorizationHeader, VStr("Bearer " + token))], sent.value.headers) &&
              Lookup(sent.value.headers, AuthorizationHeader) == Some(VStr("Bearer " + token)) &&
              Lookup(sent.value.headers, ApiKeyHeader) == (if c.kapsoApiKey.Some? then Some(VStr(c.kapsoApiKey.value)) else None) &&
              Lookup(sent.value.headers, ContentTypeHeader) == Some(VStr("application/json")) &&
              (r.Success? <==> Successful(resp.status)) &&
              (r.Failure? ==> Failure(r.error) == HandleErrorResponse(resp, env)) &&
              (r.Success? ==> r.value == resp.body)
  {
    var token: string;
    if Truthy(accessToken) {
      token := Render(accessToken);
    } else if c.accessToken.Some? {
      token := c.accessToken.value;
    } else {
      return Failure(ConfigurationError(TokenMessage)), None;
    }
    var custom := [(AuthorizationHeader, VStr("Bearer " + token))];
    assert Compact(custom) == custom;
    assert HasKey(custom, AuthorizationHeader) by { assert custom[0].0 == AuthorizationHeader; }
    assert !HasKey(custom, ApiKeyHeader) && !HasKey(custom, ContentTypeHeader);
    var headers := BuildHeaders(c, custom);
    assert Latest(custom, AuthorizationHeader) == Some(VStr("Bearer " + token));
    sent := Some(SentRequest(GET, RequestUrl(mediaUrl, None), headers, NoBody));
    var fetched := Fetch(resp, env);
    if fetched.Failure? {
      return Failure(fetched.error), sent;
    }
    return Success(fetched.value.body), sent;
  }
}

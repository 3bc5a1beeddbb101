/** `Resources::Contacts` (Kapso proxy only): listing, reading and updating contacts, their tags,
    search, analytics and export. Listings and searches are decoded by `Types.DecodePaged` with
    the contact record, `get` by `Types.DecodeEnveloped`. */
module Contacts {
  import opened Wrappers
  import opened Text
  import opened Values
  import opened Errors
  import opened Types
  import opened KapsoClient

  const Feature := "Contacts API"
  const WaIdMessage := "wa_id cannot be empty"
  const TagsMessage := "tags cannot be empty"

  function ContactsPath(phoneNumberId: Value): string {
    Render(phoneNumberId) + "/contacts"
  }

  /** The path of one contact. */
  function ContactPath(phoneNumberId: Value, waId: Value): string {
    ContactsPath(phoneNumberId) + "/" + Render(waId)
  }

  // ---------------------------------------------------------------- listing and reading

  function ListFilters(customerId: Value, phoneNumber: Value, profileName: Value, limit: Value, after: Value,
                       before: Value, fields: Value): Fields {
    [(KSym("customer_id"), customerId), (KSym("phone_number"), phoneNumber), (KSym("profile_name"), profileName),
     (KSym("limit"), limit), (KSym("after"), after), (KSym("before"), before), (KSym("fields"), fields)]
  }

  /** `list`: a GET of `<phone_number_id>/contacts` with the filters that are not nil. */
  function List(c: Client, phoneNumberId: Value, customerId: Value, phoneNumber: Value, profileName: Value,
                limit: Value, after: Value, before: Value, fields: Value): (r: Result<ApiCall, Failure>)
    ensures r.Success? <==> c.kapsoProxy
    ensures r.Failure? ==> r.error == ProxyRequired(Feature)
    ensures r.Success? ==>
              r.value.verb == GET && r.value.path == ContactsPath(phoneNumberId) && r.value.body == NoBody &&
              CompactOf(r.value.query, ListFilters(customerId, phoneNumber, profileName, limit, after, before, fields))
  {
    var _ :- RequireProxy(c, Feature);
    Success(JsonCall(GET, ContactsPath(phoneNumberId),
                     Some(Compact(ListFilters(customerId, phoneNumber, profileName, limit, after, before, fields))), NoBody))
  }

  /** `get`: the proxy check, a non-blank `wa_id`, then a GET of the contact asking for `fields`
      only when they are truthy. */
  function Get(c: Client, phoneNumberId: Value, waId: Value, fields: Value := VNil): (r: Result<ApiCall, Failure>)
    ensures r.Success? <==> c.kapsoProxy && Filled(waId)
    ensures !c.kapsoProxy ==> r == Failure(ProxyRequired(Feature))
    ensures c.kapsoProxy && Blank(waId) ==> r == Failure(ArgumentError(WaIdMessage))
    ensures r.Success? ==>
              r.value.verb == GET && r.value.path == ContactPath(phoneNumberId, waId) && r.value.body == NoBody &&
              r.value.query.Some? && Holds(r.value.query.value, With(map[], KSym("fields"), When(Truthy(fields), fields)))
  {
    var _ :- RequireProxy(c, Feature);
    var _ :- RequireText(waId, WaIdMessage);
    PutOptHolds([], map[], KSym("fields"), When(Truthy(fields), fields));
    Success(JsonCall(GET, ContactPath(phoneNumberId, waId), Some(PutOpt([], KSym("fields"), When(Truthy(fields), fields))), NoBody))
  }

  // ---------------------------------------------------------------- update

  /** The entries of `update`: each field that is truthy. */
  function UpdateMap(metadata: Value, tags: Value, customerId: Value, notes: Value): map<Key, Value> {
    With(With(With(With(map[], KSym("metadata"), When(Truthy(metadata), metadata)),
                   KSym("tags"), When(Truthy(tags), tags)),
              KSym("customer_id"), When(Truthy(customerId), customerId)),
         KSym("notes"), When(Truthy(notes), notes))
  }

  function UpdateFields(metadata: Value, tags: Value, customerId: Value, notes: Value): (h: Fields)
    ensures Holds(h, UpdateMap(metadata, tags, customerId, notes))
  {
    var m1 := With(map[], KSym("metadata"), When(Truthy(metadata), metadata));
    var m2 := With(m1, KSym("tags"), When(Truthy(tags), tags));
    var m3 := With(m2, KSym("customer_id"), When(Truthy(customerId), customerId));
    var h1 := PutOpt([], KSym("metadata"), When(Truthy(metadata), metadata));
    PutOptHolds([], map[], KSym("metadata"), When(Truthy(metadata), metadata));
    var h2 := PutOpt(h1, KSym("tags"), When(Truthy(tags), tags));
    PutOptHolds(h1, m1, KSym("tags"), When(Truthy(tags), tags));
    var h3 := PutOpt(h2, KSym("customer_id"), When(Truthy(customerId), customerId));
    PutOptHolds(h2, m2, KSym("customer_id"), When(Truthy(customerId), customerId));
    PutOptHolds(h3, m3, KSym("notes"), When(Truthy(notes), notes));
    PutOpt(h3, KSym("notes"), When(Truthy(notes), notes))
  }

  /** A hash holding nothing is the empty hash. */
  lemma HoldsNothing(h: Fields, m: map<Key, Value>)
    requires Holds(h, m)
    ensures h == [] <==> m == map[]
  {
    if h != [] {
      UniqueLookups(h);
      HoldsLookup(h, m, h[0].0);
    }
  }

  /** The update holds no field exactly when none is truthy. */
  lemma NothingToUpdate(metadata: Value, tags: Value, customerId: Value, notes: Value)
    ensures UpdateMap(metadata, tags, customerId, notes) == map[] <==>
            !Truthy(metadata) && !Truthy(tags) && !Truthy(customerId) && !Truthy(notes)
  {
    var m := UpdateMap(metadata, tags, customerId, notes);
    assert Truthy(metadata) ==> KSym("metadata") in m;
    assert Truthy(tags) ==> KSym("tags") in m;
    assert Truthy(customerId) ==> KSym("customer_id") in m;
    assert Truthy(notes) ==> KSym("notes") in m;
  }

  /** `update`: the proxy check and a non-blank `wa_id`; then no request at all (`nil`) when no
      field is given, and otherwise a PATCH carrying the truthy fields. */
  function Update(c: Client, phoneNumberId: Value, waId: Value, metadata: Value := VNil, tags: Value := VNil,
                  customerId: Value := VNil, notes: Value := VNil): (r: Result<Option<ApiCall>, Failure>)
    ensures r.Success? <==> c.kapsoProxy && Filled(waId)
    ensures !c.kapsoProxy ==> r == Failure(ProxyRequired(Feature))
    ensures c.kapsoProxy && Blank(waId) ==> r == Failure(ArgumentError(WaIdMessage))
    ensures r.Success? ==> (r.value.None? <==> !Truthy(metadata) && !Truthy(tags) && !Truthy(customerId) && !Truthy(notes))
    ensures r.Success? && r.value.Some? ==>
              JsonRequest(r.value.value, PATCH, ContactPath(phoneNumberId, waId), None, UpdateMap(metadata, tags, customerId, notes))
  {
    var _ :- RequireProxy(c, Feature);
    var _ :- RequireText(waId, WaIdMessage);
    var payload := UpdateFields(metadata, tags, customerId, notes);
    HoldsNothing(payload, UpdateMap(metadata, tags, customerId, notes));
    NothingToUpdate(metadata, tags, customerId, notes);
    if payload == [] then Success(None)
    else Success(Some(JsonCall(PATCH, ContactPath(phoneNumberId, waId), None, JsonBody(VHash(payload)))))
  }

  // ---------------------------------------------------------------- tags

  predicate Distinct(s: seq<Value>) {
    forall i, j :: 0 <= i < j < |s| ==> s[i] != s[j]
  }

  /** Ruby's `Array#uniq`: the first occurrence of each element, in order. */
  function Uniq(s: seq<Value>): (r: seq<Value>)
    ensures forall x :: x in r <==> x in s
    ensures Distinct(r)
  {
    if s == [] then []
    else
      var r := Uniq(s[..|s| - 1]);
      assert forall x :: x in s <==> x in s[..|s| - 1] || x == s[|s| - 1];
      if s[|s| - 1] in r then r else r + [s[|s| - 1]]
  }

  /** Appending never reorders what `uniq` already kept: `uniq` of a list starts with `uniq` of
      any prefix of it. */
  lemma {:induction false} UniqKeepsPrefix(a: seq<Value>, b: seq<Value>)
    ensures |Uniq(a)| <= |Uniq(a + b)| && Uniq(a + b)[..|Uniq(a)|] == Uniq(a)
    decreases |b|
  {
    if b == [] {
      assert a + b == a;
    } else {
      var b' := b[..|b| - 1];
      assert (a + b)[..|a + b| - 1] == a + b';
      UniqKeepsPrefix(a, b');
    }
  }

  /** A list without duplicates is its own `uniq`. */
  lemma {:induction false} UniqOfDistinct(s: seq<Value>)
    requires Distinct(s)
    ensures Uniq(s) == s
  {
    if s != [] {
      UniqOfDistinct(s[..|s| - 1]);
      assert s[|s| - 1] !in s[..|s| - 1];
      assert s[..|s| - 1] + [s[|s| - 1]] == s;
    }
  }

  /** The tags `add_tags` stores: every existing and every added tag, each once, with the existing
      tags first and (when they had no duplicates) in their order. */
  lemma AddedTags(existing: seq<Value>, added: seq<Value>)
    ensures forall x :: x in Uniq(existing + added) <==> x in existing || x in added
    ensures Distinct(Uniq(existing + added))
    ensures Distinct(existing) ==> |existing| <= |Uniq(existing + added)| && Uniq(existing + added)[..|existing|] == existing
  {
    UniqKeepsPrefix(existing, added);
    if Distinct(existing) {
      UniqOfDistinct(existing);
    }
  }

  /** Ruby's `Array#-`: every element of `s` that does not occur in `t`, in order. */
  function Minus(s: seq<Value>, t: seq<Value>): (r: seq<Value>)
    ensures forall x :: x in r <==> x in s && x !in t
    ensures |r| <= |s|
  {
    if s == [] then []
    else if s[0] in t then Minus(s[1..], t)
    else [s[0]] + Minus(s[1..], t)
  }

  /** The difference is taken element by element, so it keeps the order of what remains. */
  lemma {:induction false} MinusAppend(a: seq<Value>, b: seq<Value>, t: seq<Value>)
    ensures Minus(a + b, t) == Minus(a, t) + Minus(b, t)
  {
    if a != [] {
      assert (a + b)[1..] == a[1..] + b;
      MinusAppend(a[1..], b, t);
    } else {
      assert a + b == b;
    }
  }

  /** Nothing to remove leaves the list as it was. */
  lemma {:induction false} MinusDisjoint(s: seq<Value>, t: seq<Value>)
    requires forall x :: x in s ==> x !in t
    ensures Minus(s, t) == s
  {
    if s != [] {
      assert forall x :: x in s[1..] ==> x in s;
      MinusDisjoint(s[1..], t);
    }
  }

  /** `raise ArgumentError, 'tags cannot be empty' if tags.nil? || tags.empty?`. */
  function RequireTags(tags: Value): (r: Result<(), Failure>)
    ensures r.Success? <==> IsEmpty(tags) == Some(false)
    ensures tags.VNil? || IsEmpty(tags) == Some(true) ==> r == Failure(ArgumentError(TagsMessage))
  {
    if tags.VNil? then Failure(ArgumentError(TagsMessage))
    else
      match IsEmpty(tags)
      case None => Failure(TypeFault("undefined method `empty?'"))
      case Some(e) => if e then Failure(ArgumentError(TagsMessage)) else Success(())
  }

  /** `current_contact.metadata&.[]('tags') || []` of the contact `get` returned, when it is an
      array (`existing + tags` and `existing - tags` raise otherwise). */
  function CurrentTags(fetched: Reply): (r: Option<seq<Value>>)
    ensures r.Some? ==> DecodeEnveloped(fetched, ContactRecordFields).Success?
    ensures DecodeEnveloped(fetched, ContactRecordFields).Success? ==>
              var metadata := Field(DecodeEnveloped(fetched, ContactRecordFields).value, "metadata");
              (metadata.VNil? ==> r == Some([])) &&
              (Index(metadata, "tags") == Some(VNil) ==> r == Some([])) &&
              (Index(metadata, "tags") == Some(VBool(false)) ==> r == Some([])) &&
              (forall t :: Index(metadata, "tags") == Some(VArr(t)) ==> r == Some(t)) &&
              (forall t :: Index(metadata, "tags") == Some(t) && Truthy(t) && !t.VArr? ==> r.None?) &&
              (!metadata.VNil? && Index(metadata, "tags").None? ==> r.None?)
  {
    match DecodeEnveloped(fetched, ContactRecordFields)
    case Failure(_) => None
    case Success(contact) =>
      var metadata := Field(contact, "metadata");
      var tags := if metadata.VNil? then Some(VNil) else Index(metadata, "tags");
      if tags.Some? && Or(tags.value, VArr([])).VArr? then Some(Or(tags.value, VArr([])).items) else None
  }

  /** A contact without metadata has no tags. */
  lemma NoMetadataNoTags(waId: Value)
    ensures CurrentTags(Json(VHash([(KStr("wa_id"), waId)]))) == Some([])
  {
    var data := VHash([(KStr("wa_id"), waId)]);
    assert !HasKey(data.fields, KStr("data"));
    assert Indexable(data);
    var rec := DecodeEnveloped(Json(data), ContactRecordFields);
    assert rec == DecodeReplyRecord(Json(data), ContactRecordFields);
    assert rec.Success?;
    var vs := rec.value.values;
    assert Lookup(data.fields, KStr("metadata")) == None;
    assert vs[3] == ("metadata", VNil);
    assert vs[1..][1..][1..][0] == vs[3];
    assert vs[0].0 == "wa_id" && vs[1..][0].0 == "phone_number" && vs[1..][1..][0].0 == "profile_name";
    assert FieldIn(vs[1..][1..], "metadata") == FieldIn(vs[1..][1..][1..], "metadata") == VNil;
    assert FieldIn(vs, "metadata") == FieldIn(vs[1..], "metadata") == FieldIn(vs[1..][1..], "metadata");
  }

  /** The two requests of a tag change: the `get` of the contact and the `update` saving its tags. */
  datatype TagChange = TagChange(fetch: ApiCall, save: ApiCall)

  /** The save of a tag change: the contact's metadata replaced by `{tags: tags}`. */
  ghost predicate SavesTags(call: ApiCall, phoneNumberId: Value, waId: Value, tags: seq<Value>) {
    JsonRequest(call, PATCH, ContactPath(phoneNumberId, waId), None,
                map[KSym("metadata") := VHash([(KSym("tags"), VArr(tags))])])
  }

  /** The steps shared by `add_tags` and `remove_tags`: the tag check, the `get`, the decoding of
      the reply `fetched`, and the `update` of the metadata to `{tags: change(existing)}`. */
  function ChangeTags(c: Client, phoneNumberId: Value, waId: Value, tags: Value, fetched: Reply, add: bool): (r: Result<TagChange, Failure>)
    ensures r.Success? <==> IsEmpty(tags) == Some(false) && c.kapsoProxy && Filled(waId) && CurrentTags(fetched).Some?
    ensures tags.VNil? || IsEmpty(tags) == Some(true) ==> r == Failure(ArgumentError(TagsMessage))
    ensures IsEmpty(tags) == Some(false) && !c.kapsoProxy ==> r == Failure(ProxyRequired(Feature))
    ensures IsEmpty(tags) == Some(false) && c.kapsoProxy && Blank(waId) ==> r == Failure(ArgumentError(WaIdMessage))
    ensures r.Success? ==>
              r.value.fetch.verb == GET && r.value.fetch.path == ContactPath(phoneNumberId, waId) &&
              SavesTags(r.value.save, phoneNumberId, waId,
                        if add then Uniq(CurrentTags(fetched).value + ToArray(tags)) else Minus(CurrentTags(fetched).value, ToArray(tags)))
  {
    var _ :- RequireTags(tags);
    var fetch :- Get(c, phoneNumberId, waId);
    match CurrentTags(fetched)
    case None => Failure(TypeFault("cannot read the contact's tags"))
    case Some(existing) =>
      var result := if add then Uniq(existing + ToArray(tags)) else Minus(existing, ToArray(tags));
      var metadata := VHash([(KSym("tags"), VArr(result))]);
      SaveTagsCall(c, phoneNumberId, waId, result);
      Success(TagChange(fetch, Update(c, phoneNumberId, waId, metadata).value.value))
  }

  /** Updating the metadata with a tag list is one PATCH that saves exactly that list. */
  lemma SaveTagsCall(c: Client, phoneNumberId: Value, waId: Value, tags: seq<Value>)
    requires c.kapsoProxy && Filled(waId)
    ensures var save := Update(c, phoneNumberId, waId, VHash([(KSym("tags"), VArr(tags))]));
      save.Success? && save.value.Some? && SavesTags(save.value.value, phoneNumberId, waId, tags)
  {
    var metadata := VHash([(KSym("tags"), VArr(tags))]);
    assert UpdateMap(metadata, VNil, VNil, VNil) == map[KSym("metadata") := metadata];
  }

  /** `add_tags`: the existing tags followed by the new ones, each once. */
  function AddTags(c: Client, phoneNumberId: Value, waId: Value, tags: Value, fetched: Reply): (r: Result<TagChange, Failure>)
    ensures r.Success? <==> IsEmpty(tags) == Some(false) && c.kapsoProxy && Filled(waId) && CurrentTags(fetched).Some?
    ensures tags.VNil? || IsEmpty(tags) == Some(true) ==> r == Failure(ArgumentError(TagsMessage))
    ensures r.Success? ==>
              SavesTags(r.value.save, phoneNumberId, waId, Uniq(CurrentTags(fetched).value + ToArray(tags)))
  {
    ChangeTags(c, phoneNumberId, waId, tags, fetched, true)
  }

  /** `remove_tags`: the existing tags without any of the given ones. */
  function RemoveTags(c: Client, phoneNumberId: Value, waId: Value, tags: Value, fetched: Reply): (r: Result<TagChange, Failure>)
    ensures r.Success? <==> IsEmpty(tags) == Some(false) && c.kapsoProxy && Filled(waId) && CurrentTags(fetched).Some?
    ensures tags.VNil? || IsEmpty(tags) == Some(true) ==> r == Failure(ArgumentError(TagsMessage))
    ensures r.Success? ==>
              SavesTags(r.value.save, phoneNumberId, waId, Minus(CurrentTags(fetched).value, ToArray(tags)))
  {
    ChangeTags(c, phoneNumberId, waId, tags, fetched, false)
  }

  // ---------------------------------------------------------------- search, analytics, export

  /** `Array(x).join(',')` */
  function JoinValues(v: Value): string {
    ArrayJoin(ToArray(v), ",")
  }

  function SearchFilters(query: Value, searchIn: Value, limit: Value, after: Value, before: Value): Fields {
    [(KSym("q"), query), (KSym("search_in"), VStr(JoinValues(searchIn))), (KSym("limit"), limit), (KSym("after"), after),
     (KSym("before"), before)]
  }

  const DefaultSearchIn := VArr([VStr("profile_name"), VStr("phone_number")])

  /** `search`: the proxy check, a non-blank query, then a GET with the query as `q`, the searched
      fields joined with commas (profile name and phone number by default) and the paging
      parameters that are not nil. */
  function Search(c: Client, phoneNumberId: Value, query: Value, searchIn: Value := DefaultSearchIn, limit: Value := VNil,
                  after: Value := VNil, before: Value := VNil): (r: Result<ApiCall, Failure>)
    ensures r.Success? <==> c.kapsoProxy && Filled(query)
    ensures !c.kapsoProxy ==> r == Failure(ProxyRequired("Contacts Search API"))
    ensures c.kapsoProxy && Blank(query) ==> r == Failure(ArgumentError("query cannot be empty"))
    ensures r.Success? ==>
              r.value.verb == GET && r.value.path == ContactsPath(phoneNumberId) + "/search" && r.value.body == NoBody &&
              CompactOf(r.value.query, SearchFilters(query, searchIn, limit, after, before)) &&
              (KSym("q"), query) in r.value.query.value && (KSym("search_in"), VStr(JoinValues(searchIn))) in r.value.query.value
  {
    var _ :- RequireProxy(c, "Contacts Search API");
    var _ :- RequireText(query, "query cannot be empty");
    SearchSendsQuery(query, searchIn, limit, after, before);
    Success(JsonCall(GET, ContactsPath(phoneNumberId) + "/search", Some(Compact(SearchFilters(query, searchIn, limit, after, before))), NoBody))
  }

  /** A query that is not nil, and the joined fields, survive `compact`. */
  lemma SearchSendsQuery(query: Value, searchIn: Value, limit: Value, after: Value, before: Value)
    requires !query.VNil?
    ensures var q := Compact(SearchFilters(query, searchIn, limit, after, before));
      (KSym("q"), query) in q && (KSym("search_in"), VStr(JoinValues(searchIn))) in q
  {
    var all := SearchFilters(query, searchIn, limit, after, before);
    assert all[0] == (KSym("q"), query) && all[1] == (KSym("search_in"), VStr(JoinValues(searchIn)));
  }

  /** By default the search looks at profile names and phone numbers. */
  lemma DefaultSearchFields()
    ensures JoinValues(DefaultSearchIn) == "profile_name,phone_number"
  {
    var parts := JoinPieces(ToArray(DefaultSearchIn), ",");
    assert parts == ["profile_name", "phone_number"];
  }

  /** `Array(x).join(',')` flattens: an inner array of fields or metrics is sent as if its items
      stood in its place. */
  lemma NestedValuesFlattened(a: seq<Value>, b: seq<Value>, c: seq<Value>)
    requires |b| > 0
    ensures JoinValues(VArr(a + [VArr(b)] + c)) == JoinValues(VArr(a + b + c))
  {
    ArrayJoinFlattens(a, b, c, ",");
  }

  /** The filters of `analytics` before `compact`: the metrics, joined with commas, come last and
      only when given. */
  function AnalyticsFilters(waId: Value, since: Value, untilTime: Value, granularity: Value, metrics: Value): Fields {
    [(KSym("wa_id"), waId), (KSym("since"), since), (KSym("until"), untilTime), (KSym("granularity"), granularity)] +
    (if Truthy(metrics) then [(KSym("metrics"), VStr(JoinValues(metrics)))] else [])
  }

  /** `analytics`: a GET with the filters that are not nil, the granularity `day` by default. */
  function Analytics(c: Client, phoneNumberId: Value, waId: Value := VNil, since: Value := VNil, untilTime: Value := VNil,
                     granularity: Value := VStr("day"), metrics: Value := VNil): (r: Result<ApiCall, Failure>)
    ensures r.Success? <==> c.kapsoProxy
    ensures r.Failure? ==> r.error == ProxyRequired("Contact Analytics API")
    ensures r.Success? ==>
              r.value.verb == GET && r.value.path == ContactsPath(phoneNumberId) + "/analytics" && r.value.body == NoBody &&
              CompactOf(r.value.query, AnalyticsFilters(waId, since, untilTime, granularity, metrics))
  {
    var _ :- RequireProxy(c, "Contact Analytics API");
    Success(JsonCall(GET, ContactsPath(phoneNumberId) + "/analytics",
                     Some(Compact(AnalyticsFilters(waId, since, untilTime, granularity, metrics))), NoBody))
  }

  /** Metrics are sent exactly when they are given. */
  lemma MetricsOnlyWhenGiven(waId: Value, since: Value, untilTime: Value, granularity: Value, metrics: Value)
    ensures Truthy(metrics) ==>
              (KSym("metrics"), VStr(JoinValues(metrics))) in Compact(AnalyticsFilters(waId, since, untilTime, granularity, metrics))
    ensures !Truthy(metrics) ==> !HasKey(Compact(AnalyticsFilters(waId, since, untilTime, granularity, metrics)), KSym("metrics"))
  {
    var all := AnalyticsFilters(waId, since, untilTime, granularity, metrics);
    if Truthy(metrics) {
      assert all[4] == (KSym("metrics"), VStr(JoinValues(metrics)));
    } else {
      CompactDropsNil(all, KSym("metrics"));
    }
  }

  /** `export`: a POST of the format (`csv` by default) and the filters, whichever are not nil. */
  function Export(c: Client, phoneNumberId: Value, format: Value := VStr("csv"), filters: Value := VNil): (r: Result<ApiCall, Failure>)
    ensures r.Success? <==> c.kapsoProxy
    ensures r.Failure? ==> r.error == ProxyRequired("Contacts Export API")
    ensures r.Success? ==>
              r.value.verb == POST && r.value.path == ContactsPath(phoneNumberId) + "/export" && r.value.query.None? &&
              r.value.body.JsonBody? && r.value.body.payload.VHash? &&
              CompactOf(Some(r.value.body.payload.fields), [(KSym("format"), format), (KSym("filters"), filters)])
  {
    var _ :- RequireProxy(c, "Contacts Export API");
    Success(JsonCall(POST, ContactsPath(phoneNumberId) + "/export", None,
                     JsonBody(VHash(Compact([(KSym("format"), format), (KSym("filters"), filters)])))))
  }
}

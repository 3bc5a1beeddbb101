/** `Resources::Templates`: validation and payloads of message template requests, the key
    normalisation of components and buttons, and the component and template builders. Replies are
    decoded by `Types` (`MessageTemplate`, `TemplateCreateResponse`, `GraphSuccessResponse`). */
module Templates {
  import opened Wrappers
  import opened Text
  import opened Values
  import opened Errors
  import opened Types
  import opened KapsoClient

  const NameMessage := "Template name cannot be empty"
  const LanguageMessage := "Language cannot be empty"
  const CategoryMessage := "Category cannot be empty"
  const ComponentsMessage := "Components cannot be empty"
  const DeleteMessage := "Must provide either template_id or name"

  function TemplatesPath(businessAccountId: Value): string {
    Render(businessAccountId) + "/message_templates"
  }

  // ---------------------------------------------------------------- validation

  /** What `validate_template_data` accepts as a component: a Hash whose symbol key `:type` is
      truthy (a string key "type" does not count). */
  predicate IsComponent(v: Value) {
    v.VHash? && Truthy(At(v.fields, KSym("type")))
  }

  function ComponentMessage(index: nat): string {
    "Component at index " + NatToString(index) + " must be a Hash with :type key"
  }

  function InvalidCategoryMessage(category: string): string {
    "Invalid category '" + category + "'. Must be one of: MARKETING, UTILITY, AUTHENTICATION, UNKNOWN"
  }

  /** The position of the first item that is not a component. */
  function FirstInvalid(items: seq<Value>): (r: Option<nat>)
    ensures r.None? <==> forall i :: 0 <= i < |items| ==> IsComponent(items[i])
    ensures r.Some? ==> r.value < |items| && !IsComponent(items[r.value]) &&
                        forall j :: 0 <= j < r.value ==> IsComponent(items[j])
  {
    if items == [] then None
    else if !IsComponent(items[0]) then Some(0)
    else
      match FirstInvalid(items[1..])
      case None => None
      case Some(i) => Some(i + 1)
  }

  /** `components.nil? || components.empty?`, which raises on a value without `empty?`. */
  function RequireComponents(components: Value): (r: Result<(), Failure>)
    ensures r.Success? <==> IsEmpty(components) == Some(false)
    ensures components.VNil? || IsEmpty(components) == Some(true) ==> r == Failure(ArgumentError(ComponentsMessage))
  {
    if components.VNil? then Failure(ArgumentError(ComponentsMessage))
    else match IsEmpty(components)
      case None => Failure(TypeFault("undefined method `empty?'"))
      case Some(empty) => if empty then Failure(ArgumentError(ComponentsMessage)) else Success(())
  }

  /** `validate_template_data`: a non-blank name, language and category, in that order; components
      that are not nil or empty; a category that upcases to a known one; and every component a
      Hash with `:type`. Iterating a Hash yields `[key, value]` arrays, so only an array of
      components can pass. */
  function ValidateTemplateData(name: Value, language: Value, category: Value, components: Value): (r: Result<(), Failure>)
    ensures r.Success? <==>
              Filled(name) && Filled(language) && Filled(category) && Upcase(category.s) in TemplateCategories &&
              components.VArr? && |components.items| > 0 &&
              forall i :: 0 <= i < |components.items| ==> IsComponent(components.items[i])
    ensures Blank(name) ==> r == Failure(ArgumentError(NameMessage))
    ensures Filled(name) && Blank(language) ==> r == Failure(ArgumentError(LanguageMessage))
    ensures Filled(name) && Filled(language) && Blank(category) ==> r == Failure(ArgumentError(CategoryMessage))
    ensures Filled(name) && Filled(language) && Filled(category) && (components.VNil? || IsEmpty(components) == Some(true)) ==>
              r == Failure(ArgumentError(ComponentsMessage))
    ensures Filled(name) && Filled(language) && Filled(category) && IsEmpty(components) == Some(false) &&
            Upcase(category.s) !in TemplateCategories ==>
              r == Failure(ArgumentError(InvalidCategoryMessage(category.s)))
    ensures Filled(name) && Filled(language) && Filled(category) && Upcase(category.s) in TemplateCategories &&
            components.VArr? && FirstInvalid(components.items).Some? ==>
              r == Failure(ArgumentError(ComponentMessage(FirstInvalid(components.items).value)))
  {
    var _ :- RequireText(name, NameMessage);
    var _ :- RequireText(language, LanguageMessage);
    var _ :- RequireText(category, CategoryMessage);
    var _ :- RequireComponents(components);
    if Upcase(category.s) !in TemplateCategories then Failure(ArgumentError(InvalidCategoryMessage(category.s)))
    else if !components.VArr? && !components.VHash? then Failure(TypeFault("undefined method `each_with_index'"))
    else
      match FirstInvalid(ToArray(components))
      case Some(i) => Failure(ArgumentError(ComponentMessage(i)))
      case None =>
        assert components.VHash? ==> !IsComponent(ToArray(components)[0]);
        Success(())
  }

  /** The category is checked in any spelling. */
  lemma ValidationExamples(name: Value, language: Value)
    requires Filled(name) && Filled(language)
    ensures ValidateTemplateData(name, language, VStr("marketing"), VArr([VHash([(KSym("type"), VStr("BODY"))])])).Success?
  {
    assert Upcase("marketing") == "MARKETING";
    assert "marketing"[0] == 'm';
    TypedIsComponent(VHash([(KSym("type"), VStr("BODY"))]));
  }

  /** A component keyed by the string "type" is refused: only the symbol counts. */
  lemma StringTypeKeyRefused(name: Value, language: Value)
    requires Filled(name) && Filled(language)
    ensures ValidateTemplateData(name, language, VStr("MARKETING"), VArr([VHash([(KStr("type"), VStr("BODY"))])])) ==
            Failure(ArgumentError(ComponentMessage(0)))
  {
    MarketingCategoryKnown();
    assert !HasKey([(KStr("type"), VStr("BODY"))], KSym("type"));
    assert FirstInvalid([VHash([(KStr("type"), VStr("BODY"))])]) == Some(0);
  }

  // ---------------------------------------------------------------- normalisation

  /** The pair one iteration of `component.each { |key, value| normalized[key.to_s] = value }`
      stores, for an item of an Array: an array is destructured into key and value, any other
      item is the key with a nil value. */
  function ItemPair(x: Value): (Key, Value) {
    if x.VArr? then
      (KStr(Render(if |x.items| > 0 then x.items[0] else VNil)), if |x.items| > 1 then x.items[1] else VNil)
    else (KStr(Render(x)), VNil)
  }

  /** The pairs `normalize_component` stores, in order and with the keys already turned into
      strings: a Hash's entries, or an Array's items; other values have no `each`. */
  function ComponentPairs(component: Value): (r: Option<Fields>)
    ensures r.Some? <==> component.VHash? || component.VArr?
    ensures r.Some? ==> forall i :: 0 <= i < |r.value| ==> r.value[i].0.KStr?
    ensures component.VHash? ==>
              r.Some? && |r.value| == |component.fields| &&
              forall i :: 0 <= i < |r.value| ==> r.value[i] == (KStr(component.fields[i].0.name), component.fields[i].1)
  {
    match component
    case VHash(f) => Some(seq(|f|, i requires 0 <= i < |f| => (KStr(f[i].0.name), f[i].1)))
    case VArr(items) => Some(seq(|items|, i requires 0 <= i < |items| => ItemPair(items[i])))
    case _ => None
  }

  /** What `normalize_component` (and `normalize_button`, the same code) returns: a new Hash
      keyed by strings, holding the values as they are; a later key that prints the same
      overwrites an earlier one in place. */
  function Normalized(component: Value): (r: Option<Value>)
    ensures r.Some? <==> component.VHash? || component.VArr?
    ensures r.Some? ==> r.value.VHash? && UniqueKeys(r.value.fields) && |r.value.fields| <= |ComponentPairs(component).value| &&
                        forall i :: 0 <= i < |r.value.fields| ==> r.value.fields[i].0.KStr?
  {
    match ComponentPairs(component)
    case None => None
    case Some(pairs) =>
      var h := Collapse(pairs);
      forall i | 0 <= i < |h| ensures h[i].0.KStr? {
        assert HasKey(h, h[i].0);
        var j :| 0 <= j < |pairs| && pairs[j].0 == h[i].0;
      }
      Some(VHash(h))
  }

  /** `normalize_component`: the pairs stored one after the other into an empty Hash. */
  method NormalizeComponent(component: Value) returns (r: Option<Value>)
    ensures r == Normalized(component)
  {
    var pairs := ComponentPairs(component);
    if pairs.None? {
      return None;
    }
    var normalized: Fields := [];
    var i := 0;
    while i < |pairs.value|
      invariant 0 <= i <= |pairs.value|
      invariant normalized == Merge([], pairs.value[..i])
    {
      assert pairs.value[..i + 1][..i] == pairs.value[..i];
      normalized := Put(normalized, pairs.value[i].0, pairs.value[i].1);
      i := i + 1;
    }
    assert pairs.value[..i] == pairs.value;
    return Some(VHash(normalized));
  }

  /** Storing pairs whose keys are distinct into an empty Hash gives those pairs back. */
  lemma {:induction false} MergeDistinct(pairs: Fields)
    requires UniqueKeys(pairs)
    ensures Merge([], pairs) == pairs
    decreases |pairs|
  {
    if pairs != [] {
      var init := pairs[..|pairs| - 1];
      var last := pairs[|pairs| - 1];
      assert UniqueKeys(init);
      MergeDistinct(init);
      assert forall i :: 0 <= i < |init| ==> init[i].0 == pairs[i].0 && pairs[i].0 != pairs[|pairs| - 1].0;
      assert init + [last] == pairs;
    }
  }

  /** Only the keys change: a Hash whose keys print distinctly keeps its entries, their order
      and their values, nested Hashes included, under the string form of each key. */
  lemma NormalizeKeepsValues(f: Fields)
    requires forall i, j :: 0 <= i < j < |f| ==> f[i].0.name != f[j].0.name
    ensures Normalized(VHash(f)) == Some(VHash(seq(|f|, i requires 0 <= i < |f| => (KStr(f[i].0.name), f[i].1))))
  {
    var pairs := ComponentPairs(VHash(f)).value;
    MergeDistinct(pairs);
    assert pairs == seq(|f|, i requires 0 <= i < |f| => (KStr(f[i].0.name), f[i].1));
  }

  /** Normalising twice is normalising once. */
  lemma NormalizeIdempotent(component: Value)
    requires component.VHash? || component.VArr?
    ensures Normalized(Normalized(component).value) == Normalized(component)
  {
    var h := Normalized(component).value.fields;
    var again := ComponentPairs(VHash(h)).value;
    assert again == h;
    MergeDistinct(h);
  }

  /** Every item of `items`, normalised; the first that cannot be fails the whole map. */
  function NormalizeAll(items: seq<Value>): (r: Result<seq<Value>, Failure>)
    ensures r.Success? <==> forall i :: 0 <= i < |items| ==> items[i].VHash? || items[i].VArr?
    ensures r.Success? ==> |r.value| == |items| && forall i :: 0 <= i < |items| ==> Some(r.value[i]) == Normalized(items[i])
  {
    if items == [] then Success([])
    else match Normalized(items[0])
      case None => Failure(TypeFault("undefined method `each'"))
      case Some(first) =>
        var rest := NormalizeAll(items[1..]);
        if rest.Failure? then
          assert exists i :: 0 <= i < |items| - 1 && !(items[1..][i].VHash? || items[1..][i].VArr?);
          Failure(rest.error)
        else Success([first] + rest.value)
  }

  /** `normalize_components` (and the `map` of `build_buttons_component`): an Array's items, or a
      Hash's `[key, value]` pairs, each normalised; other values have no `map`. */
  function NormalizeComponents(components: Value): (r: Result<seq<Value>, Failure>)
    ensures !components.VArr? && !components.VHash? ==> r.Failure?
    ensures components.VArr? ==> r == NormalizeAll(components.items)
    ensures components.VHash? ==>
              r.Success? && |r.value| == |components.fields| &&
              forall i :: 0 <= i < |r.value| ==>
                Some(r.value[i]) == Normalized(VArr([KeyValue(components.fields[i].0), components.fields[i].1]))
  {
    if components.VArr? || components.VHash? then NormalizeAll(ToArray(components))
    else Failure(TypeFault("undefined method `map'"))
  }

  // ---------------------------------------------------------------- requests

  /** The filters of `list`, before `compact`. */
  function ListFilters(limit: Value, after: Value, before: Value, name: Value, status: Value, category: Value,
                       language: Value, nameOrContent: Value, qualityScore: Value): Fields {
    [(KSym("limit"), limit), (KSym("after"), after), (KSym("before"), before), (KSym("name"), name),
     (KSym("status"), status), (KSym("category"), category), (KSym("language"), language),
     (KSym("name_or_content"), nameOrContent), (KSym("quality_score"), qualityScore)]
  }

  /** `list`: a GET of the account's templates with the filters that are not nil. */
  function List(businessAccountId: Value, limit: Value := VNil, after: Value := VNil, before: Value := VNil,
                name: Value := VNil, status: Value := VNil, category: Value := VNil, language: Value := VNil,
                nameOrContent: Value := VNil, qualityScore: Value := VNil): (call: ApiCall)
    ensures call.verb == GET && call.path == TemplatesPath(businessAccountId) && call.body == NoBody
    ensures CompactOf(call.query, ListFilters(limit, after, before, name, status, category, language, nameOrContent, qualityScore))
  {
    JsonCall(GET, TemplatesPath(businessAccountId),
             Some(Compact(ListFilters(limit, after, before, name, status, category, language, nameOrContent, qualityScore))),
             NoBody)
  }

  /** `get`: a GET of one template, asking for the fields when they are truthy. */
  function Get(businessAccountId: Value, templateId: Value, fields: Value := VNil): (call: ApiCall)
    ensures call.verb == GET && call.path == TemplatesPath(businessAccountId) + "/" + Render(templateId) && call.body == NoBody
    ensures call.query.Some? && Holds(call.query.value, With(map[], KSym("fields"), When(Truthy(fields), fields)))
  {
    PutOptHolds([], map[], KSym("fields"), When(Truthy(fields), fields));
    JsonCall(GET, TemplatesPath(businessAccountId) + "/" + Render(templateId),
             Some(PutOpt([], KSym("fields"), When(Truthy(fields), fields))), NoBody)
  }

  /** The entries of the `create` payload. */
  function CreateMap(name: Value, language: Value, category: Value, components: seq<Value>, allowCategoryChange: Value,
                     messageSendTtlSeconds: Value): map<Key, Value> {
    With(With(map[KSym("name") := name, KSym("language") := language, KSym("category") := category,
                  KSym("components") := VArr(components)],
              KSym("allow_category_change"), When(!allowCategoryChange.VNil?, allowCategoryChange)),
         KSym("message_send_ttl_seconds"), When(Truthy(messageSendTtlSeconds), messageSendTtlSeconds))
  }

  /** `create`: the validation, then a POST with the name, the language, the category as the
      caller spelled it and the normalised components; `allow_category_change` whenever it is not
      nil (`false` included), the time to live only when truthy. */
  function Create(businessAccountId: Value, name: Value, language: Value, category: Value, components: Value,
                  allowCategoryChange: Value := VNil, messageSendTtlSeconds: Value := VNil): (r: Result<ApiCall, Failure>)
    ensures r.Success? <==> ValidateTemplateData(name, language, category, components).Success?
    ensures r.Failure? ==> r.error == ValidateTemplateData(name, language, category, components).error
    ensures r.Success? ==>
              NormalizeComponents(components).Success? &&
              JsonRequest(r.value, POST, TemplatesPath(businessAccountId), None,
                          CreateMap(name, language, category, NormalizeComponents(components).value, allowCategoryChange,
                                    messageSendTtlSeconds))
  {
    var _ :- ValidateTemplateData(name, language, category, components);
    var normalized := NormalizeComponents(components).value;
    var base := [(KSym("name"), name), (KSym("language"), language), (KSym("category"), category),
                 (KSym("components"), VArr(normalized))];
    var m := map[KSym("name") := name, KSym("language") := language, KSym("category") := category,
                 KSym("components") := VArr(normalized)];
    Hash4(KSym("name"), name, KSym("language"), language, KSym("category"), category, KSym("components"), VArr(normalized));
    var allow := When(!allowCategoryChange.VNil?, allowCategoryChange);
    var ttl := When(Truthy(messageSendTtlSeconds), messageSendTtlSeconds);
    PutOptHolds(base, m, KSym("allow_category_change"), allow);
    PutOptHolds(PutOpt(base, KSym("allow_category_change"), allow), With(m, KSym("allow_category_change"), allow),
                KSym("message_send_ttl_seconds"), ttl);
    Success(JsonCall(POST, TemplatesPath(businessAccountId), None,
                     JsonBody(VHash(PutOpt(PutOpt(base, KSym("allow_category_change"), allow), KSym("message_send_ttl_seconds"), ttl)))))
  }

  /** A lower-case category passes and is sent as spelled, and `allow_category_change: false` is
      sent. */
  lemma CreateKeepsSpelling(businessAccountId: Value, name: Value, language: Value, components: Value)
    requires ValidateTemplateData(name, language, VStr("utility"), components).Success?
    ensures var r := Create(businessAccountId, name, language, VStr("utility"), components, VBool(false));
      r.Success? && r.value.body.JsonBody? && r.value.body.payload.VHash? &&
      Lookup(r.value.body.payload.fields, KSym("category")) == Some(VStr("utility")) &&
      Lookup(r.value.body.payload.fields, KSym("allow_category_change")) == Some(VBool(false))
  {
    var r := Create(businessAccountId, name, language, VStr("utility"), components, VBool(false));
    var m := CreateMap(name, language, VStr("utility"), NormalizeComponents(components).value, VBool(false), VNil);
    HoldsLookup(r.value.body.payload.fields, m, KSym("category"));
    HoldsLookup(r.value.body.payload.fields, m, KSym("allow_category_change"));
  }

  /** `update`: the category when truthy and the normalised components when truthy; with neither
      there is no request at all (None). */
  function Update(businessAccountId: Value, templateId: Value, category: Value := VNil, components: Value := VNil)
    : (r: Result<Option<ApiCall>, Failure>)
    ensures !Truthy(category) && !Truthy(components) ==> r == Success(None)
    ensures Truthy(category) || Truthy(components) ==>
              (r.Success? <==> !Truthy(components) || NormalizeComponents(components).Success?)
    ensures r.Success? && (Truthy(category) || Truthy(components)) ==>
              r.value.Some? &&
              JsonRequest(r.value.value, POST, TemplatesPath(businessAccountId) + "/" + Render(templateId), None,
                          With(With(map[], KSym("category"), When(Truthy(category), category)), KSym("components"),
                               if Truthy(components) then Some(VArr(NormalizeComponents(components).value)) else None))
  {
    var withCategory := PutOpt([], KSym("category"), When(Truthy(category), category));
    PutOptHolds([], map[], KSym("category"), When(Truthy(category), category));
    var normalized :- if Truthy(components) then NormalizeComponents(components) else Success([]);
    var entry := if Truthy(components) then Some(VArr(normalized)) else None;
    PutOptHolds(withCategory, With(map[], KSym("category"), When(Truthy(category), category)), KSym("components"), entry);
    var payload := PutOpt(withCategory, KSym("components"), entry);
    if payload == [] then Success(None)
    else
      Success(Some(JsonCall(POST, TemplatesPath(businessAccountId) + "/" + Render(templateId), None, JsonBody(VHash(payload)))))
  }

  /** `delete`: by id when `template_id` is truthy; otherwise by name, with the language and the
      HSM id when truthy; with neither an error. */
  function Delete(businessAccountId: Value, name: Value := VNil, templateId: Value := VNil, hsmId: Value := VNil,
                  language: Value := VNil): (r: Result<ApiCall, Failure>)
    ensures r.Success? <==> Truthy(templateId) || Truthy(name)
    ensures r.Failure? ==> r.error == ArgumentError(DeleteMessage)
    ensures r.Success? ==> r.value.verb == DELETE && r.value.body == NoBody
    ensures Truthy(templateId) ==>
              r.value.path == TemplatesPath(businessAccountId) + "/" + Render(templateId) && r.value.query == None
    ensures !Truthy(templateId) && Truthy(name) ==>
              r.value.path == TemplatesPath(businessAccountId) && r.value.query.Some? &&
              Holds(r.value.query.value, With(With(map[KSym("name") := name], KSym("language"), When(Truthy(language), language)),
                                              KSym("hsm_id"), When(Truthy(hsmId), hsmId)))
  {
    if Truthy(templateId) then
      Success(JsonCall(DELETE, TemplatesPath(businessAccountId) + "/" + Render(templateId), None, NoBody))
    else if Truthy(name) then
      Hash1(KSym("name"), name);
      var withLanguage := PutOpt([(KSym("name"), name)], KSym("language"), When(Truthy(language), language));
      PutOptHolds([(KSym("name"), name)], map[KSym("name") := name], KSym("language"), When(Truthy(language), language));
      PutOptHolds(withLanguage, With(map[KSym("name") := name], KSym("language"), When(Truthy(language), language)),
                  KSym("hsm_id"), When(Truthy(hsmId), hsmId));
      Success(JsonCall(DELETE, TemplatesPath(businessAccountId),
                       Some(PutOpt(withLanguage, KSym("hsm_id"), When(Truthy(hsmId), hsmId))), NoBody))
    else Failure(ArgumentError(DeleteMessage))
  }

  /** The id decides: whatever name, language or HSM id come with it, they are not sent. */
  lemma DeleteByIdIgnoresName(businessAccountId: Value, templateId: Value, name1: Value, name2: Value,
                              hsmId: Value, language: Value)
    requires Truthy(templateId)
    ensures Delete(businessAccountId, name1, templateId, hsmId, language) == Delete(businessAccountId, name2, templateId)
  {
  }

  // ---------------------------------------------------------------- component builders

  function ComponentType(c: Value): Value
    requires c.VHash?
  {
    At(c.fields, KSym("type"))
  }

  /** `build_text_component`: a BODY with the text, then the example when truthy. */
  function BuildTextComponent(text: Value, example: Value := VNil): (c: Value)
    ensures c == VHash([(KSym("type"), VStr("BODY")), (KSym("text"), text)] + Entry(KSym("example"), When(Truthy(example), example)))
  {
    PutOptNew([(KSym("type"), VStr("BODY")), (KSym("text"), text)], KSym("example"), When(Truthy(example), example));
    VHash(PutOpt([(KSym("type"), VStr("BODY")), (KSym("text"), text)], KSym("example"), When(Truthy(example), example)))
  }

  /** Ruby's `type.upcase`: a String stays a String and a Symbol a Symbol; other values have no
      `upcase`. */
  function UpcaseValue(v: Value): (r: Option<Value>)
    ensures r.Some? <==> v.VStr? || v.VSym?
    ensures v.VStr? ==> r == Some(VStr(Upcase(v.s)))
    ensures v.VSym? ==> r == Some(VSym(Upcase(v.sym)))
  {
    match v
    case VStr(s) => Some(VStr(Upcase(s)))
    case VSym(s) => Some(VSym(Upcase(s)))
    case _ => None
  }

  /** The `example` a media header carries for its format: `{header_handle: [x]}` for the
      IMAGE, VIDEO or DOCUMENT argument when it is truthy. `case … when 'IMAGE'` compares with a
      String, so an upcased Symbol matches nothing. */
  function MediaExample(format: Value, image: Value, video: Value, document: Value): (r: Option<Value>)
    ensures !format.VStr? ==> r.None?
  {
    var media := if format == VStr("IMAGE") then image else if format == VStr("VIDEO") then video
                 else if format == VStr("DOCUMENT") then document else VNil;
    if Truthy(media) then Some(VHash([(KSym("header_handle"), VArr([media]))])) else None
  }

  /** The entries of a header component of the given format. */
  function HeaderMap(format: Value, text: Value, image: Value, video: Value, document: Value, example: Value): map<Key, Value> {
    var base := map[KSym("type") := VStr("HEADER"), KSym("format") := format];
    var own := if format == VStr("TEXT") then With(base, KSym("text"), When(Truthy(text), text))
               else With(base, KSym("example"), MediaExample(format, image, video, document));
    With(own, KSym("example"), When(Truthy(example), example))
  }

  /** `build_header_component`: a HEADER whose format is the upcased type; a TEXT header takes the
      text, a media header the handle of its media, and a truthy `example` replaces whatever
      example there was. */
  function BuildHeaderComponent(headerType: Value, text: Value := VNil, image: Value := VNil, video: Value := VNil,
                                document: Value := VNil, example: Value := VNil): (r: Result<Value, Failure>)
    ensures r.Success? <==> headerType.VStr? || headerType.VSym?
    ensures r.Success? ==>
              r.value.VHash? &&
              Holds(r.value.fields, HeaderMap(UpcaseValue(headerType).value, text, image, video, document, example))
  {
    match UpcaseValue(headerType)
    case None => Failure(TypeFault("undefined method `upcase'"))
    case Some(format) =>
      var base := [(KSym("type"), VStr("HEADER")), (KSym("format"), format)];
      var m := map[KSym("type") := VStr("HEADER"), KSym("format") := format];
      Hash2(KSym("type"), VStr("HEADER"), KSym("format"), format);
      var key := if format == VStr("TEXT") then KSym("text") else KSym("example");
      var entry := if format == VStr("TEXT") then When(Truthy(text), text) else MediaExample(format, image, video, document);
      PutOptHolds(base, m, key, entry);
      PutOptHolds(PutOpt(base, key, entry), With(m, key, entry), KSym("example"), When(Truthy(example), example));
      Success(VHash(PutOpt(PutOpt(base, key, entry), KSym("example"), When(Truthy(example), example))))
  }

  /** An image header carries its handle as the example, under the upcased format. */
  lemma ImageHeaderHandle(image: Value)
    requires Truthy(image)
    ensures var r := BuildHeaderComponent(VStr("image"), image := image);
      r.Success? && Lookup(r.value.fields, KSym("example")) == Some(VHash([(KSym("header_handle"), VArr([image]))])) &&
      Lookup(r.value.fields, KSym("format")) == Some(VStr("IMAGE"))
  {
    assert Upcase("image") == "IMAGE";
    var f1 := BuildHeaderComponent(VStr("image"), image := image).value.fields;
    HoldsLookup(f1, HeaderMap(VStr("IMAGE"), VNil, image, VNil, VNil, VNil), KSym("example"));
    HoldsLookup(f1, HeaderMap(VStr("IMAGE"), VNil, image, VNil, VNil, VNil), KSym("format"));
  }

  /** An explicit example replaces the image handle. */
  lemma ExampleReplacesHandle(image: Value, example: Value)
    requires Truthy(image) && Truthy(example)
    ensures var r := BuildHeaderComponent(VStr("image"), image := image, example := example);
      r.Success? && Lookup(r.value.fields, KSym("example")) == Some(example)
  {
    assert Upcase("image") == "IMAGE";
    var f2 := BuildHeaderComponent(VStr("image"), image := image, example := example).value.fields;
    HoldsLookup(f2, HeaderMap(VStr("IMAGE"), VNil, image, VNil, VNil, example), KSym("example"));
  }

  /** A Symbol type upcases to a Symbol, which no media branch matches. */
  lemma SymbolHeaderHasNoHandle(image: Value)
    requires Truthy(image)
    ensures var r := BuildHeaderComponent(VSym("image"), image := image);
      r.Success? && Lookup(r.value.fields, KSym("example")) == None &&
      Lookup(r.value.fields, KSym("format")) == Some(VSym("IMAGE"))
  {
    assert Upcase("image") == "IMAGE";
    var f3 := BuildHeaderComponent(VSym("image"), image := image).value.fields;
    HoldsLookup(f3, HeaderMap(VSym("IMAGE"), VNil, image, VNil, VNil, VNil), KSym("example"));
    HoldsLookup(f3, HeaderMap(VSym("IMAGE"), VNil, image, VNil, VNil, VNil), KSym("format"));
  }

  /** `build_footer_component`: a FOOTER, then the text and the code expiration when truthy. */
  function BuildFooterComponent(text: Value := VNil, codeExpirationMinutes: Value := VNil): (c: Value)
    ensures c == VHash([(KSym("type"), VStr("FOOTER"))] + Entry(KSym("text"), When(Truthy(text), text)) +
                       Entry(KSym("code_expiration_minutes"), When(Truthy(codeExpirationMinutes), codeExpirationMinutes)))
  {
    var base := [(KSym("type"), VStr("FOOTER"))];
    var withText := PutOpt(base, KSym("text"), When(Truthy(text), text));
    PutOptNew(base, KSym("text"), When(Truthy(text), text));
    PutOptNew(withText, KSym("code_expiration_minutes"), When(Truthy(codeExpirationMinutes), codeExpirationMinutes));
    VHash(PutOpt(withText, KSym("code_expiration_minutes"), When(Truthy(codeExpirationMinutes), codeExpirationMinutes)))
  }

  /** `build_buttons_component`: BUTTONS holding the normalised buttons. */
  function BuildButtonsComponent(buttons: Value): (r: Result<Value, Failure>)
    ensures r.Success? <==> NormalizeComponents(buttons).Success?
    ensures r.Success? ==>
              r.value == VHash([(KSym("type"), VStr("BUTTONS")), (KSym("buttons"), VArr(NormalizeComponents(buttons).value))])
  {
    var normalized :- NormalizeComponents(buttons);
    Success(VHash([(KSym("type"), VStr("BUTTONS")), (KSym("buttons"), VArr(normalized))]))
  }

  /** The fields a button of the (upcased) type takes, in the order `build_button` adds them,
      each with the argument it is copied from. */
  function ButtonCandidates(format: Value, text: Value, url: Value, phoneNumber: Value, otpType: Value,
                            autofillText: Value, packageName: Value, signatureHash: Value): (f: Fields)
    ensures forall i :: 0 <= i < |f| ==> f[i].0 != KSym("type")
  {
    if format == VStr("QUICK_REPLY") then [(KSym("text"), text)]
    else if format == VStr("URL") then [(KSym("text"), text), (KSym("url"), url)]
    else if format == VStr("PHONE_NUMBER") then [(KSym("text"), text), (KSym("phone_number"), phoneNumber)]
    else if format == VStr("OTP") then
      [(KSym("otp_type"), otpType), (KSym("text"), text), (KSym("autofill_text"), autofillText),
       (KSym("package_name"), packageName), (KSym("signature_hash"), signatureHash)]
    else []
  }

  /** The entries whose value is truthy, in order: `h[k] = v if v` for each. */
  function TruthyEntries(f: Fields): (r: Fields)
    ensures |r| <= |f|
    ensures forall e :: e in r <==> e in f && Truthy(e.1)
  {
    if f == [] then [] else (if Truthy(f[0].1) then [f[0]] else []) + TruthyEntries(f[1..])
  }

  /** The filter keeps the order of the entries: it distributes over concatenation. */
  lemma {:induction false} TruthyEntriesAppend(f: Fields, g: Fields)
    ensures TruthyEntries(f + g) == TruthyEntries(f) + TruthyEntries(g)
  {
    if f == [] {
      assert f + g == g;
    } else {
      assert (f + g)[0] == f[0] && (f + g)[1..] == f[1..] + g;
      TruthyEntriesAppend(f[1..], g);
    }
  }

  lemma {:induction false} TruthyEntriesNone(f: Fields)
    requires forall i :: 0 <= i < |f| ==> !Truthy(f[i].1)
    ensures TruthyEntries(f) == []
  {
    if f != [] {
      TruthyEntriesNone(f[1..]);
    }
  }

  /** `build_button`: the upcased type first, then the truthy arguments among the fields that type
      takes; a type none of the `when` branches names (a Symbol among them) gets its type only. */
  function BuildButton(buttonType: Value, text: Value := VNil, url: Value := VNil, phoneNumber: Value := VNil,
                       otpType: Value := VNil, autofillText: Value := VNil, packageName: Value := VNil,
                       signatureHash: Value := VNil): (r: Result<Value, Failure>)
    ensures r.Success? <==> buttonType.VStr? || buttonType.VSym?
    ensures r.Success? ==>
              var format := UpcaseValue(buttonType).value;
              r.value.VHash? && |r.value.fields| >= 1 && r.value.fields[0] == (KSym("type"), format) &&
              forall e :: e in r.value.fields[1..] <==>
                e in ButtonCandidates(format, text, url, phoneNumber, otpType, autofillText, packageName, signatureHash) &&
                Truthy(e.1)
  {
    match UpcaseValue(buttonType)
    case None => Failure(TypeFault("undefined method `upcase'"))
    case Some(format) =>
      var entries := TruthyEntries(ButtonCandidates(format, text, url, phoneNumber, otpType, autofillText, packageName, signatureHash));
      assert ([(KSym("type"), format)] + entries)[1..] == entries;
      Success(VHash([(KSym("type"), format)] + entries))
  }

  /** A URL button takes its text and address and nothing else. */
  lemma UrlButton(text: Value, url: Value, phoneNumber: Value)
    requires Truthy(text) && Truthy(url)
    ensures BuildButton(VStr("url"), text, url, phoneNumber) ==
            Success(VHash([(KSym("type"), VStr("URL")), (KSym("text"), text), (KSym("url"), url)]))
  {
    assert Upcase("url") == "URL";
    assert UpcaseValue(VStr("url")) == Some(VStr("URL"));
    var f := ButtonCandidates(VStr("URL"), text, url, phoneNumber, VNil, VNil, VNil, VNil);
    assert f == [(KSym("text"), text), (KSym("url"), url)];
    assert TruthyEntries([(KSym("url"), url)]) == [(KSym("url"), url)];
    assert f[1..] == [(KSym("url"), url)];
    assert TruthyEntries(f) == [(KSym("text"), text), (KSym("url"), url)];
    assert [(KSym("type"), VStr("URL"))] + TruthyEntries(f) ==
           [(KSym("type"), VStr("URL")), (KSym("text"), text), (KSym("url"), url)];
  }

  /** A type no branch names takes its type only. */
  lemma UnknownTypeButton(text: Value, url: Value)
    ensures BuildButton(VStr("catalog"), text, url) == Success(VHash([(KSym("type"), VStr("CATALOG"))]))
  {
    assert Upcase("catalog") == "CATALOG";
    assert "CATALOG"[0] == 'C';
    assert UpcaseValue(VStr("catalog")) == Some(VStr("CATALOG"));
    assert ButtonCandidates(VStr("CATALOG"), text, url, VNil, VNil, VNil, VNil, VNil) == [];
    assert [(KSym("type"), VStr("CATALOG"))] + [] == [(KSym("type"), VStr("CATALOG"))];
  }

  /** A Symbol type upcases to a Symbol, which no branch names: the button takes its type only. */
  lemma SymbolTypeButton(text: Value, url: Value)
    ensures BuildButton(VSym("url"), text, url) == Success(VHash([(KSym("type"), VSym("URL"))]))
  {
    assert Upcase("url") == "URL";
    assert UpcaseValue(VSym("url")) == Some(VSym("URL"));
    assert ButtonCandidates(VSym("URL"), text, url, VNil, VNil, VNil, VNil, VNil) == [];
    assert [(KSym("type"), VSym("URL"))] + [] == [(KSym("type"), VSym("URL"))];
  }

  // ---------------------------------------------------------------- template builders

  /** The OTP button of an authentication template, as `build_buttons_component` normalises it. */
  function OtpButton(otpType: Value): Value {
    VHash([(KStr("type"), VStr("OTP"))] + (if Truthy(otpType) then [(KStr("otp_type"), otpType)] else []))
  }

  /** The OTP button `build_authentication_template` asks for: its type, and the OTP type when
      it is truthy. */
  lemma OtpButtonBuilt(otpType: Value)
    ensures BuildButton(VStr("OTP"), otpType := otpType) ==
            Success(VHash([(KSym("type"), VStr("OTP"))] + (if Truthy(otpType) then [(KSym("otp_type"), otpType)] else [])))
  {
    assert Upcase("OTP") == "OTP";
    assert UpcaseValue(VStr("OTP")) == Some(VStr("OTP"));
    var f := ButtonCandidates(VStr("OTP"), VNil, VNil, VNil, otpType, VNil, VNil, VNil);
    assert f == [(KSym("otp_type"), otpType), (KSym("text"), VNil), (KSym("autofill_text"), VNil),
                 (KSym("package_name"), VNil), (KSym("signature_hash"), VNil)];
    TruthyEntriesNone(f[1..]);
    var otp := if Truthy(otpType) then [(KSym("otp_type"), otpType)] else [];
    assert TruthyEntries(f) == otp + TruthyEntries(f[1..]);
    assert otp + [] == otp;
  }

  /** Normalising that one button turns its keys into strings and keeps its values. */
  lemma OtpButtonNormalized(otpType: Value)
    ensures Normalized(VHash([(KSym("type"), VStr("OTP"))] + (if Truthy(otpType) then [(KSym("otp_type"), otpType)] else [])))
            == Some(OtpButton(otpType))
  {
    var f := [(KSym("type"), VStr("OTP"))] + (if Truthy(otpType) then [(KSym("otp_type"), otpType)] else []);
    NormalizeKeepsValues(f);
    if Truthy(otpType) {
      assert seq(|f|, i requires 0 <= i < |f| => (KStr(f[i].0.name), f[i].1)) == OtpButton(otpType).fields;
    } else {
      assert seq(|f|, i requires 0 <= i < |f| => (KStr(f[i].0.name), f[i].1)) == OtpButton(otpType).fields;
    }
  }

  lemma OtpButtonsComponent(otpType: Value)
    ensures BuildButtonsComponent(VArr([BuildButton(VStr("OTP"), otpType := otpType).value])) ==
            Success(VHash([(KSym("type"), VStr("BUTTONS")), (KSym("buttons"), VArr([OtpButton(otpType)]))]))
  {
    OtpButtonBuilt(otpType);
    OtpButtonNormalized(otpType);
    var button := BuildButton(VStr("OTP"), otpType := otpType).value;
    assert NormalizeAll([button][1..]) == Success([]);
    assert [OtpButton(otpType)] + [] == [OtpButton(otpType)];
    assert NormalizeAll([button]) == Success([OtpButton(otpType)]);
  }

  /** The BUTTONS component of `build_authentication_template`, holding one OTP button. */
  function AuthenticationButtons(otpType: Value): (c: Value)
    ensures c == VHash([(KSym("type"), VStr("BUTTONS")), (KSym("buttons"), VArr([OtpButton(otpType)]))])
  {
    OtpButtonsComponent(otpType);
    BuildButtonsComponent(VArr([BuildButton(VStr("OTP"), otpType := otpType).value])).value
  }

  /** The BODY component of `build_authentication_template`, carrying the security recommendation flag. */
  function SecurityBody(addSecurityRecommendation: Value): Value {
    VHash([(KSym("type"), VStr("BODY")), (KSym("add_security_recommendation"), addSecurityRecommendation)])
  }

  /** The components of `build_authentication_template`: the BODY with the security
      recommendation flag, a FOOTER with the code expiration when it is truthy, and BUTTONS with
      one OTP button. */
  function AuthenticationComponents(addSecurityRecommendation: Value, codeExpirationMinutes: Value, otpType: Value)
    : seq<Value>
  {
    var body := SecurityBody(addSecurityRecommendation);
    var buttons := AuthenticationButtons(otpType);
    if Truthy(codeExpirationMinutes) then [body, BuildFooterComponent(VNil, codeExpirationMinutes), buttons]
    else [body, buttons]
  }

  /** The BODY comes first and the BUTTONS last; the FOOTER sits between them exactly when the
      code expiration is truthy. */
  lemma AuthenticationComponentsShape(addSecurityRecommendation: Value, codeExpirationMinutes: Value, otpType: Value)
    ensures Truthy(codeExpirationMinutes) ==>
              AuthenticationComponents(addSecurityRecommendation, codeExpirationMinutes, otpType) ==
              [SecurityBody(addSecurityRecommendation), BuildFooterComponent(VNil, codeExpirationMinutes), AuthenticationButtons(otpType)]
    ensures !Truthy(codeExpirationMinutes) ==>
              AuthenticationComponents(addSecurityRecommendation, codeExpirationMinutes, otpType) ==
              [SecurityBody(addSecurityRecommendation), AuthenticationButtons(otpType)]
  {
  }

  /** `build_authentication_template`: the AUTHENTICATION category, the time to live (60 seconds
      by default) and the components above. */
  function BuildAuthenticationTemplate(name: Value, language: Value, ttlSeconds: Value := VInt(60),
                                       addSecurityRecommendation: Value := VBool(true),
                                       codeExpirationMinutes: Value := VInt(10), otpType: Value := VStr("COPY_CODE"))
    : (t: Value)
    ensures t.VHash? &&
            Holds(t.fields, map[KSym("name") := name, KSym("language") := language, KSym("category") := VStr("AUTHENTICATION"),
                                KSym("message_send_ttl_seconds") := ttlSeconds,
                                KSym("components") := VArr(AuthenticationComponents(addSecurityRecommendation, codeExpirationMinutes, otpType))])
  {
    var cs := AuthenticationComponents(addSecurityRecommendation, codeExpirationMinutes, otpType);
    Hash5(KSym("name"), name, KSym("language"), language, KSym("category"), VStr("AUTHENTICATION"),
          KSym("message_send_ttl_seconds"), ttlSeconds, KSym("components"), VArr(cs));
    VHash([(KSym("name"), name), (KSym("language"), language), (KSym("category"), VStr("AUTHENTICATION")),
           (KSym("message_send_ttl_seconds"), ttlSeconds), (KSym("components"), VArr(cs))])
  }

  /** The components of the marketing and utility builders, in this order: the header when
      truthy, the BODY, a FOOTER when the footer text is truthy, and BUTTONS when buttons are
      given. */
  function BodyComponents(header: Value, body: Value, bodyExample: Value, footer: Value, buttons: Value)
    : (r: Result<seq<Value>, Failure>)
    ensures r.Success? <==> !Truthy(buttons) || NormalizeComponents(buttons).Success?
    ensures r.Success? ==>
              r.value == (if Truthy(header) then [header] else []) + [BuildTextComponent(body, bodyExample)] +
                         (if Truthy(footer) then [BuildFooterComponent(footer)] else []) +
                         (if Truthy(buttons) then [BuildButtonsComponent(buttons).value] else [])
  {
    var components := if Truthy(header) then [header] else [];
    var components := components + [BuildTextComponent(body, bodyExample)];
    var components := if Truthy(footer) then components + [BuildFooterComponent(footer)] else components;
    if Truthy(buttons) then
      var b :- BuildButtonsComponent(buttons);
      Success(components + [b])
    else Success(components)
  }

  function Template(name: Value, language: Value, category: string, components: seq<Value>): Value {
    VHash([(KSym("name"), name), (KSym("language"), language), (KSym("category"), VStr(category)),
           (KSym("components"), VArr(components))])
  }

  /** `build_marketing_template`: the MARKETING category and the components above. */
  function BuildMarketingTemplate(name: Value, language: Value, body: Value, header: Value := VNil, footer: Value := VNil,
                                  buttons: Value := VNil, bodyExample: Value := VNil): (r: Result<Value, Failure>)
    ensures r.Success? <==> BodyComponents(header, body, bodyExample, footer, buttons).Success?
    ensures r.Success? ==> r.value == Template(name, language, "MARKETING", BodyComponents(header, body, bodyExample, footer, buttons).value)
  {
    var cs :- BodyComponents(header, body, bodyExample, footer, buttons);
    Success(Template(name, language, "MARKETING", cs))
  }

  /** `build_utility_template`: the UTILITY category and the components above. */
  function BuildUtilityTemplate(name: Value, language: Value, body: Value, header: Value := VNil, footer: Value := VNil,
                                buttons: Value := VNil, bodyExample: Value := VNil): (r: Result<Value, Failure>)
    ensures r.Success? <==> BodyComponents(header, body, bodyExample, footer, buttons).Success?
    ensures r.Success? ==> r.value == Template(name, language, "UTILITY", BodyComponents(header, body, bodyExample, footer, buttons).value)
  {
    var cs :- BodyComponents(header, body, bodyExample, footer, buttons);
    Success(Template(name, language, "UTILITY", cs))
  }

  /** A Hash whose first entry is a truthy `:type` is a component. */
  lemma TypedIsComponent(c: Value)
    requires c.VHash? && |c.fields| > 0 && c.fields[0].0 == KSym("type") && Truthy(c.fields[0].1)
    ensures IsComponent(c)
  {
    IndexOfIs(Keys(c.fields), KSym("type"), 0);
  }

  predicate AllComponents(cs: seq<Value>) {
    forall i :: 0 <= i < |cs| ==> IsComponent(cs[i])
  }

  lemma AppendComponent(cs: seq<Value>, c: Value)
    requires AllComponents(cs) && IsComponent(c)
    ensures AllComponents(cs + [c])
  {
    assert forall i :: 0 <= i < |cs| ==> (cs + [c])[i] == cs[i];
  }

  lemma TextIsComponent(body: Value, bodyExample: Value)
    ensures IsComponent(BuildTextComponent(body, bodyExample))
  {
    TypedIsComponent(BuildTextComponent(body, bodyExample));
  }

  lemma FooterIsComponent(text: Value, codeExpirationMinutes: Value)
    ensures IsComponent(BuildFooterComponent(text, codeExpirationMinutes))
  {
    TypedIsComponent(BuildFooterComponent(text, codeExpirationMinutes));
  }

  lemma ButtonsIsComponent(buttons: Value)
    requires BuildButtonsComponent(buttons).Success?
    ensures IsComponent(BuildButtonsComponent(buttons).value)
  {
    TypedIsComponent(BuildButtonsComponent(buttons).value);
  }

  /** The builders' components pass `create`'s validation: each is a Hash with `:type`, provided
      the header is nothing or a component itself. */
  lemma BuiltComponentsValid(header: Value, body: Value, bodyExample: Value, footer: Value, buttons: Value)
    requires !Truthy(header) || IsComponent(header)
    requires BodyComponents(header, body, bodyExample, footer, buttons).Success?
    ensures var cs := BodyComponents(header, body, bodyExample, footer, buttons).value;
      |cs| > 0 && AllComponents(cs)
  {
    var cs := if Truthy(header) then [header] else [];
    TextIsComponent(body, bodyExample);
    AppendComponent(cs, BuildTextComponent(body, bodyExample));
    cs := cs + [BuildTextComponent(body, bodyExample)];
    if Truthy(footer) {
      FooterIsComponent(footer, VNil);
      AppendComponent(cs, BuildFooterComponent(footer));
      cs := cs + [BuildFooterComponent(footer)];
    }
    if Truthy(buttons) {
      ButtonsIsComponent(buttons);
      AppendComponent(cs, BuildButtonsComponent(buttons).value);
      cs := cs + [BuildButtonsComponent(buttons).value];
    }
    assert cs == BodyComponents(header, body, bodyExample, footer, buttons).value;
  }

  /** A marketing template built from a header component, a body, a footer and buttons is one
      `create` accepts: a non-blank name and language are all it needs besides. */
  lemma MarketingTemplateCreatable(businessAccountId: Value, name: Value, language: Value, body: Value, header: Value,
                                   footer: Value, buttons: Value)
    requires Filled(name) && Filled(language)
    requires !Truthy(header) || IsComponent(header)
    requires BodyComponents(header, body, VNil, footer, buttons).Success?
    ensures Create(businessAccountId, name, language, VStr("MARKETING"),
                   VArr(BodyComponents(header, body, VNil, footer, buttons).value)).Success?
  {
    BuiltComponentsValid(header, body, VNil, footer, buttons);
    MarketingCategoryKnown();
  }

  lemma MarketingCategoryKnown()
    ensures Filled(VStr("MARKETING")) && Upcase("MARKETING") in TemplateCategories
  {
    assert Upcase("MARKETING") == "MARKETING";
    assert "MARKETING"[0] == 'M';
  }

  lemma ListComponents(a: Value, b: Value, c: Value)
    requires IsComponent(a) && IsComponent(b) && IsComponent(c)
    ensures AllComponents([a, b]) && AllComponents([a, b, c])
  {
  }

  /** Every component of an authentication template is a Hash with `:type`. */
  lemma AuthenticationComponentsValid(addSecurityRecommendation: Value, codeExpirationMinutes: Value, otpType: Value)
    ensures AllComponents(AuthenticationComponents(addSecurityRecommendation, codeExpirationMinutes, otpType))
  {
    var body := VHash([(KSym("type"), VStr("BODY")), (KSym("add_security_recommendation"), addSecurityRecommendation)]);
    var footer := BuildFooterComponent(VNil, codeExpirationMinutes);
    var buttons := AuthenticationButtons(otpType);
    TypedIsComponent(body);
    TypedIsComponent(footer);
    TypedIsComponent(buttons);
    ListComponents(body, buttons, buttons);
    ListComponents(body, footer, buttons);
  }

  /** An authentication template is one `create` accepts under its own category. */
  lemma AuthenticationTemplateCreatable(businessAccountId: Value, name: Value, language: Value,
                                        addSecurityRecommendation: Value, codeExpirationMinutes: Value, otpType: Value)
    requires Filled(name) && Filled(language)
    ensures Create(businessAccountId, name, language, VStr("AUTHENTICATION"),
                   VArr(AuthenticationComponents(addSecurityRecommendation, codeExpirationMinutes, otpType))).Success?
  {
    AuthenticationComponentsValid(addSecurityRecommendation, codeExpirationMinutes, otpType);
    AuthenticationCategoryKnown();
  }

  lemma AuthenticationCategoryKnown()
    ensures Filled(VStr("AUTHENTICATION")) && Upcase("AUTHENTICATION") in TemplateCategories
  {
    assert Upcase("AUTHENTICATION") == "AUTHENTICATION";
    assert "AUTHENTICATION"[0] == 'A';
  }
}

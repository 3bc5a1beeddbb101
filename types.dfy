/** Key-case conversion and the response wrappers the resources decode replies into. */
module Types {
  import opened Wrappers
  import opened Text
  import opened Values
  import opened Errors

  const MessageStatuses: seq<string> := ["accepted", "held_for_quality_assessment"]
  const TemplateStatuses: seq<string> := ["APPROVED", "PENDING", "REJECTED", "PAUSED", "IN_APPEAL", "DISABLED"]
  const TemplateCategories: seq<string> := ["MARKETING", "UTILITY", "AUTHENTICATION", "UNKNOWN"]
  const MediaTypes: seq<string> := ["image", "audio", "video", "document", "sticker"]
  const InteractiveTypes: seq<string> :=
    ["button", "list", "product", "product_list", "flow", "address", "location_request", "call_permission"]

  // ---------------------------------------------------------------- key case

  /** `gsub(/([A-Z])/, '_\1')`: an underscore before every capital letter. */
  function Underscored(s: string): (r: string)
    ensures |r| >= |s|
  {
    if s == [] then [] else (if IsUpper(s[0]) then ['_', s[0]] else [s[0]]) + Underscored(s[1..])
  }

  /** `to_snake_case`. */
  function ToSnakeCase(s: string): (r: string)
    ensures forall i :: 0 <= i < |r| ==> !IsUpper(r[i])
  {
    var t := Downcase(Underscored(s));
    var r := DropAtLineStart(t, '_', true);
    assert forall c :: c in t ==> !IsUpper(c);
    r
  }

  predicate NoUpper(s: string) { forall i :: 0 <= i < |s| ==> !IsUpper(s[i]) }

  lemma {:induction false} UnderscoredNoUpper(s: string)
    requires NoUpper(s)
    ensures Underscored(s) == s
    decreases |s|
  {
    if s != [] {
      UnderscoredNoUpper(s[1..]);
    }
  }

  lemma DowncaseNoUpper(s: string)
    requires NoUpper(s)
    ensures Downcase(s) == s
  {
  }

  /** `to_snake_case` leaves alone a string with no capital letter and no line starting with `_`. */
  lemma SnakeCaseIdentity(s: string)
    requires NoUpper(s) && !LineStartsWith(s, '_')
    ensures ToSnakeCase(s) == s
  {
    UnderscoredNoUpper(s);
    DowncaseNoUpper(s);
    DropAtLineStartUnchanged(s, '_', true);
  }

  /** A string starting with `_` and otherwise free of capitals loses exactly that underscore. */
  lemma SnakeCaseDropsLeadingUnderscore(s: string)
    requires |s| > 0 && s[0] == '_' && NoUpper(s)
    ensures ToSnakeCase(s) == s[1..]
  {
    UnderscoredNoUpper(s);
    DowncaseNoUpper(s);
  }

  /** The capitalised words after the first, concatenated. */
  function CapitalizedTail(words: seq<string>): string {
    if words == [] then "" else Capitalize(words[0]) + CapitalizedTail(words[1..])
  }

  /** `to_camel_case`: split on `_` (trailing empty parts dropped), keep the first part,
      capitalise the others, join. */
  function ToCamelCase(s: string): (r: string)
    ensures |Split(s, '_')| > 0 ==> StartsWith(r, Split(s, '_')[0])
  {
    var words := Split(s, '_');
    if words == [] then "" else words[0] + CapitalizedTail(words[1..])
  }

  /** A word of lower-case letters. */
  predicate LowerWord(w: string) {
    |w| > 0 && forall i :: 0 <= i < |w| ==> IsLower(w[i])
  }

  /** Splitting words joined by `c` gives the words back, when no word contains `c`. */
  lemma {:induction false} SplitFieldsJoin(words: seq<string>, c: char)
    requires |words| > 0
    requires forall k, i :: 0 <= k < |words| && 0 <= i < |words[k]| ==> words[k][i] != c
    ensures SplitFields(Join(words, [c]), c) == words
    decreases |words|
  {
    if |words| == 1 {
      SplitFieldsNoSep(words[0], c);
    } else {
      SplitFieldsJoin(words[1..], c);
      SplitFieldsCons(words[0], c, Join(words[1..], [c]));
    }
  }

  lemma {:induction false} UnderscoredAppend(a: string, b: string)
    ensures Underscored(a + b) == Underscored(a) + Underscored(b)
    decreases |a|
  {
    if a == [] {
      assert a + b == b;
    } else {
      assert (a + b)[0] == a[0] && (a + b)[1..] == a[1..] + b;
      UnderscoredAppend(a[1..], b);
    }
  }

  lemma DowncaseAppend(a: string, b: string)
    ensures Downcase(a + b) == Downcase(a) + Downcase(b)
  {
  }

  /** After the capital letters get their underscores and everything is downcased, a capitalised
      lower-case word reads `_word`. */
  lemma SnakeOfCapitalized(w: string)
    requires LowerWord(w)
    ensures Downcase(Underscored(Capitalize(w))) == "_" + w
  {
    var u := Upper(w[0]);
    var t := w[1..];
    assert NoUpper(t);
    calc {
      Downcase(Underscored(Capitalize(w)));
      { DowncaseNoUpper(t); assert Capitalize(w) == [u] + t; }
      Downcase(Underscored([u] + t));
      { UnderscoredAppend([u], t); UnderscoredNoUpper(t); assert [u][1..] == []; }
      Downcase(['_', u] + t);
      { DowncaseAppend(['_', u], t); DowncaseNoUpper(t); }
      Downcase(['_', u]) + t;
      ['_', w[0]] + t;
      "_" + w;
    }
  }

  lemma {:induction false} SnakeOfTail(words: seq<string>)
    requires forall k :: 0 <= k < |words| ==> LowerWord(words[k])
    ensures Downcase(Underscored(CapitalizedTail(words))) == JoinPrefixed(words, "_")
    decreases |words|
  {
    if words != [] {
      SnakeOfTail(words[1..]);
      UnderscoredAppend(Capitalize(words[0]), CapitalizedTail(words[1..]));
      DowncaseAppend(Underscored(Capitalize(words[0])), Underscored(CapitalizedTail(words[1..])));
      SnakeOfCapitalized(words[0]);
    }
  }

  /** Each word preceded by `sep`, concatenated. */
  function JoinPrefixed(words: seq<string>, sep: string): string {
    if words == [] then "" else sep + words[0] + JoinPrefixed(words[1..], sep)
  }

  lemma {:induction false} JoinAsPrefixed(words: seq<string>, sep: string)
    requires |words| > 0
    ensures Join(words, sep) == words[0] + JoinPrefixed(words[1..], sep)
    decreases |words|
  {
    if |words| > 1 {
      JoinAsPrefixed(words[1..], sep);
      assert words[1..][1..] == words[2..];
    }
  }

  lemma {:induction false} NoNewlineInLower(words: seq<string>)
    requires |words| > 0
    requires forall k :: 0 <= k < |words| ==> LowerWord(words[k])
    ensures forall i :: 0 <= i < |Join(words, "_")| ==> Join(words, "_")[i] == '_' || IsLower(Join(words, "_")[i])
    decreases |words|
  {
    if |words| > 1 {
      NoNewlineInLower(words[1..]);
      assert Join(words, "_") == words[0] + "_" + Join(words[1..], "_");
    }
  }

  lemma SplitOfJoin(words: seq<string>)
    requires |words| > 0
    requires forall k :: 0 <= k < |words| ==> LowerWord(words[k])
    ensures Split(Join(words, "_"), '_') == words
  {
    SplitFieldsJoin(words, '_');
    assert words[|words| - 1] != [];
  }

  lemma SnakeOfCamel(words: seq<string>)
    requires |words| > 0
    requires forall k :: 0 <= k < |words| ==> LowerWord(words[k])
    ensures Downcase(Underscored(words[0] + CapitalizedTail(words[1..]))) == Join(words, "_")
  {
    var tail := CapitalizedTail(words[1..]);
    UnderscoredAppend(words[0], tail);
    UnderscoredNoUpper(words[0]);
    DowncaseAppend(words[0], Underscored(tail));
    DowncaseNoUpper(words[0]);
    SnakeOfTail(words[1..]);
    JoinAsPrefixed(words, "_");
  }

  /** For lower-case words joined by single underscores, camel-casing and then snake-casing gives
      the text back. */
  lemma SnakeCamelRoundTrip(words: seq<string>)
    requires |words| > 0
    requires forall k :: 0 <= k < |words| ==> LowerWord(words[k])
    ensures ToSnakeCase(ToCamelCase(Join(words, "_"))) == Join(words, "_")
  {
    CamelOfJoin(words);
    SnakeOfCamelWords(words);
  }

  lemma CamelOfJoin(words: seq<string>)
    requires |words| > 0
    requires forall k :: 0 <= k < |words| ==> LowerWord(words[k])
    ensures ToCamelCase(Join(words, "_")) == words[0] + CapitalizedTail(words[1..])
  {
    SplitOfJoin(words);
  }

  lemma SnakeOfCamelWords(words: seq<string>)
    requires |words| > 0
    requires forall k :: 0 <= k < |words| ==> LowerWord(words[k])
    ensures ToSnakeCase(words[0] + CapitalizedTail(words[1..])) == Join(words, "_")
  {
    var s := Join(words, "_");
    var camel := words[0] + CapitalizedTail(words[1..]);
    assert Downcase(Underscored(camel)) == s by { SnakeOfCamel(words); }
    assert DropAtLineStart(s, '_', true) == s by {
      NoNewlineInLower(words);
      DropAtLineStartUnchanged(s, '_', true);
    }
  }

  // ---------------------------------------------------------------- deep conversion

  /** `key.to_s` */
  function KeyText(k: Key): string { k.name }

  /** `transform_keys` builds its result by storing the converted pairs one after the other: a
      later pair whose key collides with an earlier one overwrites its value in place. */
  function Collapse(pairs: Fields): (h: Fields)
    ensures UniqueKeys(h) && |h| <= |pairs|
    ensures forall k :: HasKey(h, k) <==> HasKey(pairs, k)
    ensures forall k :: Lookup(h, k) == Latest(pairs, k)
    ensures InFirstOrder(Keys(pairs), h)
  {
    MergeLookupAll([], pairs);
    MergeOrder(pairs);
    Merge([], pairs)
  }

  /** The converted keys of a hash whose values are already converted. */
  function SnakeKeys(f: Fields): (r: Fields)
    ensures |r| == |f|
    ensures forall i :: 0 <= i < |f| ==> r[i] == (KStr(ToSnakeCase(KeyText(f[i].0))), f[i].1)
  {
    seq(|f|, i requires 0 <= i < |f| => (KStr(ToSnakeCase(KeyText(f[i].0))), f[i].1))
  }

  function CamelKeys(f: Fields): (r: Fields)
    ensures |r| == |f|
    ensures forall i :: 0 <= i < |f| ==> r[i] == (KStr(ToCamelCase(KeyText(f[i].0))), f[i].1)
  {
    seq(|f|, i requires 0 <= i < |f| => (KStr(ToCamelCase(KeyText(f[i].0))), f[i].1))
  }

  /** `deep_snake_case_keys`. Keys become snake-cased strings and values are converted
      recursively; arrays are converted element by element; other values are returned as they
      are. Converting the values before the keys are merged gives what Ruby's
      `transform_keys … .transform_values` gives (`CollapseMapsValues`). */
  function DeepSnake(v: Value): (r: Value)
    ensures v.VArr? ==> r.VArr? && |r.items| == |v.items|
    ensures v.VHash? ==> r.VHash? && UniqueKeys(r.fields) && |r.fields| <= |v.fields|
    ensures !v.VHash? && !v.VArr? ==> r == v
  {
    match v
    case VArr(items) => VArr(seq(|items|, i requires 0 <= i < |items| => DeepSnake(items[i])))
    case VHash(f) =>
      VHash(Collapse(SnakeKeys(seq(|f|, i requires 0 <= i < |f| => (f[i].0, DeepSnake(f[i].1))))))
    case _ => v
  }

  /** `deep_camel_case_keys`, the same walk with `to_camel_case` on the keys. */
  function DeepCamel(v: Value): (r: Value)
    ensures v.VArr? ==> r.VArr? && |r.items| == |v.items|
    ensures v.VHash? ==> r.VHash? && UniqueKeys(r.fields) && |r.fields| <= |v.fields|
    ensures !v.VHash? && !v.VArr? ==> r == v
  {
    match v
    case VArr(items) => VArr(seq(|items|, i requires 0 <= i < |items| => DeepCamel(items[i])))
    case VHash(f) =>
      VHash(Collapse(CamelKeys(seq(|f|, i requires 0 <= i < |f| => (f[i].0, DeepCamel(f[i].1))))))
    case _ => v
  }

  /** An entry of a collapsed list holds the value of the last pair with its key. */
  lemma CollapsedValue(pairs: Fields, k: Key)
    requires HasKey(Collapse(pairs), k)
    ensures exists i :: 0 <= i < |pairs| && pairs[i].0 == k && Lookup(Collapse(pairs), k) == Some(pairs[i].1) &&
              forall j :: i < j < |pairs| ==> pairs[j].0 != k
  {
    LatestIsLast(pairs, k);
  }

  /** Each entry of a snake-cased hash holds the recursively converted value of the last entry
      of the original hash whose key converts to that entry's key. */
  lemma DeepSnakeValue(f: Fields, k: Key)
    ensures HasKey(DeepSnake(VHash(f)).fields, k) ==>
              exists i :: 0 <= i < |f| && KStr(ToSnakeCase(KeyText(f[i].0))) == k &&
                Lookup(DeepSnake(VHash(f)).fields, k) == Some(DeepSnake(f[i].1)) &&
                forall j :: i < j < |f| ==> KStr(ToSnakeCase(KeyText(f[j].0))) != k
  {
    var vals := DeepSnakeFields(f);
    if HasKey(Collapse(SnakeKeys(vals)), k) {
      DeepSnakeEntry(vals, k);
      var i :| 0 <= i < |vals| && KStr(ToSnakeCase(KeyText(vals[i].0))) == k &&
               Lookup(Collapse(SnakeKeys(vals)), k) == Some(vals[i].1) &&
               forall j :: i < j < |vals| ==> KStr(ToSnakeCase(KeyText(vals[j].0))) != k;
      assert vals[i] == (f[i].0, DeepSnake(f[i].1));
      assert forall j :: 0 <= j < |f| ==> vals[j].0 == f[j].0;
    }
  }

  /** The hash's pairs with their values converted, before the keys are. */
  function DeepSnakeFields(f: Fields): (vals: Fields)
    ensures |vals| == |f| && forall i :: 0 <= i < |f| ==> vals[i] == (f[i].0, DeepSnake(f[i].1))
    ensures DeepSnake(VHash(f)).fields == Collapse(SnakeKeys(vals))
  {
    seq(|f|, i requires 0 <= i < |f| => (f[i].0, DeepSnake(f[i].1)))
  }

  lemma DeepSnakeEntry(vals: Fields, k: Key)
    requires HasKey(Collapse(SnakeKeys(vals)), k)
    ensures exists i :: 0 <= i < |vals| && KStr(ToSnakeCase(KeyText(vals[i].0))) == k &&
              Lookup(Collapse(SnakeKeys(vals)), k) == Some(vals[i].1) &&
              forall j :: i < j < |vals| ==> KStr(ToSnakeCase(KeyText(vals[j].0))) != k
  {
    var pairs := SnakeKeys(vals);
    CollapsedValue(pairs, k);
    var i :| 0 <= i < |pairs| && pairs[i].0 == k && Lookup(Collapse(pairs), k) == Some(pairs[i].1) &&
             forall j :: i < j < |pairs| ==> pairs[j].0 != k;
    assert pairs[i] == (KStr(ToSnakeCase(KeyText(vals[i].0))), vals[i].1);
  }

  /** The same for camel-cased hashes. */
  lemma DeepCamelValue(f: Fields, k: Key)
    ensures HasKey(DeepCamel(VHash(f)).fields, k) ==>
              exists i :: 0 <= i < |f| && KStr(ToCamelCase(KeyText(f[i].0))) == k &&
                Lookup(DeepCamel(VHash(f)).fields, k) == Some(DeepCamel(f[i].1)) &&
                forall j :: i < j < |f| ==> KStr(ToCamelCase(KeyText(f[j].0))) != k
  {
    var vals := DeepCamelFields(f);
    if HasKey(Collapse(CamelKeys(vals)), k) {
      DeepCamelEntry(vals, k);
      var i :| 0 <= i < |vals| && KStr(ToCamelCase(KeyText(vals[i].0))) == k &&
               Lookup(Collapse(CamelKeys(vals)), k) == Some(vals[i].1) &&
               forall j :: i < j < |vals| ==> KStr(ToCamelCase(KeyText(vals[j].0))) != k;
      assert vals[i] == (f[i].0, DeepCamel(f[i].1));
      assert forall j :: 0 <= j < |f| ==> vals[j].0 == f[j].0;
    }
  }

  /** The hash's pairs with their values converted, before the keys are. */
  function DeepCamelFields(f: Fields): (vals: Fields)
    ensures |vals| == |f| && forall i :: 0 <= i < |f| ==> vals[i] == (f[i].0, DeepCamel(f[i].1))
    ensures DeepCamel(VHash(f)).fields == Collapse(CamelKeys(vals))
  {
    seq(|f|, i requires 0 <= i < |f| => (f[i].0, DeepCamel(f[i].1)))
  }

  lemma DeepCamelEntry(vals: Fields, k: Key)
    requires HasKey(Collapse(CamelKeys(vals)), k)
    ensures exists i :: 0 <= i < |vals| && KStr(ToCamelCase(KeyText(vals[i].0))) == k &&
              Lookup(Collapse(CamelKeys(vals)), k) == Some(vals[i].1) &&
              forall j :: i < j < |vals| ==> KStr(ToCamelCase(KeyText(vals[j].0))) != k
  {
    var pairs := CamelKeys(vals);
    CollapsedValue(pairs, k);
    var i :| 0 <= i < |pairs| && pairs[i].0 == k && Lookup(Collapse(pairs), k) == Some(pairs[i].1) &&
             forall j :: i < j < |pairs| ==> pairs[j].0 != k;
    assert pairs[i] == (KStr(ToCamelCase(KeyText(vals[i].0))), vals[i].1);
  }

  /** Every key of a snake-cased hash is a string without capital letters, and it has one entry
      per distinct converted key; array elements keep their order. */
  lemma DeepSnakeShape(v: Value)
    ensures v.VHash? ==> forall i :: 0 <= i < |DeepSnake(v).fields| ==>
              DeepSnake(v).fields[i].0.KStr? && NoUpper(DeepSnake(v).fields[i].0.name)
    ensures v.VHash? ==> forall k :: HasKey(DeepSnake(v).fields, k) <==>
              exists i :: 0 <= i < |v.fields| && k == KStr(ToSnakeCase(KeyText(v.fields[i].0)))
    ensures v.VArr? ==> forall i :: 0 <= i < |v.items| ==> DeepSnake(v).items[i] == DeepSnake(v.items[i])
  {
    if v.VHash? {
      var f := v.fields;
      var pairs := SnakeKeys(seq(|f|, i requires 0 <= i < |f| => (f[i].0, DeepSnake(f[i].1))));
      var h := DeepSnake(v).fields;
      assert h == Collapse(pairs);
      forall i | 0 <= i < |h| ensures h[i].0.KStr? && NoUpper(h[i].0.name) {
        assert HasKey(h, h[i].0);
        var j :| 0 <= j < |pairs| && pairs[j].0 == h[i].0;
      }
      forall k ensures HasKey(h, k) <==> exists i :: 0 <= i < |f| && k == KStr(ToSnakeCase(KeyText(f[i].0))) {
        if HasKey(h, k) {
          var j :| 0 <= j < |pairs| && pairs[j].0 == k;
          assert k == KStr(ToSnakeCase(KeyText(f[j].0)));
        }
        if exists i :: 0 <= i < |f| && k == KStr(ToSnakeCase(KeyText(f[i].0))) {
          var i :| 0 <= i < |f| && k == KStr(ToSnakeCase(KeyText(f[i].0)));
          assert pairs[i].0 == k;
        }
      }
    }
  }

  function MapValues(f: Fields, g: Value -> Value): (r: Fields)
    ensures |r| == |f| && Keys(r) == Keys(f)
    ensures forall i :: 0 <= i < |f| ==> r[i] == (f[i].0, g(f[i].1))
  {
    seq(|f|, i requires 0 <= i < |f| => (f[i].0, g(f[i].1)))
  }

  lemma PutMapValues(h: Fields, k: Key, v: Value, g: Value -> Value)
    ensures Put(MapValues(h, g), k, g(v)) == MapValues(Put(h, k, v), g)
  {
    assert Keys(MapValues(h, g)) == Keys(h);
  }

  /** Converting the values first and then merging colliding keys is the same as merging first
      and converting the merged values (`transform_keys` followed by `transform_values`). */
  lemma {:induction false} CollapseMapsValues(acc: Fields, pairs: Fields, g: Value -> Value)
    ensures Merge(MapValues(acc, g), MapValues(pairs, g)) == MapValues(Merge(acc, pairs), g)
    decreases |pairs|
  {
    if pairs != [] {
      var last := pairs[|pairs| - 1];
      var init := pairs[..|pairs| - 1];
      assert MapValues(pairs, g)[..|pairs| - 1] == MapValues(init, g);
      CollapseMapsValues(acc, init, g);
      PutMapValues(Merge(acc, init), last.0, last.1, g);
    }
  }

  // ---------------------------------------------------------------- replies

  /** What `Client#request` hands to a resource: a parsed JSON value, a `GraphSuccessResponse`
      marker, the raw response (`:raw`), or the body text (`:auto` with another content type). */
  datatype Reply =
    | Json(value: Value)
    | SuccessMarker(success: Value)
    | RawResponse(response: HttpResponse)
    | BodyText(text: Option<string>)

  /** `reply['key']` on whatever a resource got back: only a JSON value or a body text answer it,
      the wrapper objects have no `[]` and raise. */
  function ReplyIndex(reply: Reply, key: string): (r: Option<Value>)
    ensures reply.Json? ==> r == Index(reply.value, key)
    ensures reply.SuccessMarker? || reply.RawResponse? ==> r.None?
  {
    match reply
    case Json(v) => Index(v, key)
    case BodyText(t) => if t.Some? then Index(VStr(t.value), key) else None
    case _ => None
  }

  /** The reply is Ruby's `nil`: a JSON `null`, or no body text at all. */
  predicate IsNilReply(reply: Reply) {
    (reply.Json? && reply.value.VNil?) || (reply.BodyText? && reply.text.None?)
  }

  /** `GraphSuccessResponse.new(data)`: `data.nil? || data['success'] || true`. The flag is
      never false or nil. */
  function SuccessResponse(data: Option<Reply>): (r: Result<Value, Failure>)
    ensures r.Success? ==> Truthy(r.value)
    ensures data.None? || IsNilReply(data.value) ==> r == Success(VBool(true))
    ensures data.Some? && data.value.Json? && data.value.value.VHash? ==>
              r == Success(Or(At(data.value.value.fields, KStr("success")), VBool(true)))
    ensures data.Some? && (data.value.SuccessMarker? || data.value.RawResponse?) ==> r.Failure?
  {
    if data.None? || IsNilReply(data.value) then Success(VBool(true))
    else
      match ReplyIndex(data.value, "success")
      case None => Failure(TypeFault("undefined method `[]'"))
      case Some(s) => Success(Or(s, VBool(true)))
  }

  /** `GraphSuccessResponse.new(data)` accepting a success marker as well, by taking its flag. */
  function SuccessResponseFixed(data: Option<Reply>): (r: Result<Value, Failure>)
    ensures data.Some? && data.value.SuccessMarker? ==> r == Success(data.value.success)
    ensures data.Some? && !data.value.SuccessMarker? ==> r == SuccessResponse(data)
    ensures data.None? ==> r == SuccessResponse(data)
  {
    if data.Some? && data.value.SuccessMarker? then Success(data.value.success) else SuccessResponse(data)
  }

  /** A record class whose constructor copies `data[name]` for each of its attribute names. */
  datatype Record = Record(values: seq<(string, Value)>)

  function DecodeRecord(data: Value, names: seq<string>): (r: Option<Record>)
    ensures Indexable(data) <==> r.Some?
    ensures r.Some? ==> (|r.value.values| == |names| &&
              forall i :: 0 <= i < |names| ==> r.value.values[i] == (names[i], Get(data, names[i])))
  {
    if !Indexable(data) then None
    else Some(Record(seq(|names|, i requires 0 <= i < |names| => (names[i], Get(data, names[i])))))
  }

  const MessageTemplateFields: seq<string> := ["id", "name", "category", "language", "status", "components",
    "quality_score_category", "warnings", "previous_category", "library_template_name", "last_updated_time"]
  const ConversationRecordFields: seq<string> :=
    ["id", "phone_number", "phone_number_id", "status", "last_active_at", "kapso", "metadata"]
  const ContactRecordFields: seq<string> := ["wa_id", "phone_number", "profile_name", "metadata"]
  const CallRecordFields: seq<string> := ["id", "direction", "status", "duration_seconds", "started_at",
    "ended_at", "whatsapp_conversation_id", "whatsapp_contact_id"]
  const MessageContactFields: seq<string> := ["input", "wa_id"]
  const MessageInfoFields: seq<string> := ["id", "message_status"]
  const MediaUploadFields: seq<string> := ["id"]
  const MediaMetadataFields: seq<string> := ["messaging_product", "url", "mime_type", "sha256", "file_size", "id"]
  const TemplateCreateFields: seq<string> := ["id", "status", "category"]
  const BusinessProfileFields: seq<string> := ["about", "address", "description", "email", "websites",
    "vertical", "profile_picture_url", "profile_picture_handle"]

  /** The value a decoded record holds for one of its attribute names (`nil` for any other name). */
  function Field(r: Record, name: string): Value {
    FieldIn(r.values, name)
  }

  function FieldIn(values: seq<(string, Value)>, name: string): Value {
    if values == [] then VNil
    else if values[0].0 == name then values[0].1
    else FieldIn(values[1..], name)
  }

  /** A record class built from whatever the resource got back; wrapper objects have no `[]`. */
  function DecodeReplyRecord(reply: Reply, names: seq<string>): (r: Result<Record, Failure>)
    ensures reply.Json? ==> (r.Success? <==> Indexable(reply.value))
    ensures reply.Json? && r.Success? ==> Some(r.value) == DecodeRecord(reply.value, names)
    ensures reply.SuccessMarker? || reply.RawResponse? ==> r.Failure?
  {
    match reply
    case Json(v) => (match DecodeRecord(v, names) case Some(rec) => Success(rec) case None => Failure(TypeFault("undefined method `[]'")))
    case BodyText(t) =>
      if t.None? then Failure(TypeFault("undefined method `[]' for nil"))
      else Success(DecodeRecord(VStr(t.value), names).value)
    case _ => Failure(TypeFault("undefined method `[]'"))
  }

  /** `x&.map { |e| Klass.new(e) } || []` over a JSON value: nil gives [], an array is decoded
      element by element, an empty hash gives [] and anything else raises. */
  function DecodeList(v: Value, names: seq<string>): (r: Option<seq<Record>>)
    ensures v.VNil? ==> r == Some([])
    ensures v.VArr? ==> (r.Some? <==> forall i :: 0 <= i < |v.items| ==> Indexable(v.items[i]))
    ensures v.VArr? && r.Some? ==> (|r.value| == |v.items| &&
              forall i :: 0 <= i < |v.items| ==> Some(r.value[i]) == DecodeRecord(v.items[i], names))
  {
    match v
    case VNil => Some([])
    case VArr(items) =>
      if forall i :: 0 <= i < |items| ==> Indexable(items[i]) then
        Some(seq(|items|, i requires 0 <= i < |items| => DecodeRecord(items[i], names).value))
      else None
    case VHash(f) => if f == [] then Some([]) else None
    case _ => None
  }

  datatype SendMessageResponse = SendMessageResponse(messagingProduct: Value, contacts: seq<Record>, messages: seq<Record>)

  /** `SendMessageResponse.new(data)`: missing contacts or messages give empty lists. */
  function DecodeSendMessage(data: Reply): (r: Result<SendMessageResponse, Failure>)
    ensures data.Json? && data.value.VHash? && At(data.value.fields, KStr("contacts")).VNil? &&
            At(data.value.fields, KStr("messages")).VNil? ==>
              r.Success? && r.value.contacts == [] && r.value.messages == []
    ensures data.Json? && data.value.VHash? ==>
              var f := data.value.fields;
              (r.Success? <==> DecodeList(At(f, KStr("contacts")), MessageContactFields).Some? &&
                               DecodeList(At(f, KStr("messages")), MessageInfoFields).Some?) &&
              (r.Success? ==>
                 r.value.messagingProduct == At(f, KStr("messaging_product")) &&
                 Some(r.value.contacts) == DecodeList(At(f, KStr("contacts")), MessageContactFields) &&
                 Some(r.value.messages) == DecodeList(At(f, KStr("messages")), MessageInfoFields))
    ensures data.SuccessMarker? || data.RawResponse? ==> r.Failure?
  {
    match ReplyIndex(data, "messaging_product")
    case None => Failure(TypeFault("undefined method `[]'"))
    case Some(product) =>
      var contacts := DecodeList(ReplyIndex(data, "contacts").GetOr(VNil), MessageContactFields);
      var messages := DecodeList(ReplyIndex(data, "messages").GetOr(VNil), MessageInfoFields);
      if contacts.None? || messages.None? then Failure(TypeFault("cannot decode the contacts or messages"))
      else Success(SendMessageResponse(product, contacts.value, messages.value))
  }

  datatype GraphPaging = GraphPaging(cursors: Value, nextPage: Value, previousPage: Value)

  /** `GraphPaging.new(data)`: cursors default to `{}`. */
  function DecodePaging(data: Value): (r: Option<GraphPaging>)
    ensures data.VHash? ==> (r.Some? && r.value.cursors == Or(At(data.fields, KStr("cursors")), VHash([])) &&
              r.value.nextPage == At(data.fields, KStr("next")) && r.value.previousPage == At(data.fields, KStr("previous")))
    ensures r.Some? ==> Truthy(r.value.cursors)
  {
    if !Indexable(data) then None
    else Some(GraphPaging(Or(Get(data, "cursors"), VHash([])), Get(data, "next"), Get(data, "previous")))
  }

  /** `GraphPaging#before` and `#after`. */
  function Cursor(p: GraphPaging, which: string): (r: Option<Value>)
    ensures p.cursors.VHash? ==> r == Some(At(p.cursors.fields, KStr(which)))
  {
    Index(p.cursors, which)
  }

  /** The elements of a page: as returned, or decoded records when an item class is given. */
  datatype PageData = RawData(value: Value) | Records(records: seq<Record>)

  datatype PagedResponse = PagedResponse(data: PageData, paging: GraphPaging)

  /** `PagedResponse.new(data, item_class)`. Items are decoded only when an item class is given and
      `data['data']` is an array; otherwise data is `data['data'] || []`. Paging defaults to `{}`. */
  function DecodePaged(reply: Reply, itemClass: Option<seq<string>>): (r: Result<PagedResponse, Failure>)
    ensures reply.Json? && reply.value.VHash? && itemClass.None? && r.Success? ==>
              r.value.data == RawData(Or(At(reply.value.fields, KStr("data")), VArr([])))
    ensures reply.Json? && reply.value.VHash? && At(reply.value.fields, KStr("data")).VNil? &&
            At(reply.value.fields, KStr("paging")).VNil? ==>
              r.Success? && r.value.paging == GraphPaging(VHash([]), VNil, VNil) &&
              (r.value.data == RawData(VArr([])))
    ensures reply.Json? && reply.value.VHash? && itemClass.Some? && r.Success? &&
            At(reply.value.fields, KStr("data")).VArr? ==>
              r.value.data.Records? && |r.value.data.records| == |At(reply.value.fields, KStr("data")).items|
    ensures reply.Json? && reply.value.VHash? ==>
              var f := reply.value.fields;
              var d := At(f, KStr("data"));
              var paging := DecodePaging(Or(At(f, KStr("paging")), VHash([])));
              (r.Success? <==> paging.Some? && (itemClass.Some? && d.VArr? ==> DecodeList(d, itemClass.value).Some?)) &&
              (r.Success? ==>
                 Some(r.value.paging) == paging &&
                 (itemClass.Some? && d.VArr? ==> r.value.data == Records(DecodeList(d, itemClass.value).value)) &&
                 (!(itemClass.Some? && d.VArr?) ==> r.value.data == RawData(Or(d, VArr([])))))
    ensures reply.SuccessMarker? || reply.RawResponse? ==> r.Failure?
    ensures itemClass.None? && r.Success? ==> r.value.data.RawData?
  {
    match ReplyIndex(reply, "data")
    case None => Failure(TypeFault("undefined method `[]'"))
    case Some(d) =>
      var data :=
        if itemClass.Some? && d.VArr? then
          (match DecodeList(d, itemClass.value) case Some(rs) => Some(Records(rs)) case None => None)
        else Some(RawData(Or(d, VArr([]))));
      var paging := DecodePaging(Or(ReplyIndex(reply, "paging").GetOr(VNil), VHash([])));
      if data.None? || paging.None? then Failure(TypeFault("cannot decode the page"))
      else Success(PagedResponse(data.value, paging.value))
  }

  datatype CallConnectResponse = CallConnectResponse(messagingProduct: Value, calls: Value)

  /** `CallConnectResponse.new(data)`: calls default to []. */
  function DecodeCallConnect(data: Reply): (r: Result<CallConnectResponse, Failure>)
    ensures data.Json? && data.value.VHash? ==>
              r == Success(CallConnectResponse(At(data.value.fields, KStr("messaging_product")),
                                               Or(At(data.value.fields, KStr("calls")), VArr([]))))
    ensures r.Success? ==> Truthy(r.value.calls)
    ensures data.SuccessMarker? || data.RawResponse? ==> r.Failure?
  {
    match ReplyIndex(data, "messaging_product")
    case None => Failure(TypeFault("undefined method `[]'"))
    case Some(product) => Success(CallConnectResponse(product, Or(ReplyIndex(data, "calls").GetOr(VNil), VArr([]))))
  }

  datatype CallActionResponse = CallActionResponse(success: Value, messagingProduct: Value)

  /** `CallActionResponse.new(data)`: the success flag of `GraphSuccessResponse`, then
      `data['messaging_product']`, which raises on a nil reply. */
  function DecodeCallAction(data: Reply): (r: Result<CallActionResponse, Failure>)
    ensures r.Success? ==> Truthy(r.value.success)
    ensures IsNilReply(data) ==> r.Failure?
    ensures data.SuccessMarker? || data.RawResponse? ==> r.Failure?
    ensures data.Json? && data.value.VHash? ==>
              r == Success(CallActionResponse(Or(At(data.value.fields, KStr("success")), VBool(true)),
                                              At(data.value.fields, KStr("messaging_product"))))
  {
    var success :- SuccessResponse(Some(data));
    match ReplyIndex(data, "messaging_product")
    case None => Failure(TypeFault("undefined method `[]' for nil"))
    case Some(product) => Success(CallActionResponse(success, product))
  }

  /** `get` of contacts and conversations: a hash reply with a `data` key is unwrapped before the
      record is built. */
  function DecodeEnveloped(reply: Reply, names: seq<string>): (r: Result<Record, Failure>)
    ensures reply.Json? && reply.value.VHash? && HasKey(reply.value.fields, KStr("data")) ==>
              r == DecodeReplyRecord(Json(At(reply.value.fields, KStr("data"))), names)
    ensures !(reply.Json? && reply.value.VHash? && HasKey(reply.value.fields, KStr("data"))) ==>
              r == DecodeReplyRecord(reply, names)
  {
    if reply.Json? && reply.value.VHash? && HasKey(reply.value.fields, KStr("data")) then
      DecodeReplyRecord(Json(At(reply.value.fields, KStr("data"))), names)
    else DecodeReplyRecord(reply, names)
  }

  /** The envelope is taken off exactly one level: a reply `{"data" => x}` decodes as `x` would. */
  lemma EnvelopeUnwrapped(x: Value, names: seq<string>)
    ensures DecodeEnveloped(Json(VHash([(KStr("data"), x)])), names) == DecodeReplyRecord(Json(x), names)
  {
    assert Lookup([(KStr("data"), x)], KStr("data")) == Some(x);
  }
}

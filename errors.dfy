/** The error model of the client: the Graph API error record (`GraphApiError`), its
    classification by HTTP status and error code, the retry hint, and the other exceptions
    the library raises. */
module Errors {
  import opened Wrappers
  import opened Text
  import opened Values

  datatype Category =
    | Authorization | Permission | Parameter | Throttling | Template | Media
    | PhoneRegistration | Integrity | BusinessEligibility | ReengagementWindow
    | WabaConfig | Flow | Synchronization | Server | Unknown

  /** The code table, scanned in the order of its entries; the first entry that lists the
      code gives its category. */
  function TableCategory(c: int): Option<Category> {
    if c == 0 then Some(Authorization)
    else if c == 190 then Some(Authorization)
    else if c == 3 then Some(Permission)
    else if c == 10 then Some(Permission)
    else if 200 <= c <= 219 then Some(Permission)
    else if c == 4 then Some(Throttling)
    else if c == 80007 then Some(Throttling)
    else if c == 130429 then Some(Throttling)
    else if c == 131048 then Some(Throttling)
    else if c == 131056 then Some(Throttling)
    else if c == 33 then Some(Parameter)
    else if c == 100 then Some(Parameter)
    else if c == 130472 then Some(Parameter)
    else if c == 131008 then Some(Parameter)
    else if c == 131009 then Some(Parameter)
    else if c == 131021 then Some(Parameter)
    else if c == 131026 then Some(Parameter)
    else if c == 131051 then Some(Media)
    else if c == 131052 then Some(Media)
    else if c == 131053 then Some(Media)
    else if c == 131000 then Some(Server)
    else if c == 131016 then Some(Server)
    else if c == 131057 then Some(Server)
    else if c == 133004 then Some(Server)
    else if c == 133005 then Some(Server)
    else if c == 368 then Some(Integrity)
    else if c == 130497 then Some(Integrity)
    else if c == 131031 then Some(Integrity)
    else if c == 131047 then Some(ReengagementWindow)
    else if c == 131037 then Some(WabaConfig)
    else if c == 131042 then Some(BusinessEligibility)
    else if c == 131045 then Some(PhoneRegistration)
    else if c == 133000 then Some(PhoneRegistration)
    else if c == 133006 then Some(PhoneRegistration)
    else if c == 133008 then Some(PhoneRegistration)
    else if c == 133009 then Some(PhoneRegistration)
    else if c == 133010 then Some(PhoneRegistration)
    else if c == 133015 then Some(PhoneRegistration)
    else if c == 133016 then Some(PhoneRegistration)
    else if c == 132000 then Some(Template)
    else if c == 132001 then Some(Template)
    else if c == 132005 then Some(Template)
    else if c == 132007 then Some(Template)
    else if c == 132012 then Some(Template)
    else if c == 132015 then Some(Template)
    else if c == 132016 then Some(Template)
    else if c == 132068 then Some(Flow)
    else if c == 132069 then Some(Flow)
    else if c == 134011 then Some(BusinessEligibility)
    else if c == 135000 then Some(Parameter)
    else if c == 2593107 then Some(Synchronization)
    else if c == 2593108 then Some(Synchronization)
    else None
  }
  /** The code table read as one set of codes per category, with no order. */
  predicate InCategory(c: int, cat: Category) {
    match cat
    case Authorization => c in {0, 190}
    case Permission => c in {3, 10} || 200 <= c <= 219
    case Throttling => c in {4, 80007, 130429, 131048, 131056}
    case Parameter => c in {33, 100, 130472, 131008, 131009, 131021, 131026, 135000}
    case Media => c in {131051, 131052, 131053}
    case Server => c in {131000, 131016, 131057, 133004, 133005}
    case Integrity => c in {368, 130497, 131031}
    case ReengagementWindow => c == 131047
    case WabaConfig => c == 131037
    case BusinessEligibility => c in {131042, 134011}
    case PhoneRegistration => c in {131045, 133000, 133006, 133008, 133009, 133010, 133015, 133016}
    case Template => c in {132000, 132001, 132005, 132007, 132012, 132015, 132016}
    case Flow => c in {132068, 132069}
    case Synchronization => c in {2593107, 2593108}
    case Unknown => false
  }
  /** The entries of the table do not overlap, so the scan order does not matter: a code has a
      category in the table exactly when that category's set lists it. */
  lemma TableIsUnordered(c: int, cat: Category)
    ensures TableCategory(c) == Some(cat) <==> InCategory(c, cat)
  {
  }

  const DoNotRetryCodes: seq<int> := [131049, 131050, 131047, 368, 130497, 131031]

  const RefreshTokenCodes: seq<int> := [0, 190]

  const TemporaryCodes: seq<int> := [1, 2, 17, 341]

  /** A code `c` that is an integer listed in `codes` (Ruby's `codes.include?(code)`). */
  predicate Listed(code: Value, codes: seq<int>) {
    code.VInt? && code.i in codes
  }

  /** `categorize_error_code`. The status decides first; only below 400 (and not a 5xx) does the
      code count. A code that is neither an integer nor falsy makes the final range comparison
      raise, which is `None` here. */
  function CategorizeErrorCode(code: Value, status: int): (r: Option<Category>)
    ensures status == 401 ==> r == Some(Authorization)
    ensures status == 403 ==> r == Some(Permission)
    ensures status == 404 ==> r == Some(Parameter)
    ensures status == 429 ==> r == Some(Throttling)
    ensures status >= 500 ==> r == Some(Server)
    ensures 400 <= status < 500 && status !in {401, 403, 429} ==> r == Some(Parameter)
    ensures status < 400 && !Truthy(code) ==> r == Some(Unknown)
    ensures status < 400 && Truthy(code) && !code.VInt? ==> r.None?
    ensures status < 400 && code.VInt? && TableCategory(code.i).Some? ==> r == TableCategory(code.i)
    ensures status < 400 && code.VInt? && TableCategory(code.i).None? ==>
              r == Some(if 200 <= code.i <= 299 then Permission else Unknown)
  {
    if status == 401 then Some(Authorization)
    else if status == 403 then Some(Permission)
    else if status == 404 then Some(Parameter)
    else if status == 429 then Some(Throttling)
    else if status >= 500 then Some(Server)
    else if status >= 400 && status < 500 then Some(Parameter)
    else if !Truthy(code) then Some(Unknown)
    else if !code.VInt? then None
    else match TableCategory(code.i)
      case Some(cat) => Some(cat)
      case None => Some(if 200 <= code.i && code.i <= 299 then Permission else Unknown)
  }

  /** Below 400 an integer code listed in the table gets the category it is listed under, an
      unlisted code in 200..299 gets `Permission`, and any other code `Unknown`. */
  lemma CodeCategoryBelow400(c: int, status: int, cat: Category)
    requires status < 400
    ensures InCategory(c, cat) ==> CategorizeErrorCode(VInt(c), status) == Some(cat)
    ensures (forall k :: !InCategory(c, k)) ==>
              CategorizeErrorCode(VInt(c), status) == Some(if 200 <= c <= 299 then Permission else Unknown)
  {
    TableIsUnordered(c, cat);
    if TableCategory(c).Some? {
      TableIsUnordered(c, TableCategory(c).value);
    }
  }

  /** A few entries of the table, as the category a client sees for a code and a 2xx or 3xx status. */
  lemma SampleCodeCategories(status: int)
    requires status < 400
    ensures CategorizeErrorCode(VInt(131047), status) == Some(ReengagementWindow)
    ensures CategorizeErrorCode(VInt(190), status) == Some(Authorization)
    ensures CategorizeErrorCode(VInt(210), status) == Some(Permission)
    ensures CategorizeErrorCode(VInt(250), status) == Some(Permission)
  {
  }

  /** More entries: the eligibility and synchronisation codes, an unlisted code, and the code
      given as a String (refused) or missing (Unknown). */
  lemma MoreCodeCategories(status: int)
    requires status < 400
    ensures CategorizeErrorCode(VInt(134011), status) == Some(BusinessEligibility)
    ensures CategorizeErrorCode(VInt(2593108), status) == Some(Synchronization)
    ensures CategorizeErrorCode(VInt(999999), status) == Some(Unknown)
    ensures CategorizeErrorCode(VStr("190"), status) == None
    ensures CategorizeErrorCode(VNil, status) == Some(Unknown)
  {
  }

  datatype Action = RetryAfter | DoNotRetry | RefreshToken | Retry | FixAndRetry

  /** `{ action: …, retry_after_ms: … }`; the delay is present only with `RetryAfter`. */
  datatype RetryHint = RetryHint(action: Action, retryAfterMs: Option<int>)

  /** `derive_retry_hint`: the hint of an error built without one. */
  function DeriveRetryHint(code: Value, status: int): (h: RetryHint)
    ensures h.retryAfterMs.None? && h.action != RetryAfter
    ensures h.action == DoNotRetry <==> Listed(code, DoNotRetryCodes)
    ensures h.action == RefreshToken <==> Listed(code, RefreshTokenCodes)
    ensures h.action == Retry <==> !Listed(code, DoNotRetryCodes) && !Listed(code, RefreshTokenCodes) && status >= 500
  {
    if Listed(code, DoNotRetryCodes) then RetryHint(DoNotRetry, None)
    else if Listed(code, RefreshTokenCodes) then RetryHint(RefreshToken, None)
    else if status >= 500 then RetryHint(Retry, None)
    else RetryHint(FixAndRetry, None)
  }

  /** `build_retry_hint_with_delay`: a Retry-After delay wins; without one the cascade is the
      one of `derive_retry_hint`. */
  function BuildRetryHintWithDelay(code: Value, status: int, retryAfterMs: Option<int>): (h: RetryHint)
    ensures retryAfterMs.Some? ==> h == RetryHint(RetryAfter, retryAfterMs)
    ensures retryAfterMs.None? ==> h == DeriveRetryHint(code, status)
  {
    if retryAfterMs.Some? then RetryHint(RetryAfter, retryAfterMs)
    else if Listed(code, DoNotRetryCodes) then RetryHint(DoNotRetry, None)
    else if Listed(code, RefreshTokenCodes) then RetryHint(RefreshToken, None)
    else if status >= 500 then RetryHint(Retry, None)
    else RetryHint(FixAndRetry, None)
  }

  /** What the client needs from the outside world to build errors: `JSON.parse`, `Time.parse`
      (an instant in milliseconds, or None when it raises) and the current time in milliseconds. */
  datatype Env = Env(parse: string -> Parsed, parseTime: string -> Option<int>, nowMs: int)

  /** Ruby's `/^\d+$/`: some line of the text is made of digits only, and is not empty. */
  predicate HasDigitLine(s: string) {
    var lines := SplitFields(s, '\n');
    exists i :: 0 <= i < |lines| && AllDigits(lines[i])
  }

  predicate AllDigits(s: string) {
    |s| > 0 && forall i :: 0 <= i < |s| ==> IsDigit(s[i])
  }

  /** Ruby's `String#to_i`: leading white space, an optional sign, then digits, where a single `_`
      may stand between two digits; 0 when no digit follows. */
  function ToI(s: string): int {
    var t := DropSpaces(s);
    if |t| > 0 && t[0] == '-' then -(DigitRun(t[1..], 0, false) as int)
    else if |t| > 0 && t[0] == '+' then DigitRun(t[1..], 0, false)
    else DigitRun(t, 0, false)
  }

  function DropSpaces(s: string): (t: string)
    ensures |s| > 0 && !IsSpace(s[0]) ==> t == s
  {
    if |s| > 0 && IsSpace(s[0]) then DropSpaces(s[1..]) else s
  }

  /** Reads digits from the front of `s` on top of the value `acc` read so far; `started` says
      whether a digit has been read, after which one `_` before a digit is skipped. */
  function DigitRun(s: string, acc: nat, started: bool): nat
    decreases |s|
  {
    if |s| > 0 && IsDigit(s[0]) then DigitRun(s[1..], acc * 10 + DigitValue(s[0]), true)
    else if started && |s| > 1 && s[0] == '_' && IsDigit(s[1]) then DigitRun(s[1..], acc, true)
    else acc
  }

  lemma {:induction false} DigitRunOfDigits(s: string, acc: nat, started: bool)
    requires forall i :: 0 <= i < |s| ==> IsDigit(s[i])
    ensures DigitRun(s, acc, started) == DigitsFold(s, acc)
    decreases |s|
  {
    if |s| > 0 {
      DigitRunOfDigits(s[1..], acc * 10 + DigitValue(s[0]), true);
    }
  }

  /** `parse_retry_after`: the delay in milliseconds a Retry-After header asks for. Digits
      mean seconds; anything else is tried as a date, and a date in the past means 0. */
  function ParseRetryAfter(header: Option<string>, env: Env): (r: Option<int>)
    ensures header.None? ==> r.None?
    ensures header.Some? && AllDigits(header.value) ==> r == Some(DigitsValue(header.value) * 1000)
    ensures header.Some? && HasDigitLine(header.value) ==> r == Some(ToI(header.value) * 1000)
    ensures header.Some? && !HasDigitLine(header.value) ==>
              r == match env.parseTime(header.value)
                   case None => None
                   case Some(t) => Some(if t - env.nowMs > 0 then t - env.nowMs else 0)
    ensures r.Some? && header.Some? && !HasDigitLine(header.value) ==> r.value >= 0
  {
    match header
    case None => None
    case Some(h) =>
      AllDigitsValue(h);
      if HasDigitLine(h) then Some(ToI(h) * 1000)
      else
        match env.parseTime(h)
        case None => None
        case Some(t) => Some(if t - env.nowMs > 0 then t - env.nowMs else 0)
  }

  /** `^` and `$` anchor at line breaks, so a header with a line of digits is read by `to_i` from
      its start: a first line of digits asks for that many seconds whatever follows, and a first
      line that starts with a letter asks for none, although a later line is all digits. */
  lemma DigitFirstLine(a: string, b: string, env: Env)
    requires AllDigits(a) && '\n' !in a && '\n' !in b
    ensures ParseRetryAfter(Some(a + ['\n'] + b), env) == Some(DigitsValue(a) * 1000)
  {
    DigitLineHeader(a, b, env);
    var h := a + ['\n'] + b;
    assert DropSpaces(h) == h by { assert h[0] == a[0]; }
    assert h == a + (['\n'] + b);
    DigitRunPrefix(a, ['\n'] + b, 0, false);
  }

  lemma DigitLineAfterText(a: string, b: string, env: Env)
    requires AllDigits(b) && '\n' !in a && '\n' !in b
    requires |a| > 0 && !IsSpace(a[0]) && !IsDigit(a[0]) && a[0] != '-' && a[0] != '+'
    ensures ParseRetryAfter(Some(a + ['\n'] + b), env) == Some(0)
  {
    DigitLineHeader(a, b, env);
    NoLeadingDigit(a + ['\n'] + b);
  }

  /** `to_i` stops at the first character after the digits that is neither a digit nor `_`. */
  lemma {:induction false} DigitRunPrefix(a: string, rest: string, acc: nat, started: bool)
    requires forall i :: 0 <= i < |a| ==> IsDigit(a[i])
    requires |rest| > 0 && !IsDigit(rest[0]) && rest[0] != '_'
    ensures DigitRun(a + rest, acc, started) == DigitsFold(a, acc)
    decreases |a|
  {
    if a == [] {
      assert a + rest == rest;
    } else {
      assert (a + rest)[1..] == a[1..] + rest;
      DigitRunPrefix(a[1..], rest, acc * 10 + DigitValue(a[0]), true);
    }
  }

  /** `to_i` reads 0 from a text that starts with a letter. */
  lemma NoLeadingDigit(h: string)
    requires |h| > 0 && !IsSpace(h[0]) && !IsDigit(h[0]) && h[0] != '-' && h[0] != '+'
    ensures ToI(h) == 0
  {
    assert DropSpaces(h) == h;
  }

  lemma DigitLineHeader(a: string, b: string, env: Env)
    requires '\n' !in a && '\n' !in b && (AllDigits(a) || AllDigits(b))
    ensures ParseRetryAfter(Some(a + ['\n'] + b), env) == Some(ToI(a + ['\n'] + b) * 1000)
  {
    SplitFieldsCons(a, '\n', b);
    SplitFieldsNoSep(b, '\n');
    var lines := SplitFields(a + ['\n'] + b, '\n');
    assert lines == [a, b];
    assert AllDigits(lines[0]) || AllDigits(lines[1]);
  }

  /** A header of digits alone is one line of digits, read as its decimal value. */
  lemma AllDigitsValue(h: string)
    ensures AllDigits(h) ==> HasDigitLine(h) && ToI(h) == DigitsValue(h)
  {
    if AllDigits(h) {
      NoLineBreak(h);
      assert SplitFields(h, '\n')[0] == h;
      assert !IsSpace(h[0]);
      assert DropSpaces(h) == h;
      assert h[0] != '-' && h[0] != '+';
      DigitRunOfDigits(h, 0, false);
    }
  }

  lemma NoLineBreak(h: string)
    requires forall i :: 0 <= i < |h| ==> IsDigit(h[i])
    ensures SplitFields(h, '\n') == [h]
  {
    SplitFieldsNoSep(h, '\n');
  }

  /** The arguments of `GraphApiError.new`; `VNil` and `None` stand for an argument not given. */
  datatype ErrorArgs = ErrorArgs(
    message: Value, httpStatus: int, code: Value, errorType: Value, details: Value,
    errorSubcode: Value, fbtraceId: Value, errorData: Value, category: Option<Category>,
    retryHint: Option<RetryHint>, rawResponse: Value, retryAfter: Value)

  function Args(status: int): ErrorArgs {
    ErrorArgs(VNil, status, VNil, VNil, VNil, VNil, VNil, VNil, None, None, VNil, VNil)
  }

  /** A `GraphApiError`: set once at construction and never changed. */
  datatype ApiError = ApiError(
    message: string, httpStatus: int, code: Value, errorType: Value, details: Value,
    errorSubcode: Value, fbtraceId: Value, errorData: Value, category: Category,
    retryHint: RetryHint, rawResponse: Value, retryAfter: Value)

  /** The exceptions the library raises. `TypeFault` stands for the `NoMethodError`, `TypeError`
      or comparison `ArgumentError` Ruby raises when the code meets a value of a shape it does not
      expect. */
  datatype Failure =
    | ArgumentError(message: string)
    | ConfigurationError(message: string)
    | ProxyRequired(feature: string)
    | GraphApi(error: ApiError)
    | TypeFault(message: string)

  /** The message of `KapsoProxyRequiredError`. */
  function ProxyRequiredMessage(feature: string): (m: string)
    ensures StartsWith(m, feature + " is only available via the Kapso Proxy.")
  {
    feature + " is only available via the Kapso Proxy. " +
    "Set base_url to https://app.kapso.ai/api/meta and provide kapso_api_key. " +
    "Create a free account at https://kapso.ai/"
  }

  const FailedPrefix := "Meta API request failed with status "

  /** `build_error_message`: the default message of an error built without one. */
  function BuildErrorMessage(status: int, details: Value, rawResponse: Value): (m: string)
    ensures StartsWith(m, FailedPrefix + IntToString(status))
    ensures Truthy(details) ==> m == FailedPrefix + IntToString(status) + ": " + Render(details)
    ensures !Truthy(details) && rawResponse.VStr? && !IsBlankText(rawResponse.s) ==>
              m == FailedPrefix + IntToString(status) + ": " + rawResponse.s
    ensures !Truthy(details) && !(rawResponse.VStr? && !IsBlankText(rawResponse.s)) ==>
              m == FailedPrefix + IntToString(status)
  {
    var head := FailedPrefix + IntToString(status);
    if Truthy(details) then head + ": " + Render(details)
    else if rawResponse.VStr? && !IsBlankText(rawResponse.s) then head + ": " + rawResponse.s
    else head
  }

  /** `build_default_message`, which reads the raw response text instead of the stored response. */
  function BuildDefaultMessage(status: int, details: Value, rawText: Option<string>): (m: string)
    ensures m == BuildErrorMessage(status, details, if rawText.Some? then VStr(rawText.value) else VNil)
  {
    var head := FailedPrefix + IntToString(status);
    if Truthy(details) then head + ": " + Render(details)
    else if rawText.Some? && !IsBlankText(rawText.value) then head + ": " + rawText.value
    else head
  }

  /** `GraphApiError#initialize`. Code defaults to the status and type to "GraphApiError"; the
      category is computed only when none is supplied, and the hint only when none is supplied,
      from the code and the status alone; the message defaults to `build_error_message`. */
  function NewApiError(a: ErrorArgs): (r: Result<ApiError, Failure>)
    ensures r.Success? ==> r.value.httpStatus == a.httpStatus
    ensures r.Success? ==> r.value.code == Or(a.code, VInt(a.httpStatus))
    ensures r.Success? ==> r.value.errorType == Or(a.errorType, VStr("GraphApiError"))
    ensures a.category.Some? ==> r.Success? && r.value.category == a.category.value
    ensures a.category.None? ==>
              match CategorizeErrorCode(Or(a.code, VInt(a.httpStatus)), a.httpStatus)
              case None => r.Failure? && r.error.TypeFault?
              case Some(cat) => r.Success? && r.value.category == cat
    ensures r.Success? && a.retryHint.Some? ==> r.value.retryHint == a.retryHint.value
    ensures r.Success? && a.retryHint.None? ==> r.value.retryHint == DeriveRetryHint(r.value.code, a.httpStatus)
    ensures r.Success? && Truthy(a.message) ==> r.value.message == Render(a.message)
    ensures r.Success? && !Truthy(a.message) ==>
              r.value.message == BuildErrorMessage(a.httpStatus, a.details, a.rawResponse)
    ensures r.Success? ==>
              r.value.details == a.details && r.value.errorSubcode == a.errorSubcode &&
              r.value.fbtraceId == a.fbtraceId && r.value.errorData == a.errorData &&
              r.value.rawResponse == a.rawResponse && r.value.retryAfter == a.retryAfter
  {
    var code := Or(a.code, VInt(a.httpStatus));
    var category := if a.category.Some? then a.category else CategorizeErrorCode(code, a.httpStatus);
    match category
    case None => Failure(TypeFault("comparison of " + Render(code) + " with 200 failed"))
    case Some(cat) =>
      var hint := if a.retryHint.Some? then a.retryHint.value else DeriveRetryHint(code, a.httpStatus);
      var message := if Truthy(a.message) then Render(a.message)
                     else BuildErrorMessage(a.httpStatus, a.details, a.rawResponse);
      Success(ApiError(message, a.httpStatus, code, Or(a.errorType, VStr("GraphApiError")), a.details,
                       a.errorSubcode, a.fbtraceId, a.errorData, cat, hint, a.rawResponse, a.retryAfter))
  }

  /** The `retry_after:` argument is stored and nothing more: it never changes the hint, the
      category or the message. */
  lemma RetryAfterNeverAffectsHint(a: ErrorArgs, x: Value)
    ensures NewApiError(a).Success? <==> NewApiError(a.(retryAfter := x)).Success?
    ensures NewApiError(a).Success? ==>
              NewApiError(a.(retryAfter := x)).value == NewApiError(a).value.(retryAfter := x)
  {
  }

  predicate AuthError(e: ApiError) { e.category == Authorization }

  predicate RateLimit(e: ApiError) { e.category == Throttling }

  predicate Temporary(e: ApiError) {
    e.category in {Throttling, Server, Synchronization} || e.httpStatus >= 500 || Listed(e.code, TemporaryCodes)
  }

  predicate TemplateError(e: ApiError) { e.category == Template }

  predicate RequiresTokenRefresh(e: ApiError) {
    e.category == Authorization || Listed(e.code, RefreshTokenCodes)
  }

  predicate Retryable(e: ApiError) { e.retryHint.action != DoNotRetry }

  /** For an error built without a hint, the predicates agree with the hint: it is retryable
      exactly when its code is not a do-not-retry code, a refresh-token hint means it requires a
      token refresh, and a retry hint means it is temporary. */
  lemma DerivedHintAgreesWithPredicates(a: ErrorArgs)
    requires a.retryHint.None? && NewApiError(a).Success?
    ensures var e := NewApiError(a).value;
      (Retryable(e) <==> !Listed(e.code, DoNotRetryCodes)) &&
      (e.retryHint.action == RefreshToken ==> RequiresTokenRefresh(e)) &&
      (e.retryHint.action == Retry ==> Temporary(e))
  {
  }

  /** The codes that must not be retried, apart from 131047, 368, 130497 and 131031, are not in
      the table, so below 400 they are `Unknown`; 131047 is both a re-engagement error and a
      do-not-retry code. */
  lemma DoNotRetryCodesCategories(status: int)
    requires status < 400
    ensures CategorizeErrorCode(VInt(131047), status) == Some(ReengagementWindow)
    ensures DeriveRetryHint(VInt(131047), status).action == DoNotRetry
    ensures CategorizeErrorCode(VInt(131049), status) == Some(Unknown)
    ensures CategorizeErrorCode(VInt(131050), status) == Some(Unknown)
    ensures CategorizeErrorCode(VInt(368), status) == Some(Integrity)
  {
  }

  /** The parts of an HTTP response the client reads: status, the `content-type` and
      `retry-after` headers, and the body text. */
  datatype HttpResponse = HttpResponse(status: int, contentType: Option<string>, retryAfter: Option<string>, body: Option<string>)

  /** `from_response` turns a body that is not a Hash into one: a String is parsed (a parser
      error gives `{}`), anything else gives `{}`. What a String parses to is used as it is. */
  function NormalizeBody(body: Value, parse: string -> Parsed): (b: Value)
    ensures body.VHash? ==> b == body
    ensures body.VStr? && parse(body.s).ParseError? ==> b == VHash([])
    ensures body.VStr? && parse(body.s).Parsed? ==> b == parse(body.s).value
    ensures !body.VHash? && !body.VStr? ==> b == VHash([])
  {
    match body
    case VHash(_) => body
    case VStr(s) => (match parse(s) case Parsed(v) => v case ParseError(_) => VHash([]))
    case _ => VHash([])
  }

  /** The category `from_response` gives an error that has no Graph API envelope. */
  function StatusCategory(status: int): (c: Category)
    ensures status >= 500 ==> c == Server
    ensures status != 0 ==> Some(c) == CategorizeErrorCode(VNil, status)
    ensures status < 400 ==> c == Unknown
  {
    if status >= 500 then Server
    else match CategorizeErrorCode(VNil, status) case Some(cat) => cat case None => Unknown
  }

  /** `error_payload.dig('error_data', 'details')`: nil stops the walk, a Hash is looked into,
      anything else raises. */
  function DigDetails(payload: Fields): (r: Option<Value>)
    ensures At(payload, KStr("error_data")).VNil? ==> r == Some(VNil)
    ensures At(payload, KStr("error_data")).VHash? ==> r == Some(At(At(payload, KStr("error_data")).fields, KStr("details")))
    ensures r.None? <==> !At(payload, KStr("error_data")).VNil? && !At(payload, KStr("error_data")).VHash?
  {
    match At(payload, KStr("error_data"))
    case VNil => Some(VNil)
    case VHash(d) => Some(At(d, KStr("details")))
    case _ => None
  }

  predicate Indexable(v: Value) { Index(v, "").Some? }

  /** The Graph API envelope branch: fields come from `body['error']`, whatever that is. */
  function EnvelopeError(status: int, payload: Value, body: Value, retryAfterMs: Option<int>): (r: Result<ApiError, Failure>)
    ensures !Indexable(payload) ==> r.Failure?
    ensures r.Success? <==>
              Indexable(payload) && (payload.VHash? ==> DigDetails(payload.fields).Some?) &&
              CategorizeErrorCode(Or(Get(payload, "code"), VInt(status)), status).Some?
    ensures r.Success? ==>
              var code := Or(Get(payload, "code"), VInt(status));
              r.value.code == code && r.value.httpStatus == status &&
              r.value.errorType == Or(Get(payload, "type"), VStr("GraphApiError")) &&
              CategorizeErrorCode(code, status) == Some(r.value.category) &&
              r.value.retryHint == BuildRetryHintWithDelay(code, status, retryAfterMs) &&
              r.value.rawResponse == body &&
              r.value.errorSubcode == Get(payload, "error_subcode") &&
              r.value.fbtraceId == Get(payload, "fbtrace_id") &&
              r.value.errorData == Get(payload, "error_data")
    ensures r.Success? && Truthy(Get(payload, "message")) ==> r.value.message == Render(Get(payload, "message"))
    ensures r.Success? && !payload.VHash? ==> r.value.details == VNil
    ensures r.Success? && payload.VHash? ==> Some(r.value.details) == DigDetails(payload.fields)
    ensures r.Success? && !Truthy(Get(payload, "message")) ==>
              r.value.message == BuildErrorMessage(status, r.value.details, body)
  {
    if !Indexable(payload) then Failure(TypeFault("undefined method `[]' for the error payload"))
    else
      var code := Or(Get(payload, "code"), VInt(status));
      var details := if payload.VHash? then DigDetails(payload.fields) else Some(VNil);
      match details
      case None => Failure(TypeFault("error_data does not have #dig method"))
      case Some(d) =>
        NewApiError(ErrorArgs(
          Get(payload, "message"), status, code, Or(Get(payload, "type"), VStr("GraphApiError")), d,
          Get(payload, "error_subcode"), Get(payload, "fbtrace_id"), Get(payload, "error_data"),
          None, Some(BuildRetryHintWithDelay(code, status, retryAfterMs)), body, VNil))
  }

  /** The Kapso proxy branch: `{ "error": "<message>" }` keeps its message. */
  function ProxyError(status: int, body: Value, retryAfterMs: Option<int>): (r: Result<ApiError, Failure>)
    ensures r.Success?
    ensures r.value.code == VInt(status) && r.value.httpStatus == status
    ensures r.value.category == StatusCategory(status)
    ensures r.value.retryHint == BuildRetryHintWithDelay(VInt(status), status, retryAfterMs)
    ensures r.value.rawResponse == body
    ensures body.VHash? && At(body.fields, KStr("error")).VStr? ==> r.value.message == At(body.fields, KStr("error")).s
  {
    var message := if body.VHash? then At(body.fields, KStr("error")) else VNil;
    var a := ErrorArgs(message, status, VInt(status), VNil, VNil, VNil, VNil, VNil,
                       Some(StatusCategory(status)), Some(BuildRetryHintWithDelay(VInt(status), status, retryAfterMs)), body, VNil);
    NewApiError(a)
  }

  /** The branch for a body without an `error` key. */
  function GenericError(status: int, body: Value, rawText: Option<string>, retryAfterMs: Option<int>): (r: Result<ApiError, Failure>)
    ensures r.Success?
    ensures r.value.code == VInt(status) && r.value.httpStatus == status
    ensures r.value.category == StatusCategory(status)
    ensures r.value.message == BuildDefaultMessage(status, VNil, rawText)
    ensures r.value.retryHint == BuildRetryHintWithDelay(VInt(status), status, retryAfterMs)
    ensures r.value.rawResponse == if rawText.Some? then VStr(rawText.value) else body
  {
    var a := ErrorArgs(VStr(BuildDefaultMessage(status, VNil, rawText)), status, VInt(status), VNil, VNil, VNil, VNil, VNil,
                       Some(StatusCategory(status)), Some(BuildRetryHintWithDelay(VInt(status), status, retryAfterMs)),
                       if rawText.Some? then VStr(rawText.value) else body, VNil);
    NewApiError(a)
  }

  predicate HasErrorKey(b: Value) { b.VHash? && HasKey(b.fields, KStr("error")) }

  predicate HasStringError(b: Value) { HasErrorKey(b) && At(b.fields, KStr("error")).VStr? }

  /** `GraphApiError.from_response` as written. The second branch (a String `error`, the Kapso
      proxy format) tests a condition the first branch has already taken, so it is never chosen. */
  function FromResponse(resp: HttpResponse, body: Value, rawText: Option<string>, env: Env): (r: Result<ApiError, Failure>)
    ensures var b := NormalizeBody(body, env.parse);
      (!b.VHash? ==> r.Failure?) &&
      (HasErrorKey(b) ==> r == EnvelopeError(resp.status, At(b.fields, KStr("error")), b, ParseRetryAfter(resp.retryAfter, env))) &&
      (b.VHash? && !HasErrorKey(b) ==> r == GenericError(resp.status, b, rawText, ParseRetryAfter(resp.retryAfter, env)))
  {
    var ms := ParseRetryAfter(resp.retryAfter, env);
    var b := NormalizeBody(body, env.parse);
    if !b.VHash? then Failure(TypeFault("undefined method `key?'"))
    else if HasKey(b.fields, KStr("error")) then EnvelopeError(resp.status, At(b.fields, KStr("error")), b, ms)
    else if HasStringError(b) then ProxyError(resp.status, b, ms)
    else GenericError(resp.status, b, rawText, ms)
  }

  /** `from_response` with the proxy test made first, as its comment intends: a String `error`
      keeps its message, every other body is handled as before. */
  function FromResponseFixed(resp: HttpResponse, body: Value, rawText: Option<string>, env: Env): (r: Result<ApiError, Failure>)
  {
    var ms := ParseRetryAfter(resp.retryAfter, env);
    var b := NormalizeBody(body, env.parse);
    if !b.VHash? then Failure(TypeFault("undefined method `key?'"))
    else if HasKey(b.fields, KStr("error")) && At(b.fields, KStr("error")).VStr? then ProxyError(resp.status, b, ms)
    else if HasKey(b.fields, KStr("error")) then EnvelopeError(resp.status, At(b.fields, KStr("error")), b, ms)
    else GenericError(resp.status, b, rawText, ms)
  }

  lemma NotContainsChar(s: string, sub: string, k: nat)
    requires k < |sub| && sub[k] !in s
    ensures !Contains(s, sub)
  {
  }

  /** As written, a proxy error `{ "error": "<text>" }` loses its text: the String is indexed as if
      it were the envelope Hash, so the message is the word "message" when the text contains it
      and the default status message otherwise. From 400 up no comparison can fail. */
  lemma StringErrorLosesMessage(resp: HttpResponse, s: string, rawText: Option<string>, env: Env)
    ensures var r := FromResponse(resp, VHash([(KStr("error"), VStr(s))]), rawText, env);
      (resp.status >= 400 ==> r.Success?) &&
      (r.Success? ==> r.value.message == if Contains(s, "message") then "message" else FailedPrefix + IntToString(resp.status))
  {
    var body := VHash([(KStr("error"), VStr(s))]);
    assert HasKey(body.fields, KStr("error")) by { assert body.fields[0].0 == KStr("error"); }
    assert At(body.fields, KStr("error")) == VStr(s);
  }

  /** The input that shows it: a 401 from the proxy saying "Unauthorized" reports
      "Meta API request failed with status 401". */
  lemma ProxyUnauthorizedExample(env: Env)
    ensures var r := FromResponse(HttpResponse(401, None, None, None), VHash([(KStr("error"), VStr("Unauthorized"))]), None, env);
      r.Success? && r.value.message == "Meta API request failed with status 401"
  {
    NotContainsChar("Unauthorized", "message", 0);
    StringErrorLosesMessage(HttpResponse(401, None, None, None), "Unauthorized", None, env);
    Status401Message();
  }

  lemma Status401Message()
    ensures FailedPrefix + IntToString(401) == "Meta API request failed with status 401"
  {
    assert NatToString(4) == "4";
    assert NatToString(40) == "40";
    assert IntToString(401) == "401";
  }

  /** With the branches in the intended order, the proxy's text is the error message, the code is
      the status and the category comes from the status. */
  lemma FixedKeepsProxyMessage(resp: HttpResponse, s: string, rawText: Option<string>, env: Env)
    ensures var r := FromResponseFixed(resp, VHash([(KStr("error"), VStr(s))]), rawText, env);
      r.Success? && r.value.message == s && r.value.code == VInt(resp.status) &&
      r.value.category == StatusCategory(resp.status)
  {
    var body := VHash([(KStr("error"), VStr(s))]);
    assert HasKey(body.fields, KStr("error")) by { assert body.fields[0].0 == KStr("error"); }
    assert At(body.fields, KStr("error")) == VStr(s);
  }

  /** The correction changes nothing for a body whose `error` is not a String. */
  lemma FixedAgreesOtherwise(resp: HttpResponse, body: Value, rawText: Option<string>, env: Env)
    requires !HasStringError(NormalizeBody(body, env.parse))
    ensures FromResponseFixed(resp, body, rawText, env) == FromResponse(resp, body, rawText, env)
  {
  }
}

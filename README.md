# kapso-client-ruby, modelled in Dafny

`kapso-client-ruby` is a Ruby client for the WhatsApp Business Cloud API (Meta's Graph API). It can
also run through the Kapso proxy, which adds conversations, contacts, call history and message
history on top. This project models the client's core and proves properties of that model:

- construction of a `Client`, its headers and URLs, query flattening, response dispatch and the
  transport retry loop;
- the error model: the code table, categories, retry hints, `Retry-After` parsing and
  `GraphApiError.from_response`;
- the response wrappers and the snake_case/camelCase key conversion;
- every resource: messages, media, templates, phone numbers, calls, conversations, contacts and
  flows;
- the global `Configuration` object.

A resource operation returns the request it would hand to the client: verb, path, query, JSON
payload and response type. It returns no network result. Ruby values are modelled as `Values.Value`:
nil, booleans, integers, strings, symbols, arrays, and hashes as ordered lists of pairs. A hash key
is a symbol or a string, because the source uses both. Ruby's exceptions become `Failure` values:
`ArgumentError`, `ConfigurationError`, a `GraphApiError`, `KapsoProxyRequiredError`, and the
`TypeError`/`NoMethodError` a value of the wrong shape raises.

Most of the code is expressions and guard clauses, so it becomes functions with contracts. Where the
source works step by step, the model does too:

- `normalize_component`'s `each` loop and `flatten_query`'s accumulation are methods with loop
  invariants.
- The retry loop of `request` is a method over the sequence of transport outcomes.
- `Configuration` and the memoised module state are classes with assignable fields.

Payload contracts use `Values.Holds(h, m)`: the hash `h` has distinct keys, and each key reads as the
map `m` says.

The model follows the code where the gem's own documentation or tests say otherwise:

- The client defaults to Graph API version `v24.0`, while the configuration and the tests use
  `v23.0`.
- A 400 status is categorised as `parameter`.
- Error categories that the tests name but the code does not define are absent.

## Model

| member | source | states |
|---|---|---|
| KapsoClientRuby.Configuration.constructor | lib/kapso_client_ruby.rb:49-59 | A new configuration holds the defaults: debug off, timeouts 60 s and 10 s, 3 retries 1 s apart, the Graph API host, version v23.0, no credentials |
| KapsoClientRuby.DefaultsHaveNoCredentials | lib/kapso_client_ruby.rb:49-67 | A default configuration is neither `valid?` nor `kapso_proxy?` |
| KapsoClientRuby.SettingsPredicates | lib/kapso_client_ruby.rb:61-67 | `kapso_proxy?` implies `valid?`; without a key, or without a base URL, there is no proxy mode |
| KapsoClientRuby.Library.constructor | lib/kapso_client_ruby.rb:36-38 | The module starts with no memoised configuration |
| KapsoClientRuby.Library.GetConfiguration | lib/kapso_client_ruby.rb:36-38 | The first call creates a fresh default configuration and stores it; later calls return the same object |
| KapsoClientRuby.Library.ResetConfiguration | lib/kapso_client_ruby.rb:40-42 | A fresh default configuration replaces the stored one |
| KapsoClient.NormalizeBaseUrl | lib/kapso_client_ruby/client.rb:289-293 | A URL with a line that starts with `http://` or `https://` (the first line or a later one) only loses one trailing `/`; a URL with no such line gets `https://` in front first |
| KapsoClient.LaterLineScheme | lib/kapso_client_ruby/client.rb:291 | A scheme at the start of a later line is enough for `^https?://`, whatever the first line holds |
| KapsoClient.SingleLineScheme | lib/kapso_client_ruby/client.rb:291 | On a single line, the `^https?://` test is exactly a prefix test |
| KapsoClient.BaseUrlExamples | lib/kapso_client_ruby/client.rb:289-293 | `graph.facebook.com/` normalises to `https://graph.facebook.com` |
| KapsoClient.SchemeUrlExamples | lib/kapso_client_ruby/client.rb:289-293 | `http://localhost:3000/` keeps its scheme and loses its slash; the empty string becomes `https:/` |
| KapsoClient.NewClient | lib/kapso_client_ruby/client.rb:17-53 | Construction fails with the ConfigurationError exactly when both credentials are missing (both together are allowed). The credentials, the normalised URL, the version (v24.0 by default) and proxy mode come from the arguments; only debug, timeouts and retries fall back to the configuration |
| KapsoClient.ConfigurationNeverSuppliesCredentials | lib/kapso_client_ruby/client.rb:21-34 | Success, credentials, URL, version and proxy mode are the same under any two global configurations |
| KapsoClient.ProxyTestsDisagree | lib/kapso_client_ruby/client.rb:295-297 | The client's `kapso.ai` test and the configuration's key-plus-`kapso` test disagree in both directions, with a witness for each |
| KapsoClient.RequireProxy | lib/kapso_client_ruby/resources/calls.rb:166-170 | Passes exactly in proxy mode; otherwise fails with the proxy-required error of that feature |
| KapsoClient.RequireText | lib/kapso_client_ruby/resources/conversations.rb:36 | Passes exactly for a non-blank string; nil or blank fails with the given message; any other value fails in `strip` |
| KapsoClient.BuildHeaders | lib/kapso_client_ruby/client.rb:173-189 | `Authorization: Bearer <t>` exactly when a token is set, `X-API-Key` exactly when a key is set, the JSON content type unless the caller names Content-Type; then the caller's non-nil headers take precedence |
| KapsoClient.MergeOverOwn | lib/kapso_client_ruby/client.rb:188 | After the merge a header reads as the caller's non-nil value, or as the client's own one when the caller gives none |
| KapsoClient.FlattenQuery | lib/kapso_client_ruby/client.rb:211-226 | The loop yields the recursive flattening: nested hashes prefix their keys, arrays repeat their key once per element (an element is pushed as it is, a hash included, as the source does), nil scalars vanish, entry order is kept |
| KapsoClient.NestedKeysArePrefixed | lib/kapso_client_ruby/client.rb:215-219 | Every pair produced under a nested hash has the outer key and `[` in front |
| KapsoClient.FlatHashInOrder | lib/kapso_client_ruby/client.rb:211-226 | A hash of non-nil scalars flattens to its own entries, in order, with the keys as text |
| KapsoClient.FlattenExample | lib/kapso_client_ruby/client.rb:211-226 | A concrete nested hash with an array and a nil gives `a[b]`, repeated `c` and nothing for the nil |
| KapsoClient.BuildUrl | lib/kapso_client_ruby/client.rb:191-209 | The address is `<base>/<version>/` plus the path without one leading `/`; a non-empty query of snake-cased, flattened pairs follows `?`, or `&` when the address already holds a `?`; no query otherwise |
| KapsoClient.LeadingSlashIgnored | lib/kapso_client_ruby/client.rb:193 | A path and the same path with a leading `/` give the same URL |
| KapsoClient.JsonCall | lib/kapso_client_ruby/resources/messages.rb:26-27 | A resource call carries exactly the given verb, path, query and body, no extra headers and the JSON response type |
| KapsoClient.ParseJsonResponse | lib/kapso_client_ruby/client.rb:252-266 | A blank body gives the success marker; parsed JSON is returned snake-cased; a parse error is a GraphApiError with the same status and the raw body |
| KapsoClient.InvalidJsonLooksLikePermission | lib/kapso_client_ruby/client.rb:259-264 | The invalid-JSON error of a 2xx response is categorised as permission with the `fix_and_retry` hint, because its code defaults to that status |
| KapsoClient.BlankReplyRaises | lib/kapso_client_ruby/client.rb:253 | As written, a blank 2xx body gives a success marker that `GraphSuccessResponse.new` cannot read |
| KapsoClient.BlankReplyAccepted | lib/kapso_client_ruby/client.rb:253 | With the corrected wrapper, the same reply reads as success `true` |
| KapsoClient.HandleErrorResponse | lib/kapso_client_ruby/client.rb:268-280 | Always an error, from `from_response` as written: a body with an `error` key raises the decoded envelope, a Hash without one the generic status error, and a blank or unparsable body the generic error on `{}` |
| KapsoClient.ErrorBody | lib/kapso_client_ruby/client.rb:272-279 | `json_body \|\| {}`: `{}` for a blank or unparsable body, the parsed value when it is truthy |
| KapsoClient.ProxyErrorTextLost | lib/kapso_client_ruby/client.rb:228-231 | A proxy 401 `{"error": "Unauthorized"}` reaches the caller as "Meta API request failed with status 401" |
| KapsoClient.HandleResponse | lib/kapso_client_ruby/client.rb:228-250 | A non-2xx status raises `handle_error_response`'s error (the as-written `from_response`) before decoding. `:json` parses, `:raw` returns the response. `:auto` parses a JSON content type, gives a marker for 204 and the body otherwise |
| KapsoClient.EnvelopeDecodes | lib/kapso_client_ruby/errors.rb:128-145 | A Graph API envelope with an Integer code decodes to an error keeping that code and the response's status |
| KapsoClient.ErrorEnvelopeSurfaces | lib/kapso_client_ruby/client.rb:268-280 | An error response whose body is a Hash envelope with an Integer code raises a GraphApiError with that code and the response's status |
| KapsoClient.Fetch | lib/kapso_client_ruby/client.rb:144-159 | A 2xx response is returned unchanged; any other fails with exactly `handle_error_response`'s error, from the as-written `from_response` |
| KapsoClient.NetworkError | lib/kapso_client_ruby/client.rb:121-125 | The network error has status 0, category server and the `Network error: …` message |
| KapsoClient.NetworkErrorAsksForTokenRefresh | lib/kapso_client_ruby/client.rb:121-125 | Its code defaults to 0, so its hint is `refresh_token` and it requires a token refresh although it is a server error |
| KapsoClient.Transmit | lib/kapso_client_ruby/client.rb:106-120 | Every attempt but the last failed retryably; the k-th delay is `retry_delay × (k+1)`; at most `max_retries + 1` attempts unless only one was made; a failed last attempt means the retries ran out or it was not retryable |
| KapsoClient.Request | lib/kapso_client_ruby/client.rb:93-128 | The request uses the call's verb and body, the built URL and the `build_headers` headers. A delivered final attempt is handled by `handle_response` whatever its status; otherwise the result is the network error |
| Errors.TableIsUnordered | lib/kapso_client_ruby/errors.rb:25-79 | The table's entries do not overlap: a code's table category is `cat` exactly when `cat`'s list holds it |
| Errors.CategorizeErrorCode | lib/kapso_client_ruby/errors.rb:193-215 | 401, 403, 404, 429, ≥500, then any other 4xx take their category from the status whatever the code; below 400 the code decides; a non-integer truthy code raises |
| Errors.CodeCategoryBelow400 | lib/kapso_client_ruby/errors.rb:201-214 | Below 400 a listed code gets its listed category, an unlisted code in 200..299 permission, and any other code unknown |
| Errors.SampleCodeCategories | lib/kapso_client_ruby/errors.rb:25-79 | 131047 is reengagement_window, 190 authorization, 210 and 250 permission, for a 2xx or 3xx status |
| Errors.MoreCodeCategories | lib/kapso_client_ruby/errors.rb:25-79 | Listed eligibility and synchronisation codes; an unlisted code is unknown; a String code raises; a nil code is unknown |
| Errors.DeriveRetryHint | lib/kapso_client_ruby/errors.rb:290-300 | `do_not_retry` for the do-not-retry codes, then `refresh_token` for 0 and 190, then `retry` from 500, otherwise `fix_and_retry` |
| Errors.BuildRetryHintWithDelay | lib/kapso_client_ruby/errors.rb:217-229 | A Retry-After delay gives `retry_after` with that delay; otherwise the same cascade as the derived hint |
| Errors.ParseRetryAfter | lib/kapso_client_ruby/errors.rb:175-191 | A nil header gives nil; a header with a line of digits gives `to_i` × 1000 (all digits: the value × 1000); with no such line a parsable date gives max(0, date − now) in ms and an unparsable one nil |
| Errors.DigitFirstLine | lib/kapso_client_ruby/errors.rb:178-179 | A first line of digits followed by another line asks for those seconds |
| Errors.DigitLineAfterText | lib/kapso_client_ruby/errors.rb:178-179 | A first line starting with a letter and a later line of digits asks for 0 ms, through `to_i` |
| Errors.DigitRunPrefix | lib/kapso_client_ruby/errors.rb:179 | `to_i` reads the leading digits and stops at the first other character |
| Errors.AllDigitsValue | lib/kapso_client_ruby/errors.rb:180-181 | An all-digit header has a digit line, and `to_i` reads its decimal value |
| Errors.ProxyRequiredMessage | lib/kapso_client_ruby/errors.rb:316-324 | The message starts with `<feature> is only available via the Kapso Proxy.` |
| Errors.BuildErrorMessage | lib/kapso_client_ruby/errors.rb:302-310 | The prefix and status, then `: details` when the details are truthy, else `: raw text` when that is not blank |
| Errors.BuildDefaultMessage | lib/kapso_client_ruby/errors.rb:231-239 | The same default message, built from the raw response text |
| Errors.NewApiError | lib/kapso_client_ruby/errors.rb:90-107 | Code defaults to the status and type to `GraphApiError`. Category is computed only when none is given, and the hint only when none is given. The message defaults to the built one |
| Errors.RetryAfterNeverAffectsHint | lib/kapso_client_ruby/errors.rb:100-102 | Changing the `retry_after:` argument changes nothing but the stored delay |
| Errors.DerivedHintAgreesWithPredicates | lib/kapso_client_ruby/errors.rb:242-266 | For a derived hint: `retryable?` ⇔ the code is not a do-not-retry code; a refresh hint implies `requires_token_refresh?`; a retry hint implies `temporary?` |
| Errors.DoNotRetryCodesCategories | lib/kapso_client_ruby/errors.rb:81 | 131049 and 131050 are unknown, 368 is integrity, 131047 is both reengagement_window and `do_not_retry` |
| Errors.NormalizeBody | lib/kapso_client_ruby/errors.rb:115-125 | A Hash is kept, a String is parsed (a parse error gives `{}`), anything else gives `{}` |
| Errors.StatusCategory | lib/kapso_client_ruby/errors.rb:159 | Server from 500, unknown below 400, otherwise the status-based category |
| Errors.DigDetails | lib/kapso_client_ruby/errors.rb:132 | `dig('error_data', 'details')`: nil stops, a Hash is looked into, anything else raises |
| Errors.EnvelopeError | lib/kapso_client_ruby/errors.rb:128-145 | Succeeds iff the payload answers `[]`, a Hash payload's `error_data` is nil or a Hash, and the code categorises. It then holds the envelope's type, subcode, trace id and error data, the details `dig` finds, the code defaulting to the status and the hint from code, status and delay; the message is the envelope's, else `build_error_message` |
| Errors.ProxyError | lib/kapso_client_ruby/errors.rb:146-156 | The proxy text is the message, the code is the status, the category comes from the status |
| Errors.GenericError | lib/kapso_client_ruby/errors.rb:157-170 | The default status message with the raw text, the code is the status, the category comes from the status, the raw response is the text or the body |
| Errors.FromResponse | lib/kapso_client_ruby/errors.rb:110-171 | As written: any body with an `error` key takes the envelope branch; any other takes the generic branch; the proxy branch is never chosen |
| Errors.StringErrorLosesMessage | lib/kapso_client_ruby/errors.rb:128-146 | As written, for `{error: "<text>"}` the message is `message` when the text contains that word, and the default status message otherwise |
| Errors.ProxyUnauthorizedExample | lib/kapso_client_ruby/errors.rb:128-146 | A proxy 401 `{error: "Unauthorized"}` reports `Meta API request failed with status 401` |
| Errors.FixedKeepsProxyMessage | lib/kapso_client_ruby/errors.rb:146-156 | Corrected: the proxy text is the message, the code the status, the category from the status |
| Errors.FixedAgreesOtherwise | lib/kapso_client_ruby/errors.rb:128-170 | The correction changes nothing for any body whose `error` is not a String |
| Types.ToSnakeCase | lib/kapso_client_ruby/types.rb:233-235 | The result has no capital letter |
| Types.SnakeCaseIdentity | lib/kapso_client_ruby/types.rb:234 | A string with no capital and no line starting with `_` is unchanged |
| Types.SnakeCaseDropsLeadingUnderscore | lib/kapso_client_ruby/types.rb:234 | A string starting with `_`, otherwise free of capitals, loses exactly that underscore |
| Types.ToCamelCase | lib/kapso_client_ruby/types.rb:228-230 | The result starts with the first `_`-separated part unchanged; the full round trip is `SnakeCamelRoundTrip` |
| Types.SnakeOfCapitalized | lib/kapso_client_ruby/types.rb:234 | A capitalised lower-case word becomes `_word` under the snake conversion before its final step |
| Types.SplitFieldsJoin | lib/kapso_client_ruby/types.rb:229 | Splitting words joined by `c`, none containing `c`, gives the words back |
| Types.SnakeCamelRoundTrip | lib/kapso_client_ruby/types.rb:228-235 | For non-empty lower-case words joined by single `_`, `to_snake_case(to_camel_case(s)) == s` |
| Types.CamelOfJoin | lib/kapso_client_ruby/types.rb:228-230 | For lower-case words joined by `_`, `to_camel_case` keeps the first word and capitalises the others |
| Types.SnakeOfCamelWords | lib/kapso_client_ruby/types.rb:233-235 | `to_snake_case` of such a camel-cased word list gives the words joined by `_` |
| Types.Collapse | lib/kapso_client_ruby/types.rb:240 | Distinct keys and the same key set; each key holds the value of the last pair carrying it, and keys keep the order of their first occurrence |
| Types.CollapsedValue | lib/kapso_client_ruby/types.rb:240 | A collapsed key holds the value of the last pair with that key |
| Types.SnakeKeys | lib/kapso_client_ruby/types.rb:240 | One pair per pair: each key becomes a string key holding `to_snake_case` of its text, and each value is kept |
| Types.CamelKeys | lib/kapso_client_ruby/types.rb:253 | One pair per pair: each key becomes a string key holding `to_camel_case` of its text, and each value is kept |
| Types.DeepSnake | lib/kapso_client_ruby/types.rb:238-248 | An array keeps its length; a hash gets distinct keys and no more entries than it had; a scalar is unchanged |
| Types.DeepCamel | lib/kapso_client_ruby/types.rb:251-261 | The same walk with camel-cased keys: arrays keep their length, hashes get distinct keys, scalars are unchanged |
| Types.DeepSnakeShape | lib/kapso_client_ruby/types.rb:238-248 | Every hash key of the result is a string without capitals; a key is present exactly when some original key converts to it; array elements are each converted |
| Types.DeepSnakeValue | lib/kapso_client_ruby/types.rb:238-248 | Each hash entry holds the recursively converted value of the last original entry whose key snake-cases to its key |
| Types.DeepCamelValue | lib/kapso_client_ruby/types.rb:251-261 | Each hash entry holds the recursively converted value of the last original entry whose key camel-cases to its key |
| Types.DeepSnakeFields | lib/kapso_client_ruby/types.rb:240-241 | The converted hash is the collapse of the snake-cased keys over the converted values |
| Types.DeepCamelFields | lib/kapso_client_ruby/types.rb:253-254 | The converted hash is the collapse of the camel-cased keys over the converted values |
| Types.CollapseMapsValues | lib/kapso_client_ruby/types.rb:240-241 | Converting values before or after merging colliding keys gives the same hash |
| Types.ReplyIndex | lib/kapso_client_ruby/types.rb:24-28 | Only JSON values and body text answer `[]`; the success marker and a raw response raise |
| Types.SuccessResponse | lib/kapso_client_ruby/types.rb:138-140 | As written: the flag is never false or nil. Nil data gives true, a hash's `success` or else true; a success marker or raw response raises |
| Types.SuccessResponseFixed | lib/kapso_client_ruby/types.rb:138-140 | Corrected: a success marker gives its own flag; every other reply reads as before |
| Types.DecodeRecord | lib/kapso_client_ruby/types.rb:169-177 | A record decodes exactly from a value that answers `[]`, holding `data[name]` for each attribute |
| Types.DecodeReplyRecord | lib/kapso_client_ruby/types.rb:152-161 | A record from a JSON reply is decoded as its value; the wrapper replies raise |
| Types.DecodeList | lib/kapso_client_ruby/types.rb:24-28 | nil gives an empty list; an array decodes exactly when every element answers `[]`, one record per element in order |
| Types.DecodeSendMessage | lib/kapso_client_ruby/types.rb:21-29 | On a Hash reply: succeeds iff both lists decode; then the product, and contacts and messages decoded element by element (`[]` when missing, so either may be missing alone); the wrapper replies raise |
| Types.DecodePaging | lib/kapso_client_ruby/types.rb:106-110 | Cursors default to `{}`; next and previous are copied |
| Types.Cursor | lib/kapso_client_ruby/types.rb:112-118 | `before`/`after` read the cursors hash, nil when absent |
| Types.DecodePaged | lib/kapso_client_ruby/types.rb:121-132 | On a Hash reply: succeeds iff the paging decodes and, with an item class and an Array `data`, every item decodes; then the records are the decoded items, otherwise the data is `data['data'] \|\| []`, and the paging is that of `paging \|\| {}`; the wrapper replies raise |
| Types.DecodeCallConnect | lib/kapso_client_ruby/types.rb:209-216 | Calls default to an empty list |
| Types.DecodeCallAction | lib/kapso_client_ruby/types.rb:218-225 | Through the as-written `GraphSuccessResponse.new`: a truthy success flag and the product; a nil reply and the success marker raise |
| Types.DecodeEnveloped | lib/kapso_client_ruby/resources/contacts.rb:43-47 | A hash reply with `data` is unwrapped before the record is built; others are decoded as they are |
| Types.EnvelopeUnwrapped | lib/kapso_client_ruby/resources/conversations.rb:42-46 | `{data: x}` decodes exactly as `x` |
| Values.Put | lib/kapso_client_ruby/resources/messages.rb:615-621 | `h[k] = v`: an existing key keeps its place and takes `v`; a new key goes at the end |
| Values.PutLookup | lib/kapso_client_ruby/resources/messages.rb:615-621 | After `h[k] = v`, `k` reads `v` and every other key reads as before |
| Values.PutKeys | lib/kapso_client_ruby/resources/messages.rb:615-621 | `h[k] = v` keeps the keys distinct and adds exactly `k` |
| Values.Merge | lib/kapso_client_ruby/client.rb:188 | The keys of the result are the keys of both hashes; distinct keys stay distinct; the length is at most the sum |
| Values.MergeLookup | lib/kapso_client_ruby/client.rb:188 | After a merge a key reads as the last pair of the other hash carrying it, or as before |
| Values.MergeLookupAll | lib/kapso_client_ruby/client.rb:188 | Every key reads as `MergeLookup` says |
| Values.LatestIsLast | lib/kapso_client_ruby/types.rb:240 | The value found for a key is that of its last pair |
| Values.MergeOrder | lib/kapso_client_ruby/types.rb:240 | Storing pairs into `{}` lists keys in the order of their first occurrence |
| Values.Rank | lib/kapso_client_ruby/types.rb:240 | The first position of a key, below the length iff the key occurs |
| Values.Compact | lib/kapso_client_ruby/resources/calls.rb:108 | `compact` keeps exactly the non-nil entries, in order |
| Values.CompactDropsNil | lib/kapso_client_ruby/resources/contacts.rb:126 | A key whose every entry is nil is absent after `compact` |
| Values.CompactAppend | lib/kapso_client_ruby/resources/calls.rb:108 | `compact` of two lists joined is the two compacted lists joined |
| Values.Dual | lib/kapso_client_ruby/resources/messages.rb:298 | `x[:k] \|\| x['k']` on a hash; a non-hash raises |
| Values.JoinPieces | lib/kapso_client_ruby/resources/flows.rb:82 | `Array#join`'s text of each item: an inner array joined in place with the same separator, any other item by its `to_s` |
| Values.ArrayJoinFlat | lib/kapso_client_ruby/resources/flows.rb:82 | Without inner arrays every item is written by its `to_s` |
| Values.ArrayJoinFlattens | lib/kapso_client_ruby/resources/flows.rb:82 | `join` flattens: a non-empty inner array reads as its items in its place |
| Values.ToArray | lib/kapso_client_ruby/resources/templates.rb:266 | `Array(x)`: nil gives none, an array its items, any other non-hash value itself |
| Values.IsEmpty | lib/kapso_client_ruby/resources/templates.rb:249 | `empty?` agrees with `length == 0` whenever a length exists; no answer otherwise |
| Values.Index | lib/kapso_client_ruby/errors.rb:129-131 | `x['k']`: a hash lookup; a String yields the key when it contains it and nil otherwise; nil, booleans, integers and arrays raise |
| Values.Length | lib/kapso_client_ruby/resources/messages.rb:299 | `length` of strings, arrays and hashes |
| Values.NilOrBlank | lib/kapso_client_ruby/resources/templates.rb:246 | `nil? \|\| strip.empty?`: true for nil and blank strings, false for other strings, raises otherwise |
| Text.Downcase | lib/kapso_client_ruby/types.rb:234 | The length is kept and each character is mapped by the ASCII lower-case mapping |
| Text.Upcase | lib/kapso_client_ruby/resources/phone_numbers.rb:78-83 | The length is kept and each character is mapped by the ASCII upper-case mapping |
| Text.Capitalize | lib/kapso_client_ruby/types.rb:229 | The first character upcased, the rest downcased |
| Text.NatToString | lib/kapso_client_ruby/errors.rb:231-239 | The decimal spelling of a number: non-empty, digits only |
| Text.Chomp | lib/kapso_client_ruby/client.rb:292 | The suffix removed once when present, the string unchanged otherwise |
| Messages.BaseFields | lib/kapso_client_ruby/resources/messages.rb:608-623 | The base hash: product `whatsapp`, recipient type, `to`, type, a context exactly when a message id is given, callback data exactly when given |
| Messages.BuildBasePayload | lib/kapso_client_ruby/resources/messages.rb:600-624 | Fails exactly when the recipient type is not `individual` or `group`; otherwise the base hash |
| Messages.Envelope | lib/kapso_client_ruby/resources/messages.rb:608-623 | Key by key: product, recipient, recipient type, type and content are as given; context and callback data present exactly when given |
| Messages.Send | lib/kapso_client_ruby/resources/messages.rb:12-29 | The recipient check comes first, the content next; success is a POST to `<id>/messages` whose payload is the envelope with the content under the type's key |
| Messages.BuildMediaObject | lib/kapso_client_ruby/resources/messages.rb:626-643 | A hash is copied; a word-character string becomes `{id:}`, another string `{link:}`; anything else fails; a truthy caption is stored on top |
| Messages.TextObject | lib/kapso_client_ruby/resources/messages.rb:15-23 | `{body:}`, with `preview_url` whenever it is not nil, false included |
| Messages.SendText | lib/kapso_client_ruby/resources/messages.rb:12-29 | Fails exactly on a bad recipient type; otherwise a text message with that object |
| Messages.SendImage | lib/kapso_client_ruby/resources/messages.rb:33-50 | Fails exactly on a bad recipient or a media value that is neither hash nor string; the recipient error comes first |
| Messages.SendVideo | lib/kapso_client_ruby/resources/messages.rb:103-119 | As for images, under `video` |
| Messages.SendSticker | lib/kapso_client_ruby/resources/messages.rb:122-137 | An individual recipient, no caption; fails exactly on a bad media value |
| Messages.AudioObject | lib/kapso_client_ruby/resources/messages.rb:67-72 | The media object, with `voice: true` exactly when `voice` is truthy; every other key unchanged |
| Messages.SendAudio | lib/kapso_client_ruby/resources/messages.rb:57-79 | An individual audio message with that object |
| Messages.DocumentObject | lib/kapso_client_ruby/resources/messages.rb:92-93 | The media object with its caption, `filename` exactly when truthy; every other key unchanged |
| Messages.SendDocument | lib/kapso_client_ruby/resources/messages.rb:82-99 | An individual document message with that object |
| Messages.LocationObject | lib/kapso_client_ruby/resources/messages.rb:143-157 | Latitude and longitude, name and address exactly when truthy |
| Messages.SendLocation | lib/kapso_client_ruby/resources/messages.rb:140-162 | A location message with that object |
| Messages.SendContacts | lib/kapso_client_ruby/resources/messages.rb:165-180 | The caller's contacts as the `contacts` content |
| Messages.TemplateObject | lib/kapso_client_ruby/resources/messages.rb:183-204 | Name, `language: {code:}`, components exactly when truthy |
| Messages.SendTemplate | lib/kapso_client_ruby/resources/messages.rb:183-204 | A template message with that object |
| Messages.ReactionObject | lib/kapso_client_ruby/resources/messages.rb:207-225 | The message id, the emoji exactly when truthy |
| Messages.SendReaction | lib/kapso_client_ruby/resources/messages.rb:207-225 | A reaction message with that object |
| Messages.ValidateTextHeader | lib/kapso_client_ruby/resources/messages.rb:730-740 | Passes exactly for a non-blank `text` (symbol or string key) of at most 60 characters; each failure has its message |
| Messages.ValidateMediaHeader | lib/kapso_client_ruby/resources/messages.rb:743-758 | Passes exactly when the sub-hash named by the type exists and has a truthy `id` or `link` |
| Messages.ValidateInteractiveHeader | lib/kapso_client_ruby/resources/messages.rb:709-727 | A type is required and must be text, image, video or document; then the text or media rules decide |
| Messages.AcceptedHeader | lib/kapso_client_ruby/resources/messages.rb:709-758 | An accepted header has one of the four types and passes that type's rules |
| Messages.CheckRequiredText | lib/kapso_client_ruby/resources/messages.rb:654-660 | nil or blank is refused, then a length over the bound |
| Messages.CheckFooter | lib/kapso_client_ruby/resources/messages.rb:680-683 | Only a truthy footer over 60 characters is refused |
| Messages.ValidateCtaUrlParams | lib/kapso_client_ruby/resources/messages.rb:652-684 | Body ≤ 1024, display text ≤ 20, a URL with an http or https scheme in any case, footer ≤ 60, checked in that order |
| Messages.SchemeIgnoresCase | lib/kapso_client_ruby/resources/messages.rb:676-678 | `HTTPS://…` is accepted, `ftp://…` refused |
| Messages.ValidateCatalogMessageParams | lib/kapso_client_ruby/resources/messages.rb:687-706 | Body ≤ 1024, a thumbnail id that is not blank as text, footer ≤ 60 |
| Messages.FooterObject | lib/kapso_client_ruby/resources/messages.rb:269-271 | A String footer becomes `{text:}`; anything else is sent as given |
| Messages.Interactive | lib/kapso_client_ruby/resources/messages.rb:254-271 | `type`, `body` and `action`; `header` and `footer` exactly when given |
| Messages.SendInteractiveButtons | lib/kapso_client_ruby/resources/messages.rb:234-278 | More than 3 buttons fails first, then none; a given header must pass the header rules; otherwise the button message |
| Messages.SectionRows | lib/kapso_client_ruby/resources/messages.rb:298-299 | A section's row count from `:rows`, then `'rows'`, a missing key counting 0 |
| Messages.ValidateListHeader | lib/kapso_client_ruby/resources/messages.rb:311-317 | Only an untyped or `text` header passes; a typed one must pass the text header rules |
| Messages.CheckListBody | lib/kapso_client_ruby/resources/messages.rb:292-294 | Passes exactly up to 4096 characters |
| Messages.CheckRows | lib/kapso_client_ruby/resources/messages.rb:297-308 | Passes exactly for a total of 1 to 10, with one message for none and one for too many. An Array totals its sections' rows; a Hash raises unless it is empty, which totals 0; a String totals its `String#sum` checksum; any other value raises |
| Messages.StringSectionsChecksum | lib/kapso_client_ruby/resources/messages.rb:297-304 | A String `"ab"` totals 195, so it is refused as more than 10 rows |
| Text.StringSum | lib/kapso_client_ruby/resources/messages.rb:297 | `String#sum`: a checksum below 2^16 |
| Messages.SendInteractiveList | lib/kapso_client_ruby/resources/messages.rb:288-348 | Body, rows and header checks in that order, then the list message |
| Messages.ListBodyBoundary | lib/kapso_client_ruby/resources/messages.rb:292-294 | 4096 characters pass, 4097 fail |
| Messages.FlowAction | lib/kapso_client_ruby/resources/messages.rb:365-381 | Version `3`, token, id, cta, action and mode always; the caller's payload when truthy; for `navigate` with a screen, the screen stored into that payload or into a new one |
| Messages.FixedFlowAction | lib/kapso_client_ruby/resources/messages.rb:365-375 | Version `3`, token, id, cta, action and mode with distinct keys, and `flow_action_payload` exactly when the caller's payload is truthy |
| Messages.StoreScreen | lib/kapso_client_ruby/resources/messages.rb:378-381 | `||= {}` reads back the stored payload or nil, and storing the screen replaces just that entry |
| Messages.FlowObject | lib/kapso_client_ruby/resources/messages.rb:383-391 | `type: flow` and the action; header, body and footer exactly when given |
| Messages.SendFlow | lib/kapso_client_ruby/resources/messages.rb:351-398 | The base payload, then the flow action, then the object |
| Messages.SendInteractiveCtaUrl | lib/kapso_client_ruby/resources/messages.rb:408-448 | The parameter checks first; a given header is checked after the base payload |
| Messages.SendInteractiveCatalogMessage | lib/kapso_client_ruby/resources/messages.rb:456-490 | The parameter checks, then the catalog message with the thumbnail product |
| Messages.SendInteractiveLocationRequest | lib/kapso_client_ruby/resources/messages.rb:498-532 | No parameter checks; a given header must pass the header rules |
| Messages.MarkRead | lib/kapso_client_ruby/resources/messages.rb:535-545 | A POST of exactly product, `status: read` and the message id |
| Messages.SendTypingIndicator | lib/kapso_client_ruby/resources/messages.rb:548-560 | A POST of the fixed typing-indicator payload to an individual |
| Messages.Query | lib/kapso_client_ruby/resources/messages.rb:563-583 | Proxy only; a GET of the non-nil filters with `until_time` sent as `until` |
| Messages.ListByConversation | lib/kapso_client_ruby/resources/messages.rb:586-596 | Proxy only; a GET of `<id>/messages` whose query is exactly the compacted phone number, conversation and paging filters; direction and status are never sent; a truthy conversation id always is |
| Messages.ConversationFilters | lib/kapso_client_ruby/resources/messages.rb:567-578 | `query` with direction, status, since and until left nil sends the same pairs as compacting the remaining six filters |
| Media.ValidateMediaType | lib/kapso_client_ruby/resources/media.rb:168-173 | Passes exactly when `type.to_s` is one of the five media types |
| Media.AcceptedMediaTypes | lib/kapso_client_ruby/resources/media.rb:168-173 | A string or symbol passes exactly by its text |
| Media.FallbackMatchesMediaTypes | lib/kapso_client_ruby/resources/media.rb:189-202 | The accepted types have their own content type (image/jpeg, audio/mpeg, video/mp4, application/pdf, image/webp); everything else is application/octet-stream |
| Media.ContentType | lib/kapso_client_ruby/resources/media.rb:175-203 | The MIME lookup of the file name, then of the path, then the media type's fallback |
| Media.UploadForm | lib/kapso_client_ruby/resources/media.rb:18-41 | The form holds the product, the type and the file part, in that order, then the strategy when given |
| Media.Upload | lib/kapso_client_ruby/resources/media.rb:13-54 | The type is checked first, then the file; then a POST of the form to `<phone_number_id>/media` with the multipart content type and no query, answered as JSON |
| Media.UploadHeaders | lib/kapso_client_ruby/resources/media.rb:44-47 | With `build_headers` on top, the upload's multipart content type replaces the JSON one, and the client's token and API key are still sent |
| Media.MediaRequest | lib/kapso_client_ruby/resources/media.rb:57-84 | Through the proxy a nil phone number id is refused; the id is in the query exactly when truthy |
| Media.Get | lib/kapso_client_ruby/resources/media.rb:57-69 | A GET of the media id with those rules |
| Media.Delete | lib/kapso_client_ruby/resources/media.rb:72-84 | A DELETE of the media id with those rules |
| Media.PhoneNumberOptionalOutsideProxy | lib/kapso_client_ruby/resources/media.rb:59-64 | Outside the proxy a nil id is accepted, and `false` passes but is not sent |
| Media.UseAuth | lib/kapso_client_ruby/resources/media.rb:94-104 | `:auto` ⇔ the URL contains `graph.facebook.com`, `:always` true, `:never` false, anything else an error |
| Media.AutoAuthorizesGraph | lib/kapso_client_ruby/resources/media.rb:95-97 | Under `:auto` a Graph API address is authorised |
| Media.AutoSkipsCdnAuth | lib/kapso_client_ruby/resources/media.rb:95-97 | Under `:auto` a CDN address is not |
| Media.Plan | lib/kapso_client_ruby/resources/media.rb:87-104 | The metadata request, the URL from its reply and the authorisation choice, each failure in that order |
| Media.Outcome | lib/kapso_client_ruby/resources/media.rb:110-135 | An authorised non-2xx transfer raises `handle_error_response`'s error, from the as-written `from_response`; an unauthorised one raises `Failed to download media: <status>`; otherwise `as:` picks binary, response or Base64, any other is an error |
| Media.DownloadHeaders | lib/kapso_client_ruby/resources/media.rb:106-114 | As written, both transfers carry the client's credentials, authorised or not |
| Media.DownloadHeadersFixed | lib/kapso_client_ruby/resources/media.rb:106-114 | Corrected: an unauthorised transfer carries only the caller's headers; an authorised one the usual headers |
| Templates.FirstInvalid | lib/kapso_client_ruby/resources/templates.rb:258-262 | The first index that is not a component; none exactly when all are |
| Templates.RequireComponents | lib/kapso_client_ruby/resources/templates.rb:249 | Passes exactly for a non-empty value that has `empty?` |
| Templates.ValidateTemplateData | lib/kapso_client_ruby/resources/templates.rb:245-263 | Passes exactly for non-blank name, language and category, non-empty components, a category upcasing to a known one, and components all Hashes with a truthy `:type`; each failure in source order |
| Templates.ValidationExamples | lib/kapso_client_ruby/resources/templates.rb:253 | A lower-case category is accepted |
| Templates.StringTypeKeyRefused | lib/kapso_client_ruby/resources/templates.rb:259-260 | A `'type'` string key is refused with the index-0 message |
| Templates.ComponentPairs | lib/kapso_client_ruby/resources/templates.rb:272 | A Hash's entries or an Array's items, keys as text; nothing else has `each` |
| Templates.Normalized | lib/kapso_client_ruby/resources/templates.rb:269-281 | A string-keyed Hash with distinct keys |
| Templates.NormalizeComponent | lib/kapso_client_ruby/resources/templates.rb:269-274 | The loop result is exactly the normalised component |
| Templates.MergeDistinct | lib/kapso_client_ruby/resources/templates.rb:271-272 | Storing distinct pairs into `{}` gives them back |
| Templates.NormalizeKeepsValues | lib/kapso_client_ruby/resources/templates.rb:269-274 | With distinct key texts, entries, order and values are kept, only the keys become strings |
| Templates.NormalizeIdempotent | lib/kapso_client_ruby/resources/templates.rb:269-274 | Normalising twice equals normalising once |
| Templates.NormalizeAll | lib/kapso_client_ruby/resources/templates.rb:266 | Every item normalised, in order; fails exactly when one cannot be |
| Templates.NormalizeComponents | lib/kapso_client_ruby/resources/templates.rb:265-267 | An Array's items normalised one by one; for a Hash, item `i` is the normalisation of its `i`-th `[key, value]` pair; other values have no `map` |
| Templates.List | lib/kapso_client_ruby/resources/templates.rb:11-29 | A GET of the templates with the non-nil filters |
| Templates.Get | lib/kapso_client_ruby/resources/templates.rb:32-39 | A GET of one template, `fields` exactly when truthy |
| Templates.Create | lib/kapso_client_ruby/resources/templates.rb:42-59 | Succeeds exactly when validation does. The POST holds the name, the language, the category as spelled and the normalised components; `allow_category_change` whenever not nil; the TTL when truthy |
| Templates.CreateKeepsSpelling | lib/kapso_client_ruby/resources/templates.rb:46-54 | `utility` is sent as `utility`, and `allow_category_change: false` is sent |
| Templates.Update | lib/kapso_client_ruby/resources/templates.rb:62-72 | No request when neither category nor components is truthy; otherwise a POST holding exactly the truthy ones |
| Templates.Delete | lib/kapso_client_ruby/resources/templates.rb:75-93 | By id when truthy; else by name with language and HSM id when truthy; else the error |
| Templates.DeleteByIdIgnoresName | lib/kapso_client_ruby/resources/templates.rb:78-80 | With an id, name, language and HSM id change nothing |
| Templates.BuildTextComponent | lib/kapso_client_ruby/resources/templates.rb:96-100 | BODY and the text, then the example exactly when truthy |
| Templates.UpcaseValue | lib/kapso_client_ruby/resources/templates.rb:104 | A String upcases to a String, a Symbol to a Symbol; nothing else has `upcase` |
| Templates.MediaExample | lib/kapso_client_ruby/resources/templates.rb:109-114 | `{header_handle: [x]}` for the IMAGE, VIDEO or DOCUMENT argument when truthy; nothing for a Symbol format |
| Templates.BuildHeaderComponent | lib/kapso_client_ruby/resources/templates.rb:102-119 | HEADER with the upcased format; the text for TEXT; the media handle otherwise; a truthy `example` replaces it |
| Templates.ImageHeaderHandle | lib/kapso_client_ruby/resources/templates.rb:104-110 | An image header has format `IMAGE` and carries `{header_handle: [image]}` as its example |
| Templates.ExampleReplacesHandle | lib/kapso_client_ruby/resources/templates.rb:109-117 | A truthy `example` replaces the image handle |
| Templates.SymbolHeaderHasNoHandle | lib/kapso_client_ruby/resources/templates.rb:104-115 | A Symbol type gives a Symbol format and matches no media branch, so no example is stored |
| Templates.BuildFooterComponent | lib/kapso_client_ruby/resources/templates.rb:121-126 | FOOTER, then text and code expiration exactly when truthy |
| Templates.BuildButtonsComponent | lib/kapso_client_ruby/resources/templates.rb:128-133 | BUTTONS with the normalised buttons |
| Templates.ButtonCandidates | lib/kapso_client_ruby/resources/templates.rb:140-155 | The fields each button type takes, with the argument each comes from |
| Templates.TruthyEntries | lib/kapso_client_ruby/resources/templates.rb:140-155 | An entry is kept exactly when its value is truthy |
| Templates.TruthyEntriesAppend | lib/kapso_client_ruby/resources/templates.rb:140-155 | The kept entries stay in order: the filter distributes over concatenation |
| Templates.BuildButton | lib/kapso_client_ruby/resources/templates.rb:135-158 | The upcased type first, then exactly the truthy fields its type takes; an unnamed type gets only its type |
| Templates.UrlButton | lib/kapso_client_ruby/resources/templates.rb:143-145 | A URL button takes text and URL, nothing else |
| Templates.UnknownTypeButton | lib/kapso_client_ruby/resources/templates.rb:135-158 | An unknown type gets only its type |
| Templates.SymbolTypeButton | lib/kapso_client_ruby/resources/templates.rb:138-140 | A Symbol type matches no branch: only its type |
| Templates.OtpButtonBuilt | lib/kapso_client_ruby/resources/templates.rb:178-180 | The OTP button: its type, and the OTP type when truthy |
| Templates.OtpButtonNormalized | lib/kapso_client_ruby/resources/templates.rb:178-180 | Normalising it turns its keys into strings and keeps its values |
| Templates.AuthenticationButtons | lib/kapso_client_ruby/resources/templates.rb:178-180 | BUTTONS holding that one OTP button |
| Templates.AuthenticationComponentsShape | lib/kapso_client_ruby/resources/templates.rb:165-180 | Exactly BODY (security flag), FOOTER only with a truthy code expiration, BUTTONS with one OTP button |
| Templates.BuildAuthenticationTemplate | lib/kapso_client_ruby/resources/templates.rb:161-189 | Name, language, AUTHENTICATION, the TTL (60 by default) and those components |
| Templates.BodyComponents | lib/kapso_client_ruby/resources/templates.rb:194-207 | Header when truthy, BODY, FOOTER when the footer is truthy, BUTTONS when given, in that order |
| Templates.BuildMarketingTemplate | lib/kapso_client_ruby/resources/templates.rb:192-215 | MARKETING and those components |
| Templates.BuildUtilityTemplate | lib/kapso_client_ruby/resources/templates.rb:218-241 | UTILITY and those components |
| Templates.TypedIsComponent | lib/kapso_client_ruby/resources/templates.rb:259 | A Hash whose first entry is a truthy `:type` passes the validation |
| Templates.BuiltComponentsValid | lib/kapso_client_ruby/resources/templates.rb:192-215 | With no header or a component header, every built component passes validation |
| Templates.MarketingTemplateCreatable | lib/kapso_client_ruby/resources/templates.rb:42-59 | A built marketing template with non-blank name and language is accepted by `create` |
| Templates.AuthenticationComponentsValid | lib/kapso_client_ruby/resources/templates.rb:161-189 | Every authentication component passes validation |
| Templates.AuthenticationTemplateCreatable | lib/kapso_client_ruby/resources/templates.rb:42-59 | A built authentication template with non-blank name and language is accepted by `create` |
| PhoneNumbers.ValidateCodeMethod | lib/kapso_client_ruby/resources/phone_numbers.rb:78-83 | Passes exactly when `to_s.upcase` is SMS or VOICE |
| PhoneNumbers.OnlyTextCodeMethods | lib/kapso_client_ruby/resources/phone_numbers.rb:78-83 | Only a string or symbol can pass |
| PhoneNumbers.RequestCode | lib/kapso_client_ruby/resources/phone_numbers.rb:11-22 | The check, then the upcased method and the language, `en_US` by default |
| PhoneNumbers.LowercaseMethodAccepted | lib/kapso_client_ruby/resources/phone_numbers.rb:14-17 | `sms` is sent as `SMS` |
| PhoneNumbers.VerifyCode | lib/kapso_client_ruby/resources/phone_numbers.rb:25-33 | A non-blank code, exactly `{code:}` as text |
| PhoneNumbers.Register | lib/kapso_client_ruby/resources/phone_numbers.rb:36-45 | A non-blank PIN as text, the region exactly when truthy |
| PhoneNumbers.Deregister | lib/kapso_client_ruby/resources/phone_numbers.rb:48-52 | An empty payload |
| PhoneNumbers.UpdateSettings | lib/kapso_client_ruby/resources/phone_numbers.rb:55-64 | Product `whatsapp` by default; webhooks and application exactly when truthy |
| PhoneNumbers.Get | lib/kapso_client_ruby/resources/phone_numbers.rb:67-74 | `fields` exactly when truthy |
| Calls.Connect | lib/kapso_client_ruby/resources/calls.rb:11-24 | Product, `to`, `action: connect`; session and callback data exactly when truthy |
| Calls.Answer | lib/kapso_client_ruby/resources/calls.rb:27-60 | A non-blank call id, then a non-nil session; the payload holds the action and the session |
| Calls.PreAccept | lib/kapso_client_ruby/resources/calls.rb:27-41 | `action: pre_accept`, never callback data |
| Calls.Accept | lib/kapso_client_ruby/resources/calls.rb:44-60 | `action: accept`, callback data exactly when truthy |
| Calls.Hangup | lib/kapso_client_ruby/resources/calls.rb:63-90 | A non-blank call id; the payload is exactly product, call id and action |
| Calls.Reject | lib/kapso_client_ruby/resources/calls.rb:63-75 | Hang-up with `reject` |
| Calls.Terminate | lib/kapso_client_ruby/resources/calls.rb:78-90 | Hang-up with `terminate` |
| Calls.List | lib/kapso_client_ruby/resources/calls.rb:93-113 | Proxy only; the non-nil filters |
| Calls.ListSendsUntil | lib/kapso_client_ruby/resources/calls.rb:102 | The end of the period is sent as `until` |
| Calls.Get | lib/kapso_client_ruby/resources/calls.rb:116-125 | Proxy only; `fields` exactly when truthy |
| Calls.PermissionsGet | lib/kapso_client_ruby/resources/calls.rb:134-142 | A non-blank user, asked for in the query |
| Calls.PermissionsUpdate | lib/kapso_client_ruby/resources/calls.rb:145-157 | A non-blank user, then a non-nil permission; the payload holds both |
| Conversations.List | lib/kapso_client_ruby/resources/conversations.rb:11-30 | Proxy only; the non-nil filters |
| Conversations.Get | lib/kapso_client_ruby/resources/conversations.rb:33-47 | Proxy, then a non-blank id; a GET of the conversation |
| Conversations.UpdateStatus | lib/kapso_client_ruby/resources/conversations.rb:50-61 | Proxy, a non-blank id, a non-blank status, in that order; the PATCH holds exactly the status |
| Conversations.Archive | lib/kapso_client_ruby/resources/conversations.rb:64-66 | `update_status` with `archived` |
| Conversations.Unarchive | lib/kapso_client_ruby/resources/conversations.rb:69-71 | `update_status` with `active` |
| Conversations.EndConversation | lib/kapso_client_ruby/resources/conversations.rb:74-76 | `update_status` with `ended` |
| Conversations.Analytics | lib/kapso_client_ruby/resources/conversations.rb:79-93 | Proxy only; the non-nil filters, granularity `day` by default |
| Conversations.DefaultAnalyticsIsDaily | lib/kapso_client_ruby/resources/conversations.rb:79-93 | With no filters, the query is only `granularity: day` |
| Contacts.List | lib/kapso_client_ruby/resources/contacts.rb:11-28 | Proxy only; the non-nil filters |
| Contacts.Get | lib/kapso_client_ruby/resources/contacts.rb:31-48 | Proxy, a non-blank `wa_id`; `fields` exactly when truthy |
| Contacts.Update | lib/kapso_client_ruby/resources/contacts.rb:51-68 | Proxy, a non-blank `wa_id`; no request when no field is truthy; otherwise a PATCH of exactly the truthy fields |
| Contacts.NothingToUpdate | lib/kapso_client_ruby/resources/contacts.rb:57-63 | The payload is empty exactly when none of metadata, tags, customer id and notes is truthy |
| Contacts.Uniq | lib/kapso_client_ruby/resources/contacts.rb:76 | `uniq`: no duplicates, the same elements, first occurrences in order |
| Contacts.UniqKeepsPrefix | lib/kapso_client_ruby/resources/contacts.rb:76 | `uniq` of a list starts with `uniq` of any prefix |
| Contacts.UniqOfDistinct | lib/kapso_client_ruby/resources/contacts.rb:76 | A duplicate-free list is its own `uniq` |
| Contacts.AddedTags | lib/kapso_client_ruby/resources/contacts.rb:76 | Every existing and added tag exactly once, existing first, in order when they were distinct |
| Contacts.Minus | lib/kapso_client_ruby/resources/contacts.rb:88 | Exactly the elements not in the removed list, in order |
| Contacts.MinusAppend | lib/kapso_client_ruby/resources/contacts.rb:88 | The difference is taken element by element |
| Contacts.MinusDisjoint | lib/kapso_client_ruby/resources/contacts.rb:88 | Removing nothing present keeps the list |
| Contacts.RequireTags | lib/kapso_client_ruby/resources/contacts.rb:72 | nil or empty tags are refused |
| Contacts.CurrentTags | lib/kapso_client_ruby/resources/contacts.rb:75-76 | The metadata's tags: `[]` without metadata or with nil or false tags, the array itself for array tags; a truthy non-array (on which `existing + tags` raises) or a metadata without `[]` gives none; only a decodable contact has tags |
| Contacts.NoMetadataNoTags | lib/kapso_client_ruby/resources/contacts.rb:75 | No metadata means no tags |
| Contacts.ChangeTags | lib/kapso_client_ruby/resources/contacts.rb:71-92 | The tag check, the `get`, decoding, then an update of the metadata to `{tags: change(existing)}` |
| Contacts.SaveTagsCall | lib/kapso_client_ruby/resources/contacts.rb:78-79 | Updating the metadata with a tag list is one PATCH saving exactly `{metadata: {tags: list}}` |
| Contacts.AddTags | lib/kapso_client_ruby/resources/contacts.rb:71-80 | Saves `(existing + tags).uniq` |
| Contacts.RemoveTags | lib/kapso_client_ruby/resources/contacts.rb:83-92 | Saves `existing - tags` |
| Contacts.Search | lib/kapso_client_ruby/resources/contacts.rb:95-112 | Proxy, a non-blank query; `q`, the fields joined by `Array#join` with commas, and the non-nil paging parameters |
| Contacts.SearchSendsQuery | lib/kapso_client_ruby/resources/contacts.rb:101-107 | A non-nil query and the joined search fields always survive `compact` |
| Contacts.DefaultSearchFields | lib/kapso_client_ruby/resources/contacts.rb:95-96 | The default is `profile_name,phone_number` |
| Contacts.Analytics | lib/kapso_client_ruby/resources/contacts.rb:115-131 | The non-nil filters, granularity `day` by default, metrics joined by `Array#join` with commas |
| Contacts.NestedValuesFlattened | lib/kapso_client_ruby/resources/contacts.rb:103 | An inner array of fields or metrics is sent as if its items stood in its place |
| Contacts.MetricsOnlyWhenGiven | lib/kapso_client_ruby/resources/contacts.rb:125 | Metrics are sent exactly when given |
| Contacts.Export | lib/kapso_client_ruby/resources/contacts.rb:134-145 | Format (`csv` by default) and filters, whichever are not nil |
| Flows.Create | lib/kapso_client_ruby/resources/flows.rb:24-41 | Name and categories (`OTHER` by default); endpoint and application exactly when truthy |
| Flows.CreateDefaults | lib/kapso_client_ruby/resources/flows.rb:24-31 | By default only the name and `['OTHER']` |
| Flows.Select | lib/kapso_client_ruby/resources/flows.rb:49 | An entry is kept exactly when its key is selected, and nothing is added |
| Flows.SelectAppend | lib/kapso_client_ruby/resources/flows.rb:49 | The selection distributes over concatenation, so the kept entries stay in the caller's order |
| Flows.SelectSkips | lib/kapso_client_ruby/resources/flows.rb:49 | An entry under another key adds nothing |
| Flows.SelectKeepsAll | lib/kapso_client_ruby/resources/flows.rb:49 | A hash whose keys are all selected is kept |
| Flows.Update | lib/kapso_client_ruby/resources/flows.rb:47-61 | Only name, categories, endpoint and application are kept; none left is an error |
| Flows.UpdateIgnoresUnknown | lib/kapso_client_ruby/resources/flows.rb:47-51 | An unknown attribute changes nothing |
| Flows.Delete | lib/kapso_client_ruby/resources/flows.rb:66-74 | A DELETE of the flow |
| Flows.FieldsParam | lib/kapso_client_ruby/resources/flows.rb:81-82 | Nothing for nil or false; for an array the one `fields` entry holding `Array#join(',')` of the items; other values raise |
| Flows.FieldsSplitBack | lib/kapso_client_ruby/resources/flows.rb:81-82 | When no item text holds a comma, the sent list splits back into the item texts |
| Flows.NestedFieldsFlattened | lib/kapso_client_ruby/resources/flows.rb:82 | A non-empty inner array of names asks for the same fields as its names listed in its place |
| Flows.NestedFieldsExample | lib/kapso_client_ruby/resources/flows.rb:82 | `[['id', 'name']]` is sent as `id,name` |
| Flows.FieldsJoined | lib/kapso_client_ruby/resources/flows.rb:81-82 | `[id, name, status]` is sent as `id,name,status` |
| Flows.Get | lib/kapso_client_ruby/resources/flows.rb:80-92 | A GET of the flow with those fields |
| Flows.List | lib/kapso_client_ruby/resources/flows.rb:98-110 | A GET of the account's flows with those fields |
| Flows.BuildQueryParams | lib/kapso_client_ruby/resources/flows.rb:374-379 | Phone number and account, each exactly when truthy |
| Flows.Publish | lib/kapso_client_ruby/resources/flows.rb:117-129 | A POST of `<id>/publish` with those parameters |
| Flows.Deprecate | lib/kapso_client_ruby/resources/flows.rb:136-148 | A POST of `<id>/deprecate` with those parameters |
| Flows.AssetText | lib/kapso_client_ruby/resources/flows.rb:160 | A String verbatim, anything else serialised |
| Flows.UpdateAsset | lib/kapso_client_ruby/resources/flows.rb:156-178 | Product, `FLOW_JSON` and the asset text |
| Flows.TextAssetVerbatim | lib/kapso_client_ruby/resources/flows.rb:160 | A JSON text asset goes out unchanged |
| Flows.Preview | lib/kapso_client_ruby/resources/flows.rb:185-197 | A GET with the parameters and the fixed preview fields |
| Flows.FirstNamed | lib/kapso_client_ruby/resources/flows.rb:211 | The first item named `name`; an earlier item without `[]` raises |
| Flows.FlowsIn | lib/kapso_client_ruby/resources/flows.rb:211 | An array's items or a hash's pairs |
| Flows.ExistingFlow | lib/kapso_client_ruby/resources/flows.rb:210-211 | The first listed flow with the name, if any |
| Flows.RedeployAttributes | lib/kapso_client_ruby/resources/flows.rb:230-233 | Categories other than `['OTHER']`, and a truthy endpoint and application |
| Flows.DeployNew | lib/kapso_client_ruby/resources/flows.rb:213-223 | A created flow takes its id from the `create` reply |
| Flows.DeployExisting | lib/kapso_client_ruby/resources/flows.rb:224-237 | A reused flow keeps its id and is updated only when an attribute applies |
| Flows.Deploy | lib/kapso_client_ruby/resources/flows.rb:207-254 | Corrected: the listing's `data` is searched; reuse or create as above, then the asset and the publish of that id; the reply says whether it was created |
| Flows.ListedFlowFound | lib/kapso_client_ruby/resources/flows.rb:210-211 | A listing whose first flow has the name reuses it |
| Flows.RedeployReusesFlow | lib/kapso_client_ruby/resources/flows.rb:207-254 | Deploying again under the same name creates nothing and reuses the listed id |
| Flows.ReusedWithDefaults | lib/kapso_client_ruby/resources/flows.rb:229-237 | With the default attributes a reused flow is not updated |
| Flows.DeployAsWritten | lib/kapso_client_ruby/resources/flows.rb:211 | As written, `dig` on the paged listing raises for every successful listing |
| Flows.DeployAsWrittenNeverFindsFlow | lib/kapso_client_ruby/resources/flows.rb:211 | A listing with one flow of the name: as written it raises; corrected it reuses that flow |
| Flows.DownloadFlowMedia | lib/kapso_client_ruby/resources/flows.rb:355-369 | An explicit truthy token beats the client's; with neither a ConfigurationError and no request. Otherwise a GET of the media URL itself, with no body, is sent with `build_headers` over `Bearer <token>`, so the client's API key and the JSON content type go to that URL too; the reply is the body, and a non-2xx fetch raises the as-written `from_response` error |

## Left out

- Flow payload encryption and decryption (`receive_flow_event`, `respond_to_flow`, flows.rb:261-349): RSA-OAEP, AES-GCM and Base64 through OpenSSL are foreign cryptographic calls.
- The HTTP transport (Faraday's `run_request`) and its timeouts: each attempt's outcome is a parameter of the retry loop.
- File and stream I/O and MIME lookup: opening the file of `upload` and building its `UploadIO` part, `save_to_file`, contacts `import`, and `MIME::Types.type_for`. Media.Upload takes the file part (or the error the file argument raises) as a parameter, and the lookup results are parameters; the fallback table is modelled.
- Media `info` (media.rb:153-164): it reads the same metadata as `get` and adds only I/O-free formatting that is not modelled.
- JSON parsing and serialisation: `JSON.parse` is a parameter (a total function to a parse result) and `to_json` a caller-supplied function; payloads are JSON values.
- Base64 encoding in `download`: the result records which body would be encoded.
- `URI.join` is modelled as concatenation under the base, and `URI.encode_www_form` is not modelled: `build_url` stops at the list of flattened pairs.
- The clock and floats: `Time.now` and `Time.parse` are parameters in integer milliseconds, `retry_delay` is an integer number of milliseconds, and `sleep` is recorded as the delays asked for.
- Logging (`log_request`, `log_response`, the logger setup): no behavioural effect.
- Case mapping is ASCII-only; Ruby's Unicode `upcase`, `downcase` and `capitalize` are not modelled.
- Regular-expression line anchors: `to_snake_case`'s `sub(/^_/)` and `normalize_base_url`'s scheme test honour line starts, but the round-trip lemmas assume text without line breaks.
- The memoised resource accessors (`@messages ||= …`) and the memoised `@permissions`: each resource function takes the client as a parameter.
- `GraphApiError#to_h` (errors.rb:268-282): a serialisation of the stored fields.
- Rails integration, the example and helper scripts, and the specs: framework glue and interactive I/O.
- `lib/kapso_client_ruby.rb` does not require `resources/flows.rb`, and `types.rb` does not define the flow response classes the flow resource names. The model decodes flow replies as plain JSON values.
- Messages.FlowAction: `send_flow` stores the screen into the caller's own `flow_action_payload` hash. The model works on values, so that alias change is not visible to the caller.
- Values.Inspect: the `to_s` of a Hash or Array inside a message or a joined list is written `{:k => v}` with unescaped strings. Ruby writes `{:k=>v}` up to 3.3 and `{k: v}` from 3.4, and escapes strings; the exact text is version-bound and not modelled.
- Flows.Deploy: failures of the `update`, `update_asset` and `publish` sub-requests are not modelled; each step is assumed to be accepted.

## Findings

The request path keeps the code as written where a correction would change what callers see:
`KapsoClient.HandleErrorResponse` calls the as-written `Errors.FromResponse`, and
`Types.DecodeCallAction` the as-written `Types.SuccessResponse`. The corrected members stand beside
them. `Flows.Deploy` is the corrected search, because as written `deploy` fails for every listing
(`Flows.DeployAsWritten`).

| source | as written | input that shows it | evidently intended | confidence | as-written member | corrected member |
|---|---|---|---|---|---|---|
| lib/kapso_client_ruby/errors.rb:128-156 | The proxy branch tests `body.key?('error')` after the envelope branch has already taken every body with that key, so a String `error` is indexed as if it were the envelope Hash | a 401 with body `{"error": "Unauthorized"}` reports `Meta API request failed with status 401` | The proxy's text becomes the message | not executed | Errors.StringErrorLosesMessage | Errors.FixedKeepsProxyMessage |
| lib/kapso_client_ruby/resources/flows.rb:210-211 | `deploy` calls `dig('data')` on the `PagedResponse` that `list` returns, and that class has no `dig` | any account whose listing succeeds, e.g. one flow named as the one being deployed | The listing's `data` is searched, and an existing flow is reused | not executed | Flows.DeployAsWrittenNeverFindsFlow | Flows.RedeployReusesFlow |
| lib/kapso_client_ruby/resources/media.rb:106-114 | An unauthorised (`:never` or CDN) download goes through `raw_request`, and `raw_request` calls `build_headers`. So the client's token and key are still sent | `download(auth: :never)` with an access token: the transfer carries `Authorization: Bearer <token>` | An unauthorised transfer carries only the caller's headers | not executed | Media.DownloadHeaders | Media.DownloadHeadersFixed |
| lib/kapso_client_ruby/types.rb:138-140 | A blank 2xx body makes `parse_json_response` return a `GraphSuccessResponse`. The resources pass it to `GraphSuccessResponse.new`, whose `data['success']` raises NoMethodError | `media.delete` answered 200 with an empty body | The marker's own success flag is read | not executed | KapsoClient.BlankReplyRaises | KapsoClient.BlankReplyAccepted |

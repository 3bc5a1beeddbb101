/** `Resources::PhoneNumbers`: verification codes, registration and settings of a business phone
    number. Every POST is answered with a `GraphSuccessResponse` (`Types.SuccessResponse`). */
module PhoneNumbers {
  import opened Wrappers
  import opened Text
  import opened Values
  import opened Errors
  import opened KapsoClient

  const CodeMethods: seq<string> := ["SMS", "VOICE"]

  /** `validate_code_method`: `method.to_s.upcase` must be SMS or VOICE. */
  function ValidateCodeMethod(codeMethod: Value): (r: Result<(), Failure>)
    ensures r.Success? <==> Upcase(Render(codeMethod)) in CodeMethods
    ensures r.Failure? ==>
              r.error == ArgumentError("Invalid code method '" + Render(codeMethod) + "'. Must be one of: SMS, VOICE")
  {
    if Upcase(Render(codeMethod)) in CodeMethods then Success(())
    else Failure(ArgumentError("Invalid code method '" + Render(codeMethod) + "'. Must be one of: SMS, VOICE"))
  }

  /** Only a string or a symbol can pass the check: every other value prints as something that
      does not upcase to SMS or VOICE. */
  lemma {:induction false} OnlyTextCodeMethods(codeMethod: Value)
    requires Upcase(Render(codeMethod)) in CodeMethods
    ensures codeMethod.VStr? || codeMethod.VSym?
  {
    var u := Upcase(Render(codeMethod));
    assert u[0] == 'S' || u[0] == 'V';
  }

  /** The code method as the payload carries it: `code_method.upcase`, which keeps a symbol a
      symbol. */
  function UpcasedMethod(codeMethod: Value): Value
    requires codeMethod.VStr? || codeMethod.VSym?
  {
    if codeMethod.VStr? then VStr(Upcase(codeMethod.s)) else VSym(Upcase(codeMethod.sym))
  }

  /** `request_code`: the method check, then the upcased method with the language (`en_US` by
      default). */
  function RequestCode(phoneNumberId: Value, codeMethod: Value, language: Value := VStr("en_US")): (r: Result<ApiCall, Failure>)
    ensures r.Success? <==> Upcase(Render(codeMethod)) in CodeMethods
    ensures r.Failure? ==> r.error == ValidateCodeMethod(codeMethod).error
    ensures r.Success? ==>
              (codeMethod.VStr? || codeMethod.VSym?) &&
              JsonRequest(r.value, POST, Render(phoneNumberId) + "/request_code", None,
                          map[KSym("code_method") := UpcasedMethod(codeMethod), KSym("language") := language])
  {
    var _ :- ValidateCodeMethod(codeMethod);
    OnlyTextCodeMethods(codeMethod);
    Hash2(KSym("code_method"), UpcasedMethod(codeMethod), KSym("language"), language);
    Success(JsonCall(POST, Render(phoneNumberId) + "/request_code", None,
                     JsonBody(VHash([(KSym("code_method"), UpcasedMethod(codeMethod)), (KSym("language"), language)]))))
  }

  /** In any spelling, a string method is sent upper-cased. */
  lemma LowercaseMethodAccepted(phoneNumberId: Value)
    ensures RequestCode(phoneNumberId, VStr("sms")).Success?
    ensures RequestCode(phoneNumberId, VStr("Voice")).Success?
    ensures RequestCode(phoneNumberId, VStr("email")).Failure?
  {
    assert Upcase("sms") == "SMS";
    assert Upcase("Voice") == "VOICE";
    assert Upcase("email")[0] == 'E';
  }

  /** `verify_code`: a non-blank code, sent as its text. */
  function VerifyCode(phoneNumberId: Value, code: Value): (r: Result<ApiCall, Failure>)
    ensures r.Success? <==> Filled(code)
    ensures Blank(code) ==> r == Failure(ArgumentError("Verification code cannot be empty"))
    ensures r.Success? ==>
              JsonRequest(r.value, POST, Render(phoneNumberId) + "/verify_code", None, map[KSym("code") := VStr(code.s)])
  {
    var _ :- RequireText(code, "Verification code cannot be empty");
    Hash1(KSym("code"), VStr(Render(code)));
    Success(JsonCall(POST, Render(phoneNumberId) + "/verify_code", None, JsonBody(VHash([(KSym("code"), VStr(Render(code)))]))))
  }

  /** `register`: a non-blank PIN, sent as its text, with the data localisation region when one is
      given. */
  function Register(phoneNumberId: Value, pin: Value, region: Value := VNil): (r: Result<ApiCall, Failure>)
    ensures r.Success? <==> Filled(pin)
    ensures Blank(pin) ==> r == Failure(ArgumentError("PIN cannot be empty"))
    ensures r.Success? ==>
              JsonRequest(r.value, POST, Render(phoneNumberId) + "/register", None,
                          With(map[KSym("pin") := VStr(pin.s)], KSym("data_localization_region"), When(Truthy(region), region)))
  {
    var _ :- RequireText(pin, "PIN cannot be empty");
    Hash1(KSym("pin"), VStr(Render(pin)));
    PutOptHolds([(KSym("pin"), VStr(Render(pin)))], map[KSym("pin") := VStr(Render(pin))],
                KSym("data_localization_region"), When(Truthy(region), region));
    Success(JsonCall(POST, Render(phoneNumberId) + "/register", None,
                     JsonBody(VHash(PutOpt([(KSym("pin"), VStr(Render(pin)))], KSym("data_localization_region"),
                                           When(Truthy(region), region))))))
  }

  /** `deregister`: an empty payload. */
  function Deregister(phoneNumberId: Value): (call: ApiCall)
    ensures JsonRequest(call, POST, Render(phoneNumberId) + "/deregister", None, map[])
  {
    JsonCall(POST, Render(phoneNumberId) + "/deregister", None, JsonBody(VHash([])))
  }

  /** The entries of `update_settings`. */
  function SettingsMap(messagingProduct: Value, webhooks: Value, application: Value): map<Key, Value> {
    With(With(map[KSym("messaging_product") := messagingProduct], KSym("webhooks"), When(Truthy(webhooks), webhooks)),
         KSym("application"), When(Truthy(application), application))
  }

  /** `update_settings`: a POST to the phone number itself; the product is WhatsApp unless the
      caller names another, webhooks and application are sent only when given. */
  function UpdateSettings(phoneNumberId: Value, messagingProduct: Value := VStr("whatsapp"), webhooks: Value := VNil,
                          application: Value := VNil): (call: ApiCall)
    ensures JsonRequest(call, POST, Render(phoneNumberId), None, SettingsMap(messagingProduct, webhooks, application))
  {
    var base := [(KSym("messaging_product"), messagingProduct)];
    Hash1(KSym("messaging_product"), messagingProduct);
    var withHooks := PutOpt(base, KSym("webhooks"), When(Truthy(webhooks), webhooks));
    PutOptHolds(base, map[KSym("messaging_product") := messagingProduct], KSym("webhooks"), When(Truthy(webhooks), webhooks));
    PutOptHolds(withHooks, With(map[KSym("messaging_product") := messagingProduct], KSym("webhooks"), When(Truthy(webhooks), webhooks)),
                KSym("application"), When(Truthy(application), application));
    JsonCall(POST, Render(phoneNumberId), None,
             JsonBody(VHash(PutOpt(withHooks, KSym("application"), When(Truthy(application), application)))))
  }

  /** `get`: a GET of the phone number, asking for `fields` only when they are truthy. */
  function Get(phoneNumberId: Value, fields: Value := VNil): (call: ApiCall)
    ensures call.verb == GET && call.path == Render(phoneNumberId) && call.body == NoBody
    ensures call.query.Some? && Holds(call.query.value, With(map[], KSym("fields"), When(Truthy(fields), fields)))
  {
    PutOptHolds([], map[], KSym("fields"), When(Truthy(fields), fields));
    JsonCall(GET, Render(phoneNumberId), Some(PutOpt([], KSym("fields"), When(Truthy(fields), fields))), NoBody)
  }
}

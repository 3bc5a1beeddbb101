/** `Resources::Messages`: the payload every `send_*` builds, the checks it makes first, and the
    request it hands to the client. A builder's result is the request; the reply is decoded by
    `Types.DecodeSendMessage` (or `SuccessResponse`, `DecodePaged`) as the source says. Payload
    keys are symbols, as in the source's hash literals. */
module Messages {
  import opened Wrappers
  import opened Text
  import opened Values
  import opened Errors
  import opened KapsoClient

  // ---------------------------------------------------------------- the common envelope

  /** The keys `build_base_payload` may set. */
  const BaseKeys: seq<Key> := [KSym("messaging_product"), KSym("recipient_type"), KSym("to"), KSym("type"),
                               KSym("context"), KSym("biz_opaque_callback_data")]

  predicate IsBaseName(t: string) {
    KSym(t) in BaseKeys
  }

  predicate ValidRecipient(recipientType: Value) {
    recipientType == VStr("individual") || recipientType == VStr("group")
  }

  function RecipientError(recipientType: Value): Failure {
    ArgumentError("recipient_type must be 'individual' or 'group' (received: " + Render(recipientType) + ")")
  }

  /** The entries of the envelope: the product is WhatsApp, the recipient, its type and the
      message type are as given, and a context (the replied-to message) and the callback data
      are present exactly when truthy. */
  function BaseMap(to: Value, t: string, recipientType: Value, context: Value, biz: Value): map<Key, Value> {
    With(With(map[KSym("messaging_product") := VStr("whatsapp"), KSym("recipient_type") := recipientType,
                  KSym("to") := to, KSym("type") := VStr(t)],
              KSym("context"), When(Truthy(context), VHash([(KSym("message_id"), context)]))),
         KSym("biz_opaque_callback_data"), When(Truthy(biz), biz))
  }

  /** The hash `build_base_payload` returns once the recipient type is accepted. */
  function BaseFields(to: Value, t: string, recipientType: Value, context: Value, biz: Value): (b: Fields)
    ensures Holds(b, BaseMap(to, t, recipientType, context, biz))
  {
    var b0 := [(KSym("messaging_product"), VStr("whatsapp")), (KSym("recipient_type"), recipientType),
               (KSym("to"), to), (KSym("type"), VStr(t))];
    Hash4(KSym("messaging_product"), VStr("whatsapp"), KSym("recipient_type"), recipientType, KSym("to"), to, KSym("type"), VStr(t));
    var m0 := map[KSym("messaging_product") := VStr("whatsapp"), KSym("recipient_type") := recipientType,
                  KSym("to") := to, KSym("type") := VStr(t)];
    var ctx := When(Truthy(context), VHash([(KSym("message_id"), context)]));
    var b1 := PutOpt(b0, KSym("context"), ctx);
    PutOptHolds(b0, m0, KSym("context"), ctx);
    PutOptHolds(b1, With(m0, KSym("context"), ctx), KSym("biz_opaque_callback_data"), When(Truthy(biz), biz));
    PutOpt(b1, KSym("biz_opaque_callback_data"), When(Truthy(biz), biz))
  }

  /** `build_base_payload`: the recipient type must be the string `individual` or `group`. */
  function BuildBasePayload(to: Value, t: string, recipientType: Value, context: Value, biz: Value): (r: Result<Fields, Failure>)
    ensures r.Failure? <==> !ValidRecipient(recipientType)
    ensures r.Failure? ==> r.error == RecipientError(recipientType)
    ensures r.Success? ==> Holds(r.value, BaseMap(to, t, recipientType, context, biz))
  {
    if !ValidRecipient(recipientType) then Failure(RecipientError(recipientType))
    else Success(BaseFields(to, t, recipientType, context, biz))
  }

  /** A message request: a JSON POST to `<phone_number_id>/messages` whose payload holds exactly
      the entries of `payload`. */
  ghost predicate MessageCall(call: ApiCall, phoneNumberId: Value, payload: map<Key, Value>) {
    call.verb == POST && call.path == Render(phoneNumberId) + "/messages" && call.query.None? &&
    call.headers == [] && call.responseType == AsJson && call.body.JsonBody? && call.body.payload.VHash? &&
    Holds(call.body.payload.fields, payload)
  }

  /** A message of type `t`: the envelope, and the content under the key named by the type. */
  ghost predicate MessageShape(call: ApiCall, phoneNumberId: Value, to: Value, t: string, recipientType: Value,
                               context: Value, biz: Value, content: Value) {
    MessageCall(call, phoneNumberId, BaseMap(to, t, recipientType, context, biz)[KSym(t) := content])
  }

  /** The envelope entries of a message of type `t`, as a map. */
  lemma EnvelopeEntries(to: Value, t: string, recipientType: Value, context: Value, biz: Value, content: Value)
    requires !IsBaseName(t)
    ensures var m := BaseMap(to, t, recipientType, context, biz)[KSym(t) := content];
      KSym("messaging_product") in m && m[KSym("messaging_product")] == VStr("whatsapp") &&
      KSym("recipient_type") in m && m[KSym("recipient_type")] == recipientType &&
      KSym("to") in m && m[KSym("to")] == to && KSym("type") in m && m[KSym("type")] == VStr(t) &&
      KSym(t) in m && m[KSym(t)] == content &&
      (KSym("context") in m <==> Truthy(context)) &&
      (Truthy(context) ==> m[KSym("context")] == VHash([(KSym("message_id"), context)])) &&
      (KSym("biz_opaque_callback_data") in m <==> Truthy(biz)) &&
      (Truthy(biz) ==> m[KSym("biz_opaque_callback_data")] == biz) &&
      forall k :: k in m ==> k in BaseKeys || k == KSym(t)
  {
    assert KSym(t) != KSym("context") && KSym(t) != KSym("biz_opaque_callback_data");
  }

  /** What a message payload of type `t` says, key by key: the product, the recipient and its
      type, the message type and its content are as given; the context and the callback data
      are present exactly when truthy; and no other key is sent. */
  lemma Envelope(p: Fields, to: Value, t: string, recipientType: Value, context: Value, biz: Value, content: Value)
    requires !IsBaseName(t)
    requires Holds(p, BaseMap(to, t, recipientType, context, biz)[KSym(t) := content])
    ensures Lookup(p, KSym("messaging_product")) == Some(VStr("whatsapp"))
    ensures Lookup(p, KSym("recipient_type")) == Some(recipientType) && Lookup(p, KSym("to")) == Some(to)
    ensures Lookup(p, KSym("type")) == Some(VStr(t)) && Lookup(p, KSym(t)) == Some(content)
    ensures Lookup(p, KSym("context")) == if Truthy(context) then Some(VHash([(KSym("message_id"), context)])) else None
    ensures Lookup(p, KSym("biz_opaque_callback_data")) == if Truthy(biz) then Some(biz) else None
    ensures forall k :: Lookup(p, k).Some? ==> k in BaseKeys || k == KSym(t)
  {
    var m := BaseMap(to, t, recipientType, context, biz)[KSym(t) := content];
    EnvelopeEntries(to, t, recipientType, context, biz, content);
    HoldsLookup(p, m, KSym("messaging_product"));
    HoldsLookup(p, m, KSym("recipient_type"));
    HoldsLookup(p, m, KSym("to"));
    HoldsLookup(p, m, KSym("type"));
    HoldsLookup(p, m, KSym(t));
    HoldsLookup(p, m, KSym("context"));
    HoldsLookup(p, m, KSym("biz_opaque_callback_data"));
    forall k | Lookup(p, k).Some? ensures k in BaseKeys || k == KSym(t) {
      HoldsLookup(p, m, k);
    }
  }

  /** Every `send_*`: the base payload first (its recipient check comes before anything the
      content raises), then the content, then `payload[type] = content` and the request. */
  function Send(phoneNumberId: Value, to: Value, t: string, recipientType: Value, context: Value, biz: Value,
                content: Result<Value, Failure>): (r: Result<ApiCall, Failure>)
    ensures r.Failure? <==> !ValidRecipient(recipientType) || content.Failure?
    ensures !ValidRecipient(recipientType) ==> r == Failure(RecipientError(recipientType))
    ensures ValidRecipient(recipientType) && content.Failure? ==> r == Failure(content.error)
    ensures r.Success? ==> MessageShape(r.value, phoneNumberId, to, t, recipientType, context, biz, content.value)
  {
    var base :- BuildBasePayload(to, t, recipientType, context, biz);
    var obj :- content;
    PutHolds(base, BaseMap(to, t, recipientType, context, biz), KSym(t), obj);
    Success(JsonCall(POST, Render(phoneNumberId) + "/messages", None, JsonBody(VHash(Put(base, KSym(t), obj)))))
  }

  // ---------------------------------------------------------------- media messages

  /** `media.match?(/\A\w+\z/)`: a non-empty string of word characters, taken as a media id. */
  predicate IsMediaId(s: string) {
    |s| > 0 && forall i :: 0 <= i < |s| ==> IsWordChar(s[i])
  }

  /** `build_media_object`: a hash is copied, an id string becomes `{id:}`, any other string
      `{link:}`; any other value is refused. A truthy caption is stored over the copy. */
  function BuildMediaObject(media: Value, caption: Value): (r: Result<Value, Failure>)
    ensures r.Success? <==> media.VHash? || media.VStr?
    ensures r.Failure? ==> r.error == ArgumentError("Media must be a Hash, media ID string, or URL string")
    ensures r.Success? ==> r.value.VHash?
    ensures r.Success? && Truthy(caption) ==> Lookup(r.value.fields, KSym("caption")) == Some(caption)
    ensures r.Success? && !Truthy(caption) && media.VHash? ==> r.value == media
    ensures r.Success? && !Truthy(caption) && media.VStr? ==>
              r.value == VHash([(KSym(if IsMediaId(media.s) then "id" else "link"), media)])
    ensures r.Success? && media.VStr? ==>
              Lookup(r.value.fields, KSym(if IsMediaId(media.s) then "id" else "link")) == Some(media) &&
              !HasKey(r.value.fields, KSym(if IsMediaId(media.s) then "link" else "id"))
    ensures r.Success? && media.VHash? ==>
              forall k :: k != KSym("caption") ==> Lookup(r.value.fields, k) == Lookup(media.fields, k)
  {
    var obj: Fields :=
      match media
      case VHash(f) => f
      case VStr(s) => [(KSym(if IsMediaId(s) then "id" else "link"), media)]
      case _ => [];
    if !media.VHash? && !media.VStr? then Failure(ArgumentError("Media must be a Hash, media ID string, or URL string"))
    else
      PutLookup(obj, KSym("caption"), caption);
      PutKeys(obj, KSym("caption"), caption);
      Success(VHash(if Truthy(caption) then Put(obj, KSym("caption"), caption) else obj))
  }

  /** `send_text`: `{body:}`, with `preview_url` whenever it is not nil (false included). */
  function TextObject(body: Value, previewUrl: Value): (v: Value)
    ensures v.VHash?
    ensures Holds(v.fields, With(map[KSym("body") := body], KSym("preview_url"), When(!previewUrl.VNil?, previewUrl)))
  {
    var o := [(KSym("body"), body)];
    Hash1(KSym("body"), body);
    PutOptHolds(o, map[KSym("body") := body], KSym("preview_url"), When(!previewUrl.VNil?, previewUrl));
    VHash(PutOpt(o, KSym("preview_url"), When(!previewUrl.VNil?, previewUrl)))
  }

  function SendText(phoneNumberId: Value, to: Value, body: Value, previewUrl: Value, recipientType: Value,
                    context: Value, biz: Value): (r: Result<ApiCall, Failure>)
    ensures r.Failure? <==> !ValidRecipient(recipientType)
    ensures r.Failure? ==> r.error == RecipientError(recipientType)
    ensures r.Success? ==> MessageShape(r.value, phoneNumberId, to, "text", recipientType, context, biz, TextObject(body, previewUrl))
  {
    Send(phoneNumberId, to, "text", recipientType, context, biz, Success(TextObject(body, previewUrl)))
  }

  /** `send_image`: the recipient type is checked before the media. */
  function SendImage(phoneNumberId: Value, to: Value, image: Value, caption: Value, recipientType: Value,
                     context: Value, biz: Value): (r: Result<ApiCall, Failure>)
    ensures r.Failure? <==> !ValidRecipient(recipientType) || !(image.VHash? || image.VStr?)
    ensures !ValidRecipient(recipientType) ==> r == Failure(RecipientError(recipientType))
    ensures r.Success? ==>
              BuildMediaObject(image, caption).Success? &&
              MessageShape(r.value, phoneNumberId, to, "image", recipientType, context, biz, BuildMediaObject(image, caption).value)
  {
    Send(phoneNumberId, to, "image", recipientType, context, biz, BuildMediaObject(image, caption))
  }

  function SendVideo(phoneNumberId: Value, to: Value, video: Value, caption: Value, recipientType: Value,
                     context: Value, biz: Value): (r: Result<ApiCall, Failure>)
    ensures r.Failure? <==> !ValidRecipient(recipientType) || !(video.VHash? || video.VStr?)
    ensures !ValidRecipient(recipientType) ==> r == Failure(RecipientError(recipientType))
    ensures r.Success? ==>
              BuildMediaObject(video, caption).Success? &&
              MessageShape(r.value, phoneNumberId, to, "video", recipientType, context, biz, BuildMediaObject(video, caption).value)
  {
    Send(phoneNumberId, to, "video", recipientType, context, biz, BuildMediaObject(video, caption))
  }

  /** `send_sticker`: no caption, always an individual recipient. */
  function SendSticker(phoneNumberId: Value, to: Value, sticker: Value, context: Value, biz: Value): (r: Result<ApiCall, Failure>)
    ensures r.Failure? <==> !(sticker.VHash? || sticker.VStr?)
    ensures r.Success? ==> MessageShape(r.value, phoneNumberId, to, "sticker", VStr("individual"), context, biz,
                                        BuildMediaObject(sticker, VNil).value)
  {
    Send(phoneNumberId, to, "sticker", VStr("individual"), context, biz, BuildMediaObject(sticker, VNil))
  }

  /** `send_audio`: the media object, with `voice: true` added when `voice` is truthy. */
  function AudioObject(audio: Value, voice: Value): (r: Result<Value, Failure>)
    ensures r.Success? <==> audio.VHash? || audio.VStr?
    ensures r.Success? ==> r.value.VHash?
    ensures r.Success? ==>
              Lookup(r.value.fields, KSym("voice")) ==
              if Truthy(voice) then Some(VBool(true)) else Lookup(BuildMediaObject(audio, VNil).value.fields, KSym("voice"))
    ensures r.Success? ==> forall k :: k != KSym("voice") ==>
              Lookup(r.value.fields, k) == Lookup(BuildMediaObject(audio, VNil).value.fields, k)
  {
    var obj :- BuildMediaObject(audio, VNil);
    PutLookup(obj.fields, KSym("voice"), VBool(true));
    Success(if Truthy(voice) then VHash(Put(obj.fields, KSym("voice"), VBool(true))) else obj)
  }

  function SendAudio(phoneNumberId: Value, to: Value, audio: Value, voice: Value, context: Value, biz: Value): (r: Result<ApiCall, Failure>)
    ensures r.Failure? <==> !(audio.VHash? || audio.VStr?)
    ensures r.Success? ==> MessageShape(r.value, phoneNumberId, to, "audio", VStr("individual"), context, biz,
                                        AudioObject(audio, voice).value)
  {
    Send(phoneNumberId, to, "audio", VStr("individual"), context, biz, AudioObject(audio, voice))
  }

  /** `send_document`: the media object with its caption, and `filename` when truthy. */
  function DocumentObject(document: Value, caption: Value, filename: Value): (r: Result<Value, Failure>)
    ensures r.Success? <==> document.VHash? || document.VStr?
    ensures r.Success? ==> r.value.VHash?
    ensures r.Success? ==>
              Lookup(r.value.fields, KSym("filename")) ==
              if Truthy(filename) then Some(filename) else Lookup(BuildMediaObject(document, caption).value.fields, KSym("filename"))
    ensures r.Success? ==> forall k :: k != KSym("filename") ==>
              Lookup(r.value.fields, k) == Lookup(BuildMediaObject(document, caption).value.fields, k)
  {
    var obj :- BuildMediaObject(document, caption);
    PutLookup(obj.fields, KSym("filename"), filename);
    Success(if Truthy(filename) then VHash(Put(obj.fields, KSym("filename"), filename)) else obj)
  }

  function SendDocument(phoneNumberId: Value, to: Value, document: Value, caption: Value, filename: Value,
                        context: Value, biz: Value): (r: Result<ApiCall, Failure>)
    ensures r.Failure? <==> !(document.VHash? || document.VStr?)
    ensures r.Success? ==> MessageShape(r.value, phoneNumberId, to, "document", VStr("individual"), context, biz,
                                        DocumentObject(document, caption, filename).value)
  {
    Send(phoneNumberId, to, "document", VStr("individual"), context, biz, DocumentObject(document, caption, filename))
  }

  // ---------------------------------------------------------------- other plain messages

  /** `send_location`: latitude and longitude, then name and address when truthy. */
  function LocationObject(latitude: Value, longitude: Value, name: Value, address: Value): (v: Value)
    ensures v.VHash?
    ensures Holds(v.fields, With(With(map[KSym("latitude") := latitude, KSym("longitude") := longitude],
                                      KSym("name"), When(Truthy(name), name)),
                                 KSym("address"), When(Truthy(address), address)))
  {
    var o := [(KSym("latitude"), latitude), (KSym("longitude"), longitude)];
    var m := map[KSym("latitude") := latitude, KSym("longitude") := longitude];
    Hash2(KSym("latitude"), latitude, KSym("longitude"), longitude);
    var o1 := PutOpt(o, KSym("name"), When(Truthy(name), name));
    PutOptHolds(o, m, KSym("name"), When(Truthy(name), name));
    PutOptHolds(o1, With(m, KSym("name"), When(Truthy(name), name)), KSym("address"), When(Truthy(address), address));
    VHash(PutOpt(o1, KSym("address"), When(Truthy(address), address)))
  }

  function SendLocation(phoneNumberId: Value, to: Value, latitude: Value, longitude: Value, name: Value, address: Value,
                        context: Value, biz: Value): (r: Result<ApiCall, Failure>)
    ensures r.Success?
    ensures MessageShape(r.value, phoneNumberId, to, "location", VStr("individual"), context, biz,
                         LocationObject(latitude, longitude, name, address))
  {
    Send(phoneNumberId, to, "location", VStr("individual"), context, biz, Success(LocationObject(latitude, longitude, name, address)))
  }

  /** `send_contacts`: the caller's contacts, as given. */
  function SendContacts(phoneNumberId: Value, to: Value, contacts: Value, context: Value, biz: Value): (r: Result<ApiCall, Failure>)
    ensures r.Success?
    ensures MessageShape(r.value, phoneNumberId, to, "contacts", VStr("individual"), context, biz, contacts)
  {
    Send(phoneNumberId, to, "contacts", VStr("individual"), context, biz, Success(contacts))
  }

  /** `send_template`: name, `language: {code:}`, and components when truthy. */
  function TemplateObject(name: Value, language: Value, components: Value): (v: Value)
    ensures v.VHash?
    ensures Holds(v.fields, With(map[KSym("name") := name, KSym("language") := VHash([(KSym("code"), language)])],
                                 KSym("components"), When(Truthy(components), components)))
  {
    var o := [(KSym("name"), name), (KSym("language"), VHash([(KSym("code"), language)]))];
    Hash2(KSym("name"), name, KSym("language"), VHash([(KSym("code"), language)]));
    PutOptHolds(o, map[KSym("name") := name, KSym("language") := VHash([(KSym("code"), language)])],
                KSym("components"), When(Truthy(components), components));
    VHash(PutOpt(o, KSym("components"), When(Truthy(components), components)))
  }

  function SendTemplate(phoneNumberId: Value, to: Value, name: Value, language: Value, components: Value,
                        context: Value, biz: Value): (r: Result<ApiCall, Failure>)
    ensures r.Success?
    ensures MessageShape(r.value, phoneNumberId, to, "template", VStr("individual"), context, biz,
                         TemplateObject(name, language, components))
  {
    Send(phoneNumberId, to, "template", VStr("individual"), context, biz, Success(TemplateObject(name, language, components)))
  }

  /** `send_reaction`: the message id, and the emoji when truthy (without one the reaction is
      removed). */
  function ReactionObject(messageId: Value, emoji: Value): (v: Value)
    ensures v.VHash?
    ensures Holds(v.fields, With(map[KSym("message_id") := messageId], KSym("emoji"), When(Truthy(emoji), emoji)))
  {
    var o := [(KSym("message_id"), messageId)];
    Hash1(KSym("message_id"), messageId);
    PutOptHolds(o, map[KSym("message_id") := messageId], KSym("emoji"), When(Truthy(emoji), emoji));
    VHash(PutOpt(o, KSym("emoji"), When(Truthy(emoji), emoji)))
  }

  function SendReaction(phoneNumberId: Value, to: Value, messageId: Value, emoji: Value, context: Value, biz: Value): (r: Result<ApiCall, Failure>)
    ensures r.Success?
    ensures MessageShape(r.value, phoneNumberId, to, "reaction", VStr("individual"), context, biz, ReactionObject(messageId, emoji))
  {
    Send(phoneNumberId, to, "reaction", VStr("individual"), context, biz, Success(ReactionObject(messageId, emoji)))
  }

  // ---------------------------------------------------------------- header and parameter checks

  const HeaderTypes: seq<string> := ["text", "image", "video", "document"]

  /** `validate_text_header`: the text (`:text` or `'text'`) is required, non-blank and at most
      60 characters. */
  function ValidateTextHeader(header: Value): (r: Result<(), Failure>)
    ensures !header.VHash? ==> r.Failure?
    ensures header.VHash? && Dual(header, "text").value.VStr? ==>
              var text := Dual(header, "text").value.s;
              (r.Success? <==> !IsBlankText(text) && |text| <= 60) &&
              (IsBlankText(text) ==> r == Failure(ArgumentError("Text header requires text field"))) &&
              (!IsBlankText(text) && |text| > 60 ==>
                 r == Failure(ArgumentError("Header text max 60 characters (current: " + NatToString(|text|) + ")")))
    ensures header.VHash? && Dual(header, "text").value.VNil? ==> r == Failure(ArgumentError("Text header requires text field"))
  {
    match Dual(header, "text")
    case None => Failure(TypeFault("undefined method `[]' for the header"))
    case Some(text) =>
      match NilOrBlank(text)
      case None => Failure(TypeFault("undefined method `strip' for the header text"))
      case Some(blank) =>
        if blank then Failure(ArgumentError("Text header requires text field"))
        else if |text.s| > 60 then Failure(ArgumentError("Header text max 60 characters (current: " + NatToString(|text.s|) + ")"))
        else Success(())
  }

  /** `validate_media_header`: the sub-hash named by the type (a symbol or string key) is
      required and needs a truthy `id` or `link`. */
  function ValidateMediaHeader(header: Value): (r: Result<(), Failure>)
    ensures !header.VHash? ==> r.Failure?
    ensures header.VHash? ==>
              var ht := Render(Dual(header, "type").value);
              var media := Dual(header, ht).value;
              (media.VNil? ==> r == Failure(ArgumentError(Capitalize(ht) + " header requires " + ht + " field"))) &&
              (!media.VHash? ==> r.Failure?) &&
              (media.VHash? ==>
                 (r.Success? <==> Truthy(Dual(media, "id").value) || Truthy(Dual(media, "link").value)) &&
                 (r.Failure? ==> r.error == ArgumentError(Capitalize(ht) + " must have 'id' or 'link'")))
  {
    if !header.VHash? then Failure(TypeFault("undefined method `[]' for the header"))
    else
      var ht := Render(Dual(header, "type").value);
      var media := Dual(header, ht).value;
      if media.VNil? then Failure(ArgumentError(Capitalize(ht) + " header requires " + ht + " field"))
      else if !media.VHash? then Failure(TypeFault("undefined method `[]' for the header media"))
      else if !Truthy(Dual(media, "id").value) && !Truthy(Dual(media, "link").value) then
        Failure(ArgumentError(Capitalize(ht) + " must have 'id' or 'link'"))
      else Success(())
  }

  /** `validate_interactive_header`: a type is required and must be text, image, video or document
      (as `to_s`); text headers and media headers are then checked by their own rules. */
  function ValidateInteractiveHeader(header: Value): (r: Result<(), Failure>)
    ensures !header.VHash? ==> r.Failure?
    ensures header.VHash? && Dual(header, "type").value.VNil? ==> r == Failure(ArgumentError("Header must have a type field"))
    ensures header.VHash? && !Dual(header, "type").value.VNil? && Render(Dual(header, "type").value) !in HeaderTypes ==>
              r == Failure(ArgumentError("Invalid header type '" + Render(Dual(header, "type").value) +
                                         "'. Must be one of: text, image, video, document"))
    ensures header.VHash? && !Dual(header, "type").value.VNil? && Render(Dual(header, "type").value) == "text" ==>
              r == ValidateTextHeader(header)
    ensures header.VHash? && !Dual(header, "type").value.VNil? && Render(Dual(header, "type").value) in HeaderTypes[1..] ==>
              r == ValidateMediaHeader(header)
  {
    match Dual(header, "type")
    case None => Failure(TypeFault("undefined method `[]' for the header"))
    case Some(ht) =>
      if ht.VNil? then Failure(ArgumentError("Header must have a type field"))
      else if Render(ht) !in HeaderTypes then
        Failure(ArgumentError("Invalid header type '" + Render(ht) + "'. Must be one of: text, image, video, document"))
      else if Render(ht) == "text" then ValidateTextHeader(header)
      else ValidateMediaHeader(header)
  }

  /** An accepted header has one of the four types; a text one passes the text rules and a
      media one names a media hash under its type. */
  lemma AcceptedHeader(header: Value)
    requires ValidateInteractiveHeader(header).Success?
    ensures header.VHash? && Render(Dual(header, "type").value) in HeaderTypes
    ensures Render(Dual(header, "type").value) == "text" ==> ValidateTextHeader(header).Success?
    ensures Render(Dual(header, "type").value) != "text" ==>
              Dual(header, Render(Dual(header, "type").value)).value.VHash?
  {
    var ht := Dual(header, "type").value;
    if Render(ht) != "text" {
      assert Render(ht) in HeaderTypes[1..];
    }
  }

  /** A required text: nil or blank is refused, then a length bound. */
  function CheckRequiredText(v: Value, name: string, max: nat): (r: Result<(), Failure>)
    ensures v.VStr? ==> (r.Success? <==> !IsBlankText(v.s) && |v.s| <= max)
    ensures v.VNil? || (v.VStr? && IsBlankText(v.s)) ==> r == Failure(ArgumentError(name + " is required"))
    ensures v.VStr? && !IsBlankText(v.s) && |v.s| > max ==>
              r == Failure(ArgumentError(name + " max " + NatToString(max) + " characters (current: " + NatToString(|v.s|) + ")"))
    ensures !v.VNil? && !v.VStr? ==> r.Failure?
  {
    match NilOrBlank(v)
    case None => Failure(TypeFault("undefined method `strip' for " + name))
    case Some(blank) =>
      if blank then Failure(ArgumentError(name + " is required"))
      else if |v.s| > max then Failure(ArgumentError(name + " max " + NatToString(max) + " characters (current: " + NatToString(|v.s|) + ")"))
      else Success(())
  }

  /** An optional footer text: a truthy one longer than 60 characters is refused. */
  function CheckFooter(footer: Value): (r: Result<(), Failure>)
    ensures !Truthy(footer) ==> r.Success?
    ensures footer.VStr? ==> (r.Success? <==> |footer.s| <= 60)
    ensures footer.VStr? && |footer.s| > 60 ==>
              r == Failure(ArgumentError("footer_text max 60 characters (current: " + NatToString(|footer.s|) + ")"))
  {
    if !Truthy(footer) then Success(())
    else
      match Length(footer)
      case None => Failure(TypeFault("undefined method `length' for footer_text"))
      case Some(n) =>
        if n > 60 then Failure(ArgumentError("footer_text max 60 characters (current: " + NatToString(n) + ")"))
        else Success(())
  }

  /** `url.match?(%r{\Ahttps?://}i)` */
  predicate HasHttpScheme(url: string) {
    StartsWith(Downcase(url), "http://") || StartsWith(Downcase(url), "https://")
  }

  /** `validate_cta_url_params`: body (≤ 1024), display text (≤ 20) and URL are required in that
      order, the URL needs an http or https scheme in any letter case, and the footer ≤ 60. */
  function ValidateCtaUrlParams(body: Value, displayText: Value, url: Value, footer: Value): (r: Result<(), Failure>)
    ensures body.VStr? && displayText.VStr? && url.VStr? && (footer.VNil? || footer.VStr?) ==>
              (r.Success? <==>
                 !IsBlankText(body.s) && |body.s| <= 1024 && !IsBlankText(displayText.s) && |displayText.s| <= 20 &&
                 !IsBlankText(url.s) && HasHttpScheme(url.s) && (footer.VStr? ==> |footer.s| <= 60))
    ensures CheckRequiredText(body, "body_text", 1024).Failure? ==> r == CheckRequiredText(body, "body_text", 1024)
    ensures CheckRequiredText(body, "body_text", 1024).Success? && CheckRequiredText(displayText, "display_text", 20).Failure? ==>
              r == CheckRequiredText(displayText, "display_text", 20)
    ensures CheckRequiredText(body, "body_text", 1024).Success? && CheckRequiredText(displayText, "display_text", 20).Success? ==>
              (url.VNil? || (url.VStr? && IsBlankText(url.s)) ==> r == Failure(ArgumentError("url is required"))) &&
              (url.VStr? && !IsBlankText(url.s) && !HasHttpScheme(url.s) ==>
                 r == Failure(ArgumentError("url must start with http:// or https://"))) &&
              (url.VStr? && !IsBlankText(url.s) && HasHttpScheme(url.s) ==> r == CheckFooter(footer))
  {
    var _ :- CheckRequiredText(body, "body_text", 1024);
    var _ :- CheckRequiredText(displayText, "display_text", 20);
    match NilOrBlank(url)
    case None => Failure(TypeFault("undefined method `strip' for url"))
    case Some(blank) =>
      if blank then Failure(ArgumentError("url is required"))
      else if !HasHttpScheme(url.s) then Failure(ArgumentError("url must start with http:// or https://"))
      else CheckFooter(footer)
  }

  /** The scheme check ignores letter case: an upper-case `HTTPS://` address is accepted, and
      another scheme is not. */
  lemma SchemeIgnoresCase()
    ensures HasHttpScheme("HTTPS://example.com")
    ensures !HasHttpScheme("ftp://example.com")
  {
    assert Downcase("HTTPS://example.com")[..8] == "https://";
    assert Downcase("ftp://example.com")[0] == 'f';
  }

  /** `validate_catalog_message_params`: body (≤ 1024), a thumbnail product id that is not blank
      as text, and the footer ≤ 60. */
  function ValidateCatalogMessageParams(body: Value, thumbnail: Value, footer: Value): (r: Result<(), Failure>)
    ensures body.VStr? && (footer.VNil? || footer.VStr?) ==>
              (r.Success? <==> !IsBlankText(body.s) && |body.s| <= 1024 && !thumbnail.VNil? &&
                               !IsBlankText(Render(thumbnail)) && (footer.VStr? ==> |footer.s| <= 60))
    ensures CheckRequiredText(body, "body_text", 1024).Failure? ==> r == CheckRequiredText(body, "body_text", 1024)
    ensures CheckRequiredText(body, "body_text", 1024).Success? && (thumbnail.VNil? || IsBlankText(Render(thumbnail))) ==>
              r == Failure(ArgumentError("thumbnail_product_retailer_id is required"))
    ensures CheckRequiredText(body, "body_text", 1024).Success? && !thumbnail.VNil? && !IsBlankText(Render(thumbnail)) ==>
              r == CheckFooter(footer)
  {
    var _ :- CheckRequiredText(body, "body_text", 1024);
    if thumbnail.VNil? || IsBlankText(Render(thumbnail)) then Failure(ArgumentError("thumbnail_product_retailer_id is required"))
    else CheckFooter(footer)
  }

  // ---------------------------------------------------------------- interactive messages

  /** The entries of an interactive object: its type and action, and the body, header and
      footer given (`None` for one left out). */
  function InteractiveMap(t: string, body: Option<Value>, action: Value, header: Option<Value>, footer: Option<Value>): map<Key, Value> {
    With(With(With(map[KSym("type") := VStr(t), KSym("action") := action], KSym("body"), body), KSym("header"), header),
         KSym("footer"), footer)
  }

  ghost predicate InteractiveShape(v: Value, t: string, body: Option<Value>, action: Value, header: Option<Value>, footer: Option<Value>) {
    v.VHash? && Holds(v.fields, InteractiveMap(t, body, action, header, footer))
  }

  /** `{text: x}` */
  function TextOf(x: Value): Value { VHash([(KSym("text"), x)]) }

  /** The footer of button and list messages: a string is wrapped as `{text:}`, anything else
      is sent as given. */
  function FooterObject(footer: Value): (v: Value)
    ensures footer.VStr? ==> v == TextOf(footer)
    ensures !footer.VStr? ==> v == footer
  {
    if footer.VStr? then TextOf(footer) else footer
  }

  /** `{type:, body:, action:}`, then `[:header] = …` and `[:footer] = …` when given: the object
      of every interactive message except flows. */
  function Interactive(t: string, body: Value, action: Value, header: Option<Value>, footer: Option<Value>): (v: Value)
    ensures InteractiveShape(v, t, Some(body), action, header, footer)
  {
    var o := [(KSym("type"), VStr(t)), (KSym("body"), body), (KSym("action"), action)];
    Hash3(KSym("type"), VStr(t), KSym("body"), body, KSym("action"), action);
    var m := map[KSym("type") := VStr(t), KSym("body") := body, KSym("action") := action];
    assert m == With(map[KSym("type") := VStr(t), KSym("action") := action], KSym("body"), Some(body));
    var o1 := PutOpt(o, KSym("header"), header);
    PutOptHolds(o, m, KSym("header"), header);
    PutOptHolds(o1, With(m, KSym("header"), header), KSym("footer"), footer);
    VHash(PutOpt(o1, KSym("footer"), footer))
  }

  /** `send_interactive_buttons`: 1 to 3 buttons (the upper bound is checked first), then the
      header when one is given. */
  function SendInteractiveButtons(phoneNumberId: Value, to: Value, bodyText: Value, buttons: Value, header: Value,
                                  footer: Value, context: Value, biz: Value): (r: Result<ApiCall, Failure>)
    ensures buttons.VArr? && |buttons.items| > 3 ==>
              r == Failure(ArgumentError("Maximum 3 buttons allowed (current: " + NatToString(|buttons.items|) + ")"))
    ensures buttons.VArr? && |buttons.items| == 0 ==> r == Failure(ArgumentError("At least 1 button is required"))
    ensures buttons.VArr? && 1 <= |buttons.items| <= 3 ==>
              (r.Success? <==> !Truthy(header) || ValidateInteractiveHeader(header).Success?)
    ensures r.Success? ==>
              MessageShape(r.value, phoneNumberId, to, "interactive", VStr("individual"), context, biz,
                           Interactive("button", TextOf(bodyText), VHash([(KSym("buttons"), buttons)]),
                                       When(Truthy(header), header), When(Truthy(footer), FooterObject(footer))))
  {
    match Length(buttons)
    case None => Failure(TypeFault("undefined method `length' for buttons"))
    case Some(n) =>
      if n > 3 then Failure(ArgumentError("Maximum 3 buttons allowed (current: " + NatToString(n) + ")"))
      else if n == 0 then Failure(ArgumentError("At least 1 button is required"))
      else
        var _ :- if Truthy(header) then ValidateInteractiveHeader(header) else Success(());
        Send(phoneNumberId, to, "interactive", VStr("individual"), context, biz,
             Success(Interactive("button", TextOf(bodyText), VHash([(KSym("buttons"), buttons)]),
                                 When(Truthy(header), header), When(Truthy(footer), FooterObject(footer)))))
  }

  /** The rows of one section: `section[:rows] || section['rows'] || []`, counted by `length`. */
  function SectionRows(section: Value): (r: Option<nat>)
    ensures section.VHash? && !Truthy(Dual(section, "rows").value) ==> r == Some(0)
    ensures section.VHash? && Dual(section, "rows").value.VArr? ==> r == Some(|Dual(section, "rows").value.items|)
    ensures !section.VHash? ==> r.None?
  {
    match Dual(section, "rows")
    case None => None
    case Some(rows) => Length(Or(rows, VArr([])))
  }

  /** `sections.sum { … }`: None when a section cannot be counted (the source raises). */
  function TotalRows(sections: seq<Value>): (r: Option<nat>)
    ensures r.Some? <==> forall i :: 0 <= i < |sections| ==> SectionRows(sections[i]).Some?
  {
    if sections == [] then Some(0)
    else
      var init := TotalRows(sections[..|sections| - 1]);
      assert init.Some? <==> forall i :: 0 <= i < |sections| - 1 ==> SectionRows(sections[i]).Some? by {
        assert forall i :: 0 <= i < |sections| - 1 ==> sections[..|sections| - 1][i] == sections[i];
      }
      match (init, SectionRows(sections[|sections| - 1]))
      case (Some(a), Some(b)) => Some(a + b)
      case _ => None
  }

  /** The header check of list messages: only a text header (or one without a type) is
      accepted, and a typed one must pass the text header rules. */
  function ValidateListHeader(header: Value): (r: Result<(), Failure>)
    ensures !Truthy(header) ==> r.Success?
    ensures header.VHash? && !Dual(header, "type").value.VNil? && Render(Dual(header, "type").value) != "text" ==>
              r == Failure(ArgumentError("List messages only support text headers (received: " +
                                         Render(Dual(header, "type").value) + ")"))
    ensures header.VHash? && Dual(header, "type").value.VNil? ==> r.Success?
    ensures header.VHash? && !Dual(header, "type").value.VNil? && Render(Dual(header, "type").value) == "text" ==>
              r == ValidateTextHeader(header)
  {
    if !Truthy(header) then Success(())
    else
      match Dual(header, "type")
      case None => Failure(TypeFault("undefined method `[]' for the header"))
      case Some(ht) =>
        if !(ht.VNil? || Render(ht) == "text") then
          Failure(ArgumentError("List messages only support text headers (received: " + Render(ht) + ")"))
        else if Truthy(ht) then ValidateTextHeader(header)
        else Success(())
  }

  /** The body length check of list messages lets through at most 4096 characters. */
  function CheckListBody(bodyText: Value): (r: Result<(), Failure>)
    ensures bodyText.VStr? ==> (r.Success? <==> |bodyText.s| <= 4096)
    ensures bodyText.VStr? && |bodyText.s| > 4096 ==>
              r == Failure(ArgumentError("Body text max 4096 characters (current: " + NatToString(|bodyText.s|) + ")"))
  {
    match Length(bodyText)
    case None => Failure(TypeFault("undefined method `length' for body_text"))
    case Some(n) =>
      if n > 4096 then Failure(ArgumentError("Body text max 4096 characters (current: " + NatToString(n) + ")"))
      else Success(())
  }

  /** What `sections.sum { … }` returns: an Array adds up its sections' rows; a Hash hands the
      block `[key, value]` pairs, on which `[:rows]` raises, so only an empty one sums (to 0); a
      String ignores the block and returns its `String#sum` checksum; nothing else has `sum`. */
  function RowTotal(sections: Value): Option<nat> {
    match sections
    case VArr(items) => TotalRows(items)
    case VHash(f) => if f == [] then Some(0) else None
    case VStr(text) => Some(StringSum(text))
    case _ => None
  }

  function TooManyRows(n: nat): Failure {
    ArgumentError("Maximum 10 rows total across all sections (current: " + NatToString(n) + ")")
  }

  const NoRows := ArgumentError("At least 1 row is required")

  /** The row count check of list messages: the total must be 1 to 10. */
  function CheckRows(sections: Value): (r: Result<(), Failure>)
    ensures sections.VArr? && TotalRows(sections.items).Some? ==>
              var n := TotalRows(sections.items).value;
              (r.Success? <==> 1 <= n <= 10) && (n > 10 ==> r == Failure(TooManyRows(n))) && (n == 0 ==> r == Failure(NoRows))
    ensures sections.VArr? && TotalRows(sections.items).None? ==> r.Failure? && r.error.TypeFault?
    ensures sections.VHash? ==> r.Failure? && (sections.fields == [] <==> r == Failure(NoRows))
    ensures sections.VStr? ==>
              var n := StringSum(sections.s);
              (r.Success? <==> 1 <= n <= 10) && (n > 10 ==> r == Failure(TooManyRows(n))) && (n == 0 ==> r == Failure(NoRows))
    ensures !sections.VArr? && !sections.VHash? && !sections.VStr? ==> r.Failure? && r.error.TypeFault?
    ensures r.Success? ==>
              (sections.VArr? && 1 <= TotalRows(sections.items).GetOr(0) <= 10) ||
              (sections.VStr? && 1 <= StringSum(sections.s) <= 10)
  {
    match RowTotal(sections)
    case None =>
      if sections.VArr? || sections.VHash? then Failure(TypeFault("no implicit conversion of Symbol into Integer"))
      else Failure(TypeFault("undefined method `sum' for sections"))
    case Some(n) =>
      if n > 10 then Failure(TooManyRows(n))
      else if n == 0 then Failure(NoRows)
      else Success(())
  }

  /** A String `sections` is counted by its checksum: `"ab"` reads as 195 rows. */
  lemma StringSectionsChecksum()
    ensures CheckRows(VStr("ab")) == Failure(TooManyRows(195))
  {
    assert RowTotal(VStr("ab")) == Some(195) by {
      assert "ab"[..1] == "a" && "a"[..0] == "";
    }
  }

  /** `send_interactive_list`: body at most 4096 characters, 1 to 10 rows over all sections,
      a text header only. */
  function SendInteractiveList(phoneNumberId: Value, to: Value, bodyText: Value, buttonText: Value, sections: Value,
                               header: Value, footer: Value, context: Value, biz: Value): (r: Result<ApiCall, Failure>)
    ensures CheckListBody(bodyText).Failure? ==> r == Failure(CheckListBody(bodyText).error)
    ensures CheckListBody(bodyText).Success? && CheckRows(sections).Failure? ==> r == Failure(CheckRows(sections).error)
    ensures CheckListBody(bodyText).Success? && CheckRows(sections).Success? ==>
              (r.Success? <==> ValidateListHeader(header).Success?)
    ensures r.Success? ==>
              MessageShape(r.value, phoneNumberId, to, "interactive", VStr("individual"), context, biz,
                           Interactive("list", TextOf(bodyText),
                                       VHash([(KSym("button"), buttonText), (KSym("sections"), sections)]),
                                       When(Truthy(header), header), When(Truthy(footer), FooterObject(footer))))
  {
    var _ :- CheckListBody(bodyText);
    var _ :- CheckRows(sections);
    var _ :- ValidateListHeader(header);
    Send(phoneNumberId, to, "interactive", VStr("individual"), context, biz,
         Success(Interactive("list", TextOf(bodyText), VHash([(KSym("button"), buttonText), (KSym("sections"), sections)]),
                             When(Truthy(header), header), When(Truthy(footer), FooterObject(footer)))))
  }

  /** A body of exactly 4096 characters passes the length check; one more character fails it. */
  lemma ListBodyBoundary(s: string)
    requires |s| == 4096
    ensures CheckListBody(VStr(s)).Success?
    ensures CheckListBody(VStr(s + "x")) == Failure(ArgumentError("Body text max 4096 characters (current: " + "4097" + ")"))
  {
    assert NatToString(4) == "4";
    assert NatToString(40) == "40";
    assert NatToString(409) == "409";
    assert NatToString(4097) == "4097";
    assert |s + "x"| == 4097;
  }

  /** The fixed part of the flow action parameters: version `'3'` and the given fields. */
  function FlowParams(flowId: Value, flowCta: Value, flowToken: Value, flowAction: Value, mode: Value): map<Key, Value> {
    map[KSym("flow_message_version") := VStr("3"), KSym("flow_token") := flowToken, KSym("flow_id") := flowId,
        KSym("flow_cta") := flowCta, KSym("flow_action") := flowAction, KSym("mode") := mode]
  }

  /** The flow action parameters of `send_flow`: the fixed part, the caller's payload when
      truthy, and for a `navigate` action with a screen, that screen stored into the payload
      (`||= {}` first, so a new hash when none was given). */
  function FlowAction(flowId: Value, flowCta: Value, flowToken: Value, screen: Value, flowAction: Value, mode: Value,
                      flowActionPayload: Value): (r: Result<Value, Failure>)
    ensures r.Success? ==> r.value.VHash?
    ensures !(flowAction == VStr("navigate") && Truthy(screen)) ==>
              r.Success? &&
              Holds(r.value.fields, With(FlowParams(flowId, flowCta, flowToken, flowAction, mode), KSym("flow_action_payload"),
                                         When(Truthy(flowActionPayload), flowActionPayload)))
    ensures flowAction == VStr("navigate") && Truthy(screen) && !Truthy(flowActionPayload) ==>
              r.Success? &&
              Holds(r.value.fields, FlowParams(flowId, flowCta, flowToken, flowAction, mode)
                                      [KSym("flow_action_payload") := VHash([(KSym("screen"), screen)])])
    ensures flowAction == VStr("navigate") && Truthy(screen) && flowActionPayload.VHash? ==>
              r.Success? &&
              Holds(r.value.fields, FlowParams(flowId, flowCta, flowToken, flowAction, mode)
                                      [KSym("flow_action_payload") := VHash(Put(flowActionPayload.fields, KSym("screen"), screen))])
    ensures flowAction == VStr("navigate") && Truthy(screen) && Truthy(flowActionPayload) && !flowActionPayload.VHash? ==>
              r.Failure?
  {
    var f1 := FixedFlowAction(flowId, flowCta, flowToken, flowAction, mode, flowActionPayload);
    if !(flowAction == VStr("navigate") && Truthy(screen)) then Success(VHash(f1))
    else
      var payload := Or(At(f1, KSym("flow_action_payload")), VHash([]));
      StoreScreen(f1, FlowParams(flowId, flowCta, flowToken, flowAction, mode),
                  When(Truthy(flowActionPayload), flowActionPayload), screen);
      if !payload.VHash? then Failure(TypeFault("undefined method `[]=' for the flow action payload"))
      else Success(VHash(Put(f1, KSym("flow_action_payload"), VHash(Put(payload.fields, KSym("screen"), screen)))))
  }

  /** The fixed flow action parameters, then the caller's payload when it is truthy. */
  function FixedFlowAction(flowId: Value, flowCta: Value, flowToken: Value, flowAction: Value, mode: Value,
                           flowActionPayload: Value): (f: Fields)
    ensures KSym("flow_action_payload") !in FlowParams(flowId, flowCta, flowToken, flowAction, mode)
    ensures Holds(f, With(FlowParams(flowId, flowCta, flowToken, flowAction, mode), KSym("flow_action_payload"),
                          When(Truthy(flowActionPayload), flowActionPayload)))
  {
    var given := When(Truthy(flowActionPayload), flowActionPayload);
    PayloadKeyFree(flowId, flowCta, flowToken, flowAction, mode);
    FlowParamsHeld(flowId, flowCta, flowToken, flowAction, mode);
    PutOptHolds(FlowParamEntries(flowId, flowCta, flowToken, flowAction, mode), FlowParams(flowId, flowCta, flowToken, flowAction, mode),
                KSym("flow_action_payload"), given);
    PutOpt(FlowParamEntries(flowId, flowCta, flowToken, flowAction, mode), KSym("flow_action_payload"), given)
  }

  /** The fixed part of the flow action parameters in the order the source writes them. */
  function FlowParamEntries(flowId: Value, flowCta: Value, flowToken: Value, flowAction: Value, mode: Value): Fields {
    [(KSym("flow_message_version"), VStr("3")), (KSym("flow_token"), flowToken), (KSym("flow_id"), flowId),
     (KSym("flow_cta"), flowCta), (KSym("flow_action"), flowAction), (KSym("mode"), mode)]
  }

  /** The payload key is not among the fixed ones. */
  lemma PayloadKeyFree(flowId: Value, flowCta: Value, flowToken: Value, flowAction: Value, mode: Value)
    ensures KSym("flow_action_payload") !in FlowParams(flowId, flowCta, flowToken, flowAction, mode)
  {
    FlowKeysDistinct();
  }

  /** The entries hold the fixed part. */
  lemma FlowParamsHeld(flowId: Value, flowCta: Value, flowToken: Value, flowAction: Value, mode: Value)
    ensures Holds(FlowParamEntries(flowId, flowCta, flowToken, flowAction, mode), FlowParams(flowId, flowCta, flowToken, flowAction, mode))
  {
    FlowKeysDistinct();
    Hash6(KSym("flow_message_version"), VStr("3"), KSym("flow_token"), flowToken, KSym("flow_id"), flowId,
          KSym("flow_cta"), flowCta, KSym("flow_action"), flowAction, KSym("mode"), mode);
  }

  /** The flow action keys differ from each other, as their lengths already show. */
  lemma FlowKeysDistinct()
    ensures var ks := [KSym("flow_message_version"), KSym("flow_token"), KSym("flow_id"), KSym("flow_cta"),
                       KSym("flow_action"), KSym("mode"), KSym("flow_action_payload")];
      forall i, j :: 0 <= i < j < |ks| ==> ks[i] != ks[j]
  {
    var ks := [KSym("flow_message_version"), KSym("flow_token"), KSym("flow_id"), KSym("flow_cta"),
               KSym("flow_action"), KSym("mode"), KSym("flow_action_payload")];
    var lengths := [20, 10, 7, 8, 11, 4, 19];
    assert forall i :: 0 <= i < |ks| ==> |ks[i].name| == lengths[i];
  }

  /** `action_params[:flow_action_payload] ||= {}` and then `[:screen] = screen`: the payload
      read back is the one stored by the optional step (an empty hash when there was none), and
      storing the screen into it replaces that entry. */
  lemma StoreScreen(f1: Fields, m0: map<Key, Value>, given: Option<Value>, screen: Value)
    requires KSym("flow_action_payload") !in m0
    requires Holds(f1, With(m0, KSym("flow_action_payload"), given))
    ensures given.Some? ==> At(f1, KSym("flow_action_payload")) == given.value
    ensures given.None? ==> At(f1, KSym("flow_action_payload")) == VNil
    ensures Put([], KSym("screen"), screen) == [(KSym("screen"), screen)]
    ensures forall v :: Holds(Put(f1, KSym("flow_action_payload"), v), m0[KSym("flow_action_payload") := v])
  {
    var m1 := With(m0, KSym("flow_action_payload"), given);
    HoldsLookup(f1, m1, KSym("flow_action_payload"));
    assert !HasKey([], KSym("screen"));
    forall v ensures Holds(Put(f1, KSym("flow_action_payload"), v), m0[KSym("flow_action_payload") := v]) {
      PutHolds(f1, m1, KSym("flow_action_payload"), v);
      if given.Some? {
        assert m1[KSym("flow_action_payload") := v] == m0[KSym("flow_action_payload") := given.value][KSym("flow_action_payload") := v];
      }
    }
  }

  /** `{type: 'flow', action:}`, then header, body and footer, each only when given. */
  function FlowObject(action: Value, header: Value, bodyText: Value, footerText: Value): (v: Value)
    ensures InteractiveShape(v, "flow", When(Truthy(bodyText), TextOf(bodyText)), action,
                             When(Truthy(header), header), When(Truthy(footerText), TextOf(footerText)))
  {
    var o := [(KSym("type"), VStr("flow")), (KSym("action"), action)];
    var m := map[KSym("type") := VStr("flow"), KSym("action") := action];
    Hash2(KSym("type"), VStr("flow"), KSym("action"), action);
    var h := When(Truthy(header), header);
    var b := When(Truthy(bodyText), TextOf(bodyText));
    var o1 := PutOpt(o, KSym("header"), h);
    PutOptHolds(o, m, KSym("header"), h);
    var o2 := PutOpt(o1, KSym("body"), b);
    PutOptHolds(o1, With(m, KSym("header"), h), KSym("body"), b);
    WithSwap(m, KSym("header"), h, KSym("body"), b);
    PutOptHolds(o2, With(With(m, KSym("body"), b), KSym("header"), h), KSym("footer"), When(Truthy(footerText), TextOf(footerText)));
    VHash(PutOpt(o2, KSym("footer"), When(Truthy(footerText), TextOf(footerText))))
  }

  /** `send_flow`: the base payload, the flow action, then the object. */
  function SendFlow(phoneNumberId: Value, to: Value, flowId: Value, flowCta: Value, flowToken: Value, screen: Value,
                    flowAction: Value, mode: Value, flowActionPayload: Value, header: Value, bodyText: Value,
                    footerText: Value, context: Value, biz: Value): (r: Result<ApiCall, Failure>)
    ensures r.Success? <==> FlowAction(flowId, flowCta, flowToken, screen, flowAction, mode, flowActionPayload).Success?
    ensures r.Success? ==>
              MessageShape(r.value, phoneNumberId, to, "interactive", VStr("individual"), context, biz,
                           FlowObject(FlowAction(flowId, flowCta, flowToken, screen, flowAction, mode, flowActionPayload).value,
                                      header, bodyText, footerText))
  {
    var action := FlowAction(flowId, flowCta, flowToken, screen, flowAction, mode, flowActionPayload);
    Send(phoneNumberId, to, "interactive", VStr("individual"), context, biz,
         if action.Failure? then Failure(action.error) else Success(FlowObject(action.value, header, bodyText, footerText)))
  }

  /** `send_interactive_cta_url`: the parameters are checked first, the header (when given) after
      the base payload. */
  function SendInteractiveCtaUrl(phoneNumberId: Value, to: Value, bodyText: Value, displayText: Value, url: Value,
                                 header: Value, footerText: Value, context: Value, biz: Value): (r: Result<ApiCall, Failure>)
    ensures ValidateCtaUrlParams(bodyText, displayText, url, footerText).Failure? ==>
              r == Failure(ValidateCtaUrlParams(bodyText, displayText, url, footerText).error)
    ensures ValidateCtaUrlParams(bodyText, displayText, url, footerText).Success? ==>
              (r.Success? <==> !Truthy(header) || ValidateInteractiveHeader(header).Success?)
    ensures r.Success? ==>
              MessageShape(r.value, phoneNumberId, to, "interactive", VStr("individual"), context, biz,
                           Interactive("cta_url", TextOf(bodyText),
                                       VHash([(KSym("name"), VStr("cta_url")),
                                              (KSym("parameters"), VHash([(KSym("display_text"), displayText), (KSym("url"), url)]))]),
                                       When(Truthy(header), header), When(Truthy(footerText), TextOf(footerText))))
  {
    var _ :- ValidateCtaUrlParams(bodyText, displayText, url, footerText);
    var obj := Interactive("cta_url", TextOf(bodyText),
                           VHash([(KSym("name"), VStr("cta_url")),
                                  (KSym("parameters"), VHash([(KSym("display_text"), displayText), (KSym("url"), url)]))]),
                           When(Truthy(header), header), When(Truthy(footerText), TextOf(footerText)));
    Send(phoneNumberId, to, "interactive", VStr("individual"), context, biz,
         if Truthy(header) && ValidateInteractiveHeader(header).Failure? then Failure(ValidateInteractiveHeader(header).error)
         else Success(obj))
  }

  /** `send_interactive_catalog_message`: no header; the thumbnail product goes in the parameters. */
  function SendInteractiveCatalogMessage(phoneNumberId: Value, to: Value, bodyText: Value, thumbnail: Value,
                                         footerText: Value, context: Value, biz: Value): (r: Result<ApiCall, Failure>)
    ensures r.Success? <==> ValidateCatalogMessageParams(bodyText, thumbnail, footerText).Success?
    ensures r.Failure? ==> r.error == ValidateCatalogMessageParams(bodyText, thumbnail, footerText).error
    ensures r.Success? ==>
              MessageShape(r.value, phoneNumberId, to, "interactive", VStr("individual"), context, biz,
                           Interactive("catalog_message", TextOf(bodyText),
                                       VHash([(KSym("name"), VStr("catalog_message")),
                                              (KSym("parameters"), VHash([(KSym("thumbnail_product_retailer_id"), thumbnail)]))]),
                                       None, When(Truthy(footerText), TextOf(footerText))))
  {
    var _ :- ValidateCatalogMessageParams(bodyText, thumbnail, footerText);
    Send(phoneNumberId, to, "interactive", VStr("individual"), context, biz,
         Success(Interactive("catalog_message", TextOf(bodyText),
                             VHash([(KSym("name"), VStr("catalog_message")),
                                    (KSym("parameters"), VHash([(KSym("thumbnail_product_retailer_id"), thumbnail)]))]),
                             None, When(Truthy(footerText), TextOf(footerText)))))
  }

  /** `send_interactive_location_request`: no parameter checks; the header is checked when given. */
  function SendInteractiveLocationRequest(phoneNumberId: Value, to: Value, bodyText: Value, header: Value,
                                          footerText: Value, context: Value, biz: Value): (r: Result<ApiCall, Failure>)
    ensures r.Success? <==> !Truthy(header) || ValidateInteractiveHeader(header).Success?
    ensures r.Success? ==>
              MessageShape(r.value, phoneNumberId, to, "interactive", VStr("individual"), context, biz,
                           Interactive("location_request_message", TextOf(bodyText), VHash([(KSym("name"), VStr("send_location"))]),
                                       When(Truthy(header), header), When(Truthy(footerText), TextOf(footerText))))
  {
    var obj := Interactive("location_request_message", TextOf(bodyText), VHash([(KSym("name"), VStr("send_location"))]),
                           When(Truthy(header), header), When(Truthy(footerText), TextOf(footerText)));
    Send(phoneNumberId, to, "interactive", VStr("individual"), context, biz,
         if Truthy(header) && ValidateInteractiveHeader(header).Failure? then Failure(ValidateInteractiveHeader(header).error)
         else Success(obj))
  }

  // ---------------------------------------------------------------- status and history

  /** `mark_read`: a read receipt for one message; the reply is read as a `GraphSuccessResponse`. */
  function MarkRead(phoneNumberId: Value, messageId: Value): (call: ApiCall)
    ensures MessageCall(call, phoneNumberId, map[KSym("messaging_product") := VStr("whatsapp"), KSym("status") := VStr("read"),
                                                 KSym("message_id") := messageId])
  {
    Hash3(KSym("messaging_product"), VStr("whatsapp"), KSym("status"), VStr("read"), KSym("message_id"), messageId);
    JsonCall(POST, Render(phoneNumberId) + "/messages", None,
             JsonBody(VHash([(KSym("messaging_product"), VStr("whatsapp")), (KSym("status"), VStr("read")),
                             (KSym("message_id"), messageId)])))
  }

  /** `send_typing_indicator`: a literal payload that has the shape of a text message to an
      individual, without context or callback data, whose text carries the indicator; the reply
      is read as a `GraphSuccessResponse`. */
  function SendTypingIndicator(phoneNumberId: Value, to: Value): (call: ApiCall)
    ensures MessageShape(call, phoneNumberId, to, "text", VStr("individual"), VNil, VNil,
                         VHash([(KSym("typing_indicator"), VHash([(KSym("type"), VStr("text"))]))]))
  {
    var text := VHash([(KSym("typing_indicator"), VHash([(KSym("type"), VStr("text"))]))]);
    Hash5(KSym("messaging_product"), VStr("whatsapp"), KSym("recipient_type"), VStr("individual"),
          KSym("to"), to, KSym("type"), VStr("text"), KSym("text"), text);
    JsonCall(POST, Render(phoneNumberId) + "/messages", None,
             JsonBody(VHash([(KSym("messaging_product"), VStr("whatsapp")), (KSym("recipient_type"), VStr("individual")),
                             (KSym("to"), to), (KSym("type"), VStr("text")), (KSym("text"), text)])))
  }

  /** The filters of `query`, before `compact`. */
  function QueryFilters(phoneNumberId: Value, direction: Value, status: Value, since: Value, untilTime: Value,
                        conversationId: Value, limit: Value, after: Value, before: Value, fields: Value): Fields {
    [(KSym("phone_number_id"), phoneNumberId)] +
    [(KSym("direction"), direction), (KSym("status"), status), (KSym("since"), since), (KSym("until"), untilTime)] +
    PagingFilters(conversationId, limit, after, before, fields)
  }

  /** The trailing filters of `query`: the conversation and the paging parameters. */
  function PagingFilters(conversationId: Value, limit: Value, after: Value, before: Value, fields: Value): Fields {
    [(KSym("conversation_id"), conversationId), (KSym("limit"), limit), (KSym("after"), after), (KSym("before"), before),
     (KSym("fields"), fields)]
  }

  /** `query` (message history, proxy only): a GET of `<phone_number_id>/messages` with the
      non-nil filters, `until_time` sent as `until`; the reply is a paged response. */
  function Query(c: Client, phoneNumberId: Value, direction: Value, status: Value, since: Value, untilTime: Value,
                 conversationId: Value, limit: Value, after: Value, before: Value, fields: Value): (r: Result<ApiCall, Failure>)
    ensures r.Failure? <==> !c.kapsoProxy
    ensures r.Failure? ==> r.error == ProxyRequired("Message history API")
    ensures r.Success? ==>
              r.value.verb == GET && r.value.path == Render(phoneNumberId) + "/messages" && r.value.body == NoBody &&
              r.value.query.Some? &&
              forall e :: e in r.value.query.value <==>
                e in QueryFilters(phoneNumberId, direction, status, since, untilTime, conversationId, limit, after, before, fields) &&
                !e.1.VNil?
  {
    var _ :- RequireProxy(c, "Message history API");
    Success(JsonCall(GET, Render(phoneNumberId) + "/messages",
                     Some(Compact(QueryFilters(phoneNumberId, direction, status, since, untilTime, conversationId, limit, after, before, fields))),
                     NoBody))
  }

  /** The filters `list_by_conversation` passes on, in `query`'s order. */
  function ConversationQuery(phoneNumberId: Value, conversationId: Value, limit: Value, after: Value, before: Value,
                             fields: Value): Fields {
    [(KSym("phone_number_id"), phoneNumberId)] + PagingFilters(conversationId, limit, after, before, fields)
  }

  /** `list_by_conversation`: `query` with only the conversation and paging filters, so the
      direction, status and time filters are never sent. */
  function ListByConversation(c: Client, phoneNumberId: Value, conversationId: Value, limit: Value, after: Value,
                              before: Value, fields: Value): (r: Result<ApiCall, Failure>)
    ensures r.Failure? <==> !c.kapsoProxy
    ensures r.Success? ==>
              r.value.verb == GET && r.value.path == Render(phoneNumberId) + "/messages" &&
              r.value.query == Some(Compact(ConversationQuery(phoneNumberId, conversationId, limit, after, before, fields)))
    ensures r.Success? ==>
              !HasKey(r.value.query.value, KSym("direction")) && !HasKey(r.value.query.value, KSym("status")) &&
              (Truthy(conversationId) ==> (KSym("conversation_id"), conversationId) in r.value.query.value)
  {
    ConversationFilters(phoneNumberId, conversationId, limit, after, before, fields);
    NoDirectionOrStatus(phoneNumberId, conversationId, limit, after, before, fields);
    Query(c, phoneNumberId, VNil, VNil, VNil, VNil, conversationId, limit, after, before, fields)
  }

  lemma ConversationFilters(phoneNumberId: Value, conversationId: Value, limit: Value, after: Value, before: Value, fields: Value)
    ensures Compact(QueryFilters(phoneNumberId, VNil, VNil, VNil, VNil, conversationId, limit, after, before, fields)) ==
            Compact(ConversationQuery(phoneNumberId, conversationId, limit, after, before, fields))
  {
    var head := [(KSym("phone_number_id"), phoneNumberId)];
    var unset := [(KSym("direction"), VNil), (KSym("status"), VNil), (KSym("since"), VNil), (KSym("until"), VNil)];
    var tail := PagingFilters(conversationId, limit, after, before, fields);
    CompactAppend(head + unset, tail);
    CompactAppend(head, unset);
    CompactAppend(head, tail);
    assert Compact(unset) == [];
  }

  lemma NoDirectionOrStatus(phoneNumberId: Value, conversationId: Value, limit: Value, after: Value, before: Value, fields: Value)
    ensures var q := Compact(ConversationQuery(phoneNumberId, conversationId, limit, after, before, fields));
      !HasKey(q, KSym("direction")) && !HasKey(q, KSym("status")) &&
      (Truthy(conversationId) ==> (KSym("conversation_id"), conversationId) in q)
  {
    var few := ConversationQuery(phoneNumberId, conversationId, limit, after, before, fields);
    CompactDropsNil(few, KSym("direction"));
    CompactDropsNil(few, KSym("status"));
    assert few[1] == (KSym("conversation_id"), conversationId);
  }
}

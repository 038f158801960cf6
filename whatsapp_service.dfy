/** The messaging-app service: phone-number normalisation, the three send functions, the
    dispatcher that resolves the API key through the cache before routing on the message
    type, and the decision logic of the integration setup. */
module WhatsAppService {
  import opened Wrappers
  import opened PyValues
  import opened Text
  import opened Connector
  import CredentialCache

  /** Fewest digits a phone number may keep after normalisation. */
  const MinDigits: nat := 10

  const EmptyPhone: string := "Phone number cannot be empty"

  function TooShort(phone: string): string {
    "Phone number " + phone + " is too short. It should include country code and at least 10 digits."
  }

  /** `validate_phone_number`: `Ok` carries the digits-only form the connector expects. */
  function ValidatePhoneNumber(phone: string): (r: Result<string, string>)
    ensures phone == "" ==> r == Err(EmptyPhone)
    ensures phone != "" && |Digits(phone)| < MinDigits ==> r == Err(TooShort(phone))
    ensures r.Ok? ==> r.value == Digits(phone) && MinDigits <= |r.value|
    ensures r.Ok? ==> AllDigits(r.value) && '+' !in r.value
  {
    if phone == "" then Err(EmptyPhone)
    else
      var cleaned := Digits(phone);
      if |cleaned| < MinDigits then Err(TooShort(phone)) else Ok(cleaned)
  }

  predicate PhoneValid(phone: string) {
    ValidatePhoneNumber(phone).Ok?
  }

  /** A phone number is accepted exactly when it has at least ten digits, whatever else it holds. */
  lemma PhoneValidIffTenDigits(phone: string)
    ensures PhoneValid(phone) <==> MinDigits <= |Digits(phone)|
  {
  }

  /** Re-validating a normalised number gives it back unchanged. */
  lemma ValidateIdempotent(phone: string)
    requires PhoneValid(phone)
    ensures ValidatePhoneNumber(ValidatePhoneNumber(phone).value) == ValidatePhoneNumber(phone)
  {
    DigitsIdempotent(phone);
  }

  /** Punctuation, spaces and a leading '+' do not change the normalised number. */
  lemma ValidateIgnoresPrefix(prefix: string, phone: string)
    requires Digits(prefix) == []
    ensures ValidatePhoneNumber(prefix + phone).Ok? == ValidatePhoneNumber(phone).Ok?
    ensures PhoneValid(phone) ==> ValidatePhoneNumber(prefix + phone).value == ValidatePhoneNumber(phone).value
  {
    DigitsAppend(prefix, phone);
  }

  /** The call each send function makes; `to_number` is the normalised phone. */
  function TextCall(message: string, formatted: string, entity: string): Call {
    Call("WHATSAPP_SEND_MESSAGE", map["to_number" := Str(formatted), "text" := Str(message)], Some(entity))
  }

  function MediaCall(mediaUrl: string, caption: string, formatted: string, entity: string): Call {
    Call("WHATSAPP_SEND_MEDIA",
         map["to_number" := Str(formatted), "media_url" := Str(mediaUrl), "caption" := Str(caption)], Some(entity))
  }

  function TemplateCall(templateName: string, templateParams: Value, formatted: string, entity: string): Call {
    Call("WHATSAPP_SEND_TEMPLATE_MESSAGE",
         map["to_number" := Str(formatted), "template_name" := Str(templateName), "template_params" := templateParams],
         Some(entity))
  }

  const RaisedPrefix: string := "Error using Composio API: "

  /** `send_text_to_whatsapp`; the unused `api_key` argument is not a parameter. */
  function SendText(message: string, phone: string, entity: string, execute: Execute): (r: Outcome)
    ensures !PhoneValid(phone) ==> r == Failed(ValidatePhoneNumber(phone).error)
    ensures r.Succeeded? <==> PhoneValid(phone) && Delivered(execute(TextCall(message, Digits(phone), entity)))
    ensures r.Succeeded? ==> r.message == "Message successfully sent to " + phone
    ensures PhoneValid(phone) && execute(TextCall(message, Digits(phone), entity)).Err? ==>
              r == Failed(RaisedPrefix + execute(TextCall(message, Digits(phone), entity)).error.message)
    ensures PhoneValid(phone) && execute(TextCall(message, Digits(phone), entity)).Ok? && r.Failed? ==>
              r.error == "Failed to send message via Composio: " + ErrorText(execute(TextCall(message, Digits(phone), entity)).value, UnknownFormat)
  {
    match ValidatePhoneNumber(phone)
    case Err(e) => Failed(e)
    case Ok(formatted) =>
      SixWay(execute(TextCall(message, formatted, entity)),
             "Message successfully sent to " + phone, "Failed to send message via Composio: ", RaisedPrefix)
  }

  /** `send_media_to_whatsapp`. */
  function SendMedia(mediaUrl: string, caption: string, phone: string, entity: string, execute: Execute): (r: Outcome)
    ensures !PhoneValid(phone) ==> r == Failed(ValidatePhoneNumber(phone).error)
    ensures r.Succeeded? <==> PhoneValid(phone) && Delivered(execute(MediaCall(mediaUrl, caption, Digits(phone), entity)))
    ensures r.Succeeded? ==> r.message == "Media successfully sent to " + phone
    ensures PhoneValid(phone) && execute(MediaCall(mediaUrl, caption, Digits(phone), entity)).Err? ==>
              r == Failed(RaisedPrefix + execute(MediaCall(mediaUrl, caption, Digits(phone), entity)).error.message)
    ensures PhoneValid(phone) && execute(MediaCall(mediaUrl, caption, Digits(phone), entity)).Ok? && r.Failed? ==>
              r.error == "Failed to send media via Composio: " + ErrorText(execute(MediaCall(mediaUrl, caption, Digits(phone), entity)).value, UnknownFormat)
  {
    match ValidatePhoneNumber(phone)
    case Err(e) => Failed(e)
    case Ok(formatted) =>
      SixWay(execute(MediaCall(mediaUrl, caption, formatted, entity)),
             "Media successfully sent to " + phone, "Failed to send media via Composio: ", RaisedPrefix)
  }

  /** `send_template_to_whatsapp`. */
  function SendTemplate(templateName: string, templateParams: Value, phone: string, entity: string, execute: Execute): (r: Outcome)
    ensures !PhoneValid(phone) ==> r == Failed(ValidatePhoneNumber(phone).error)
    ensures r.Succeeded? <==> PhoneValid(phone) && Delivered(execute(TemplateCall(templateName, templateParams, Digits(phone), entity)))
    ensures r.Succeeded? ==> r.message == "Template message successfully sent to " + phone
    ensures PhoneValid(phone) && execute(TemplateCall(templateName, templateParams, Digits(phone), entity)).Err? ==>
              r == Failed(RaisedPrefix + execute(TemplateCall(templateName, templateParams, Digits(phone), entity)).error.message)
    ensures PhoneValid(phone) && execute(TemplateCall(templateName, templateParams, Digits(phone), entity)).Ok? && r.Failed? ==>
              r.error == "Failed to send template message via Composio: " + ErrorText(execute(TemplateCall(templateName, templateParams, Digits(phone), entity)).value, UnknownFormat)
  {
    match ValidatePhoneNumber(phone)
    case Err(e) => Failed(e)
    case Ok(formatted) =>
      SixWay(execute(TemplateCall(templateName, templateParams, formatted, entity)),
             "Template message successfully sent to " + phone, "Failed to send template message via Composio: ", RaisedPrefix)
  }

  /** A send whose reply fails the checklist reports the reply's error, or the format fallback. */
  lemma SendTextFailureText(message: string, phone: string, entity: string, execute: Execute)
    requires PhoneValid(phone)
    requires execute(TextCall(message, Digits(phone), entity)).Ok?
    requires !Delivered(execute(TextCall(message, Digits(phone), entity)))
    ensures SendText(message, phone, entity, execute)
         == Failed("Failed to send message via Composio: "
                   + ErrorText(execute(TextCall(message, Digits(phone), entity)).value, UnknownFormat))
  {
  }

  const InvalidTypeSuffix: string := ". Must be one of: text, media, template"

  /** The routing of `send_to_whatsapp` once the phone is present and the key resolved. */
  function Dispatch(message: string, phone: string, messageType: string, mediaUrl: string,
                    templateName: string, templateParams: Value, entity: string, execute: Execute): (r: Outcome)
    ensures messageType == "text" ==> r == SendText(message, phone, entity, execute)
    ensures messageType == "media" && mediaUrl == "" ==> r == Failed("Media URL is required for media messages")
    ensures messageType == "media" && mediaUrl != "" ==> r == SendMedia(mediaUrl, message, phone, entity, execute)
    ensures messageType == "template" && (templateName == "" || !Truthy(templateParams))
            ==> r == Failed("Template name and parameters are required for template messages")
    ensures messageType == "template" && templateName != "" && Truthy(templateParams)
            ==> r == SendTemplate(templateName, templateParams, phone, entity, execute)
    ensures messageType !in {"text", "media", "template"}
            ==> r == Failed("Invalid message type: " + messageType + InvalidTypeSuffix)
  {
    if messageType == "text" then SendText(message, phone, entity, execute)
    else if messageType == "media" then
      if mediaUrl == "" then Failed("Media URL is required for media messages")
      else SendMedia(mediaUrl, message, phone, entity, execute)
    else if messageType == "template" then
      if templateName == "" || !Truthy(templateParams) then
        Failed("Template name and parameters are required for template messages")
      else SendTemplate(templateName, templateParams, phone, entity, execute)
    else Failed("Invalid message type: " + messageType + InvalidTypeSuffix)
  }

  /** A dispatch succeeds only for a known message type with its required fields, a valid
      phone, and a reply that passes the checklist. */
  lemma DispatchSuccessNeeds(message: string, phone: string, messageType: string, mediaUrl: string,
                             templateName: string, templateParams: Value, entity: string, execute: Execute)
    requires Dispatch(message, phone, messageType, mediaUrl, templateName, templateParams, entity, execute).Succeeded?
    ensures PhoneValid(phone)
    ensures messageType == "text" || (messageType == "media" && mediaUrl != "")
            || (messageType == "template" && templateName != "" && Truthy(templateParams))
  {
  }

  /** The connector is consulted only when the type, its fields and the phone are all valid:
      otherwise two different connectors give the same outcome. */
  lemma RejectedDispatchIgnoresConnector(message: string, phone: string, messageType: string, mediaUrl: string,
                                         templateName: string, templateParams: Value, entity: string,
                                         e1: Execute, e2: Execute)
    requires !PhoneValid(phone)
          || messageType !in {"text", "media", "template"}
          || (messageType == "media" && mediaUrl == "")
          || (messageType == "template" && (templateName == "" || !Truthy(templateParams)))
    ensures Dispatch(message, phone, messageType, mediaUrl, templateName, templateParams, entity, e1)
         == Dispatch(message, phone, messageType, mediaUrl, templateName, templateParams, entity, e2)
  {
  }

  /** The cache after the key-resolution step of `send_to_whatsapp`: a missing or placeholder
      key is looked up (which may evict), a real key is stored. */
  function ResolvedKeys(m: CredentialCache.Entries, phone: string, apiKey: string, now: int): (m': CredentialCache.Entries)
    ensures !CredentialCache.UsableToken(apiKey) ==> m' == CredentialCache.Looked(m, phone, now).after
    ensures CredentialCache.UsableToken(apiKey) && phone != ""
            ==> phone in m' && m'[phone] == CredentialCache.Entry(apiKey, now + CredentialCache.Lifetime)
    ensures forall k :: k in m' && k != phone ==> k in m && m'[k] == m[k]
    ensures forall k :: k in m && k != phone ==> k in m'
  {
    if !CredentialCache.UsableToken(apiKey) then CredentialCache.Looked(m, phone, now).after
    else CredentialCache.Stored(m, phone, apiKey, now)
  }

  /** `send_to_whatsapp`. The key is resolved before the message type is examined, so a
      real key is cached even when the type later proves invalid. */
  method SendToWhatsApp(cache: CredentialCache.TtlCache, now: int, message: string, phone: string,
                        messageType: string, mediaUrl: string, templateName: string, templateParams: Value,
                        apiKey: string, entity: string, execute: Execute) returns (r: Outcome)
    requires cache.Valid()
    modifies cache
    ensures cache.Valid()
    ensures phone == "" ==> r == Failed("Phone number is required") && cache.entries == old(cache.entries)
    ensures phone != "" ==> cache.entries == ResolvedKeys(old(cache.entries), phone, apiKey, now)
    ensures phone != "" ==> r == Dispatch(message, phone, messageType, mediaUrl, templateName, templateParams, entity, execute)
  {
    if phone == "" {
      return Failed("Phone number is required");
    }
    if !CredentialCache.UsableToken(apiKey) {
      var cached := cache.Get(phone, now);
    } else {
      cache.Store(phone, apiKey, now);
    }
    r := Dispatch(message, phone, messageType, mediaUrl, templateName, templateParams, entity, execute);
  }

  const SetupRaisedPrefix: string := "Error setting up WhatsApp integration: "
  const CreatedText: string := "WhatsApp connection created successfully with your API credentials"

  /** The decision logic of `setup_whatsapp_integration` over the connector's replies:
      `entityRaised` from `get_entity`, `initiated` from `initiate_connection`, and
      `account` from `get_connected_account`, which is consulted only for a reply that has
      no redirect URL but a `connectedAccountId`. */
  function SetupWhatsAppIntegration(entityRaised: Option<Exception>, initiated: Result<Value, Exception>,
                                    account: Result<Value, Exception>): (r: SetupResult)
    ensures entityRaised.Some? ==> r == SetupResult(false, SetupRaisedPrefix + entityRaised.value.message, None)
    ensures r.redirectUrl.Some? <==> entityRaised.None? && initiated.Ok?
                                     && HasAttr(initiated.value, "redirectUrl")
                                     && Truthy(initiated.value.attrs["redirectUrl"])
    ensures r.redirectUrl.Some? ==> r.success && r.redirectUrl.value == initiated.value.attrs["redirectUrl"]
    ensures r.redirectUrl.Some? ==> r.message == "Please complete WhatsApp authentication by opening this URL in your browser"
    ensures entityRaised.None? && initiated.Ok? && !Truthy(initiated.value)
            ==> r == SetupResult(false, "Failed to setup WhatsApp integration", None)
    ensures r.success <==> entityRaised.None? && initiated.Ok? && Truthy(initiated.value)
                           && (r.redirectUrl.None? && HasAttr(initiated.value, "connectedAccountId") ==> account.Ok?)
    ensures entityRaised.None? && initiated.Err? ==> r == SetupResult(false, SetupRaisedPrefix + initiated.error.message, None)
    ensures entityRaised.None? && initiated.Ok? && Truthy(initiated.value) && r.redirectUrl.None?
            && HasAttr(initiated.value, "connectedAccountId") && account.Err?
            ==> r == SetupResult(false, SetupRaisedPrefix + account.error.message, None)
    ensures r.success && r.redirectUrl.None? ==> r.message in {"WhatsApp connection is active", CreatedText}
    ensures entityRaised.None? && initiated.Ok? && Truthy(initiated.value) && r.redirectUrl.None?
            && HasAttr(initiated.value, "connectedAccountId") && account.Ok? && Truthy(account.value)
            && HasAttr(account.value, "status") && account.value.attrs["status"] == Str("ACTIVE")
            ==> r == SetupResult(true, "WhatsApp connection is active", None)
  {
    if entityRaised.Some? then SetupResult(false, SetupRaisedPrefix + entityRaised.value.message, None)
    else match initiated
      case Err(e) => SetupResult(false, SetupRaisedPrefix + e.message, None)
      case Ok(response) =>
        if !Truthy(response) then SetupResult(false, "Failed to setup WhatsApp integration", None)
        else if HasAttr(response, "redirectUrl") && Truthy(response.attrs["redirectUrl"]) then
          SetupResult(true, "Please complete WhatsApp authentication by opening this URL in your browser",
                      Some(response.attrs["redirectUrl"]))
        else if HasAttr(response, "connectedAccountId") then
          match account
          case Err(e) => SetupResult(false, SetupRaisedPrefix + e.message, None)
          case Ok(connection) =>
            if Truthy(connection) && HasAttr(connection, "status") && connection.attrs["status"] == Str("ACTIVE") then
              SetupResult(true, "WhatsApp connection is active", None)
            else
              SetupResult(true, CreatedText, None)
        else
          SetupResult(true, CreatedText, None)
  }

  /** An active connection is reported only when the account lookup was consulted and said ACTIVE. */
  lemma SetupActiveOnlyFromLookup(entityRaised: Option<Exception>, initiated: Result<Value, Exception>,
                                  account: Result<Value, Exception>)
    requires SetupWhatsAppIntegration(entityRaised, initiated, account).message == "WhatsApp connection is active"
    ensures initiated.Ok? && HasAttr(initiated.value, "connectedAccountId")
    ensures account.Ok? && HasAttr(account.value, "status") && account.value.attrs["status"] == Str("ACTIVE")
  {
  }
}

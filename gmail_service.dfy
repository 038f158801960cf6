/** The mail service: the integration setup decision, the tone and prompt of a drafted
    email, and the delivery check of a sent email. */
module GmailService {
  import opened Wrappers
  import opened PyValues
  import opened Text
  import opened Connector

  /** The tone requested of the language model. */
  function Tone(isFormal: bool): (r: string)
    ensures isFormal <==> r == "formal and professional"
    ensures !isFormal <==> r == "friendly and conversational"
  {
    if isFormal then "formal and professional" else "friendly and conversational"
  }

  /** The fixed pieces of the instruction handed to the language model. */
  const PromptOpening: string := "\n        Create a "
  const PromptLead: string := " email message based on this instruction:\n        \""
  const PromptList: string := "\"\n        \n        The email should be:\n        - Clear and concise\n        - "
  const PromptClosing: string :=
    " in tone\n        - Include appropriate greeting and sign-off\n"
    + "        - Include any important details mentioned in the instruction\n"
    + "        - Well-structured with paragraphs as needed\n        \n"
    + "        Return only the email body text, nothing else.\n        "

  /** The instruction: the tone appears twice and the user's prompt once, in double quotes. */
  function EmailPrompt(prompt: string, isFormal: bool): string {
    PromptOpening + Tone(isFormal) + PromptLead + prompt + PromptList + Tone(isFormal) + PromptClosing
  }

  /** The prompt always carries the user's instruction and the chosen tone. */
  lemma PromptCarriesInstructionAndTone(prompt: string, isFormal: bool)
    ensures Contains(EmailPrompt(prompt, isFormal), prompt)
    ensures Contains(EmailPrompt(prompt, isFormal), Tone(isFormal))
  {
    TemplateCarries(PromptOpening, Tone(isFormal), PromptLead, prompt, PromptList, PromptClosing);
  }

  /** The same for any filling of the template's shape. */
  lemma TemplateCarries(o: string, t: string, l: string, p: string, li: string, c: string)
    ensures Contains(o + t + l + p + li + t + c, p)
    ensures Contains(o + t + l + p + li + t + c, t)
  {
    var s := o + t + l + p + li + t + c;
    assert s[|o|..|o| + |t|] == t;
    ContainsAt(s, t, |o|);
    var k := |o| + |t| + |l|;
    assert s[k..k + |p|] == p;
    ContainsAt(s, p, k);
  }

  datatype Draft = Drafted(content: string) | DraftFailed(error: string)

  /** `generate_email`: the model is a parameter, called once with the prompt. */
  function GenerateEmail(prompt: string, isFormal: bool, model: string -> Result<string, Exception>): (r: Draft)
    ensures r.Drafted? <==> model(EmailPrompt(prompt, isFormal)).Ok?
    ensures r.Drafted? ==> r.content == model(EmailPrompt(prompt, isFormal)).value
    ensures r.DraftFailed? ==> r.error == "Error generating email: " + model(EmailPrompt(prompt, isFormal)).error.message
  {
    match model(EmailPrompt(prompt, isFormal))
    case Ok(text) => Drafted(text)
    case Err(e) => DraftFailed("Error generating email: " + e.message)
  }

  /** Formal and friendly drafts are requested with different instructions. */
  lemma TonesDiffer(prompt: string)
    ensures EmailPrompt(prompt, true) != EmailPrompt(prompt, false)
  {
    assert |Tone(true)| == 23 && |Tone(false)| == 27;
  }

  /** The connector call of `send_to_gmail`: no entity is named. */
  function SendCall(recipient: string, subject: string, body: string): (c: Call)
    ensures c.action == "GMAIL_SEND_EMAIL" && c.entity.None?
    ensures c.params.Keys == {"recipient_email", "subject", "body"}
    ensures c.params["recipient_email"] == Str(recipient) && c.params["subject"] == Str(subject)
            && c.params["body"] == Str(body)
  {
    Call("GMAIL_SEND_EMAIL", map["recipient_email" := Str(recipient), "subject" := Str(subject), "body" := Str(body)], None)
  }

  const SendRaisedPrefix: string := "Error using Composio API for Gmail: "

  /** `send_to_gmail`: sent exactly when the reply passes the six-way checklist. */
  function SendToGmail(recipient: string, subject: string, body: string, execute: Execute): (r: Outcome)
    ensures r.Succeeded? <==> Delivered(execute(SendCall(recipient, subject, body)))
    ensures r.Succeeded? ==> r.message == "Email successfully sent to " + recipient
    ensures execute(SendCall(recipient, subject, body)).Err? ==>
              r == Failed(SendRaisedPrefix + execute(SendCall(recipient, subject, body)).error.message)
    ensures execute(SendCall(recipient, subject, body)).Ok? && r.Failed? ==>
              r.error == "Failed to send email: " + ErrorText(execute(SendCall(recipient, subject, body)).value, UnknownFormat)
  {
    SixWay(execute(SendCall(recipient, subject, body)), "Email successfully sent to " + recipient,
           "Failed to send email: ", SendRaisedPrefix)
  }

  /** A reply whose every indicator is false is reported with its own error text. */
  lemma RejectedReplyReportsError(recipient: string, subject: string, body: string, execute: Execute, err: string)
    requires execute(SendCall(recipient, subject, body)) == Ok(Dict(map["error" := Str(err)]))
    requires err != ""
    ensures SendToGmail(recipient, subject, body, execute) == Failed("Failed to send email: " + err)
  {
    var v := Dict(map["error" := Str(err)]);
    assert !Passes(v, Checklist) by {
      PassesIffSomeIndicator(v, Checklist);
      forall k | 0 <= k < |Checklist| ensures !Holds(v, Checklist[k]) {
        assert Checklist[k] in {AttrSuccessfull, AttrSuccess, AttrData, KeySuccessfull, KeySuccess, KeyData};
      }
    }
  }

  const SetupSuccessText: string := "Please complete Gmail authentication by opening this URL in your browser"

  /** `setup_gmail_integration` over the reply of `initiate_connection`: success exactly when
      the reply is truthy and has a `redirectUrl` attribute, whatever that attribute holds. */
  function SetupGmailIntegration(initiated: Result<Value, Exception>): (r: SetupResult)
    ensures r.success <==> initiated.Ok? && Truthy(initiated.value) && HasAttr(initiated.value, "redirectUrl")
    ensures r.success ==> r == SetupResult(true, SetupSuccessText, Some(initiated.value.attrs["redirectUrl"]))
    ensures initiated.Err? ==> r == SetupResult(false, "Error setting up Gmail integration: " + initiated.error.message, None)
    ensures initiated.Ok? && !r.success ==> r == SetupResult(false, "Failed to setup Gmail integration", None)
  {
    match initiated
    case Err(e) => SetupResult(false, "Error setting up Gmail integration: " + e.message, None)
    case Ok(response) =>
      if Truthy(response) && HasAttr(response, "redirectUrl") then
        SetupResult(true, SetupSuccessText, Some(response.attrs["redirectUrl"]))
      else SetupResult(false, "Failed to setup Gmail integration", None)
  }

  /** The active-connection check placed after the early return can never be reached: a
      reply with a connected account but no redirect URL is a failed setup. */
  lemma SetupNeverReportsActive(initiated: Result<Value, Exception>)
    ensures SetupGmailIntegration(initiated).success ==> SetupGmailIntegration(initiated).redirectUrl.Some?
    ensures SetupGmailIntegration(initiated).message != "Gmail connection is active"
  {
  }
}

/** The key check behind the detailed health report. (Start-up itself refuses to run
    without the model and connector keys, so in a running process this check always
    finds them set; the model states every branch regardless.) */
module Validation {
  import opened Wrappers
  import opened Text

  const MissingPrefix: string := "Missing required API keys: "

  /** `validate_api_keys` over the configured keys (an unset key is ""): the model and
      connector keys are required, in that order in the message; the chat bot token is
      optional and only logged. */
  method ValidateApiKeys(geminiKey: string, composioKey: string, slackToken: string)
    returns (valid: bool, error: Option<string>)
    ensures valid <==> geminiKey != "" && composioKey != ""
    ensures valid <==> error.None?
    ensures geminiKey == "" && composioKey != "" ==> error == Some(MissingPrefix + "GEMINI_API_KEY")
    ensures geminiKey != "" && composioKey == "" ==> error == Some(MissingPrefix + "COMPOSIO_API_KEY")
    ensures geminiKey == "" && composioKey == "" ==> error == Some(MissingPrefix + "GEMINI_API_KEY, COMPOSIO_API_KEY")
  {
    var missing: seq<string> := [];
    if geminiKey == "" {
      missing := missing + ["GEMINI_API_KEY"];
    }
    if composioKey == "" {
      missing := missing + ["COMPOSIO_API_KEY"];
    }
    if missing != [] {
      if |missing| == 2 {
        assert missing[1..] == ["COMPOSIO_API_KEY"];
        assert Join(missing, ", ") == "GEMINI_API_KEY" + ", " + "COMPOSIO_API_KEY";
        assert "GEMINI_API_KEY" + ", " + "COMPOSIO_API_KEY" == "GEMINI_API_KEY, COMPOSIO_API_KEY";
      }
      return false, Some(MissingPrefix + Join(missing, ", "));
    }
    return true, None;
  }
}

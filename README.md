# Retailabs.ai messaging back end, modelled in Dafny

Retailabs.ai is a FastAPI back end that sends messages on behalf of a user through four
channels: WhatsApp, Slack, LinkedIn and Gmail. Each channel has a service module. A
service checks its inputs and resolves a credential, either the one given or one cached
in memory for 24 hours. It then calls an action of the Composio tool set and decides
from the reply whether the send went through. The routes turn a service's result
dictionary into a response or an HTTP error, and the detailed health report lists any
missing API keys.

This project models that core:

- **`CredentialCache`** (`credential_cache.dfy`): the per-service credential cache, as
  the class `TtlCache` over a map. `Stored` and `Looked` specify its store and get
  operations, and lemmas state the 24-hour expiry and eviction.
- **`Connector`** (`connector.dfy`): the shared reply handling.
  - The Composio call is a function parameter from a `Call` to a reply or an exception.
  - The six-way `if/elif` success checklist is an ordered list of indicators.
  - The error extraction after a failed check.
  - The three-name action fallback chain the LinkedIn service uses.
- **`WhatsAppService`**: phone normalisation, the three send functions, the dispatcher
  with its cache step, and the setup decision.
- **`SlackService`**:
  - the processing of the `conversations.list` reply, with the loop that caches the
    token per channel;
  - the connector send;
  - the token resolution in front of it.
- **`LinkedInService`**:
  - the token guard and token caching in front of each operation;
  - the fallback chains and the shaping of each reply;
  - the profile loop of the search;
  - the catalogue filter of `list_available_actions`.
- **`GmailService`**: the tone and prompt of a drafted email, the delivery check of a
  sent email, and the setup decision.
- **`ResponseUtils`**, **`Validation`**: `handle_service_result`, `create_response` and
  `validate_api_keys`.
- Support modules:
  - `PyValues`: Python values, truthiness, `hasattr`, `str()`;
  - `Text`: digit filtering, substring test, join;
  - `Wrappers`: `Option`, `Result`.

How the model represents things:

- Python `None` and `""` for an optional string argument are both `""`, because every
  branch of the source treats them alike.
- The wall clock is an explicit `now` in seconds.
- The Composio SDK, the Slack HTTP endpoint and the Gemini model are parameters, so each
  property holds for every reply they could give.

## Model

| member | source | states |
|---|---|---|
| CredentialCache.Stored | src/services/whatsapp_service.py:92-106 | a store with an id, a secret and no placeholder sets the entry to the secret with a 24-hour expiry; any other store changes nothing; other ids are untouched; every entry keeps passing the store guard |
| CredentialCache.Looked | src/services/whatsapp_service.py:108-127 | a get returns the secret exactly when the id is present and not yet expired; an expired entry is deleted and only that one; a missing id changes nothing |
| CredentialCache.StoreThenLookupHit | src/services/slack_service.py:66-101 | a token stored at `now` is returned by every get before `now + 86400` |
| CredentialCache.StoreThenLookupExpired | src/services/linkedin_service.py:67-102 | a get at or after the expiry returns None and leaves the cache as it was before the store, minus that id |
| CredentialCache.RejectedStoreInvisible | src/services/whatsapp_service.py:99 | an empty or placeholder secret is never cached: a later get sees the earlier state |
| CredentialCache.StoreOverwrites | src/services/whatsapp_service.py:101-104 | the last accepted store for an id wins |
| CredentialCache.StoresCommute | src/services/slack_service.py:73-78 | stores under different ids do not interfere |
| CredentialCache.LookupStable | src/services/linkedin_service.py:92-102 | a get repeated at the same time gives the same answer and leaves the same cache |
| CredentialCache.TtlCache.constructor | src/services/whatsapp_service.py:16 | the cache starts empty |
| CredentialCache.TtlCache.Store | src/services/whatsapp_service.py:92-106 | the new cache is `Stored` of the old one, and every entry still passes the guard |
| CredentialCache.TtlCache.Get | src/services/whatsapp_service.py:108-127 | the returned secret and the new cache are `Looked` of the old one |
| Text.Digits | src/services/whatsapp_service.py:143 | keeping only the digits gives a string of digits no longer than the input |
| Text.DigitsAppend | src/services/whatsapp_service.py:143 | the digits of a concatenation are the digits of each part, in order |
| Text.DigitsCounts | src/services/whatsapp_service.py:143 | each digit occurs as often in the result as in the input, and no other character occurs |
| Text.DigitsOfDigits | src/services/whatsapp_service.py:143 | a string of digits is kept unchanged |
| Text.DigitsIdempotent | src/services/whatsapp_service.py:143 | filtering twice is filtering once |
| Text.Join | src/utils/validation.py:29 | joining no parts gives "", joining one part gives that part |
| Text.ContainsAt | src/services/linkedin_service.py:537 | the substring test finds every occurrence, wherever it starts |
| Text.ContainsWitness | src/services/linkedin_service.py:537 | conversely, the substring test holds only when the substring occurs at some position |
| PyValues.GetAttr | src/services/linkedin_service.py:169-170 | `getattr` with a default returns the attribute if present, else the default |
| PyValues.NatToString | src/services/linkedin_service.py:176 | a count renders as a non-empty string of decimal digits, with a leading 0 only for zero |
| PyValues.NatToStringValue | src/services/linkedin_service.py:176 | the digits rendered for a count, read as a decimal number, give back that count |
| Connector.FirstHolding | src/services/whatsapp_service.py:245-258 | the chain picks the first indicator that holds: every earlier one fails, and none holds when it picks none |
| Connector.PassesIffSomeIndicator | src/services/whatsapp_service.py:244-258 | a reply passes exactly when it is truthy and some indicator of the list holds |
| Connector.AttrChecklistNeedsObject | src/services/linkedin_service.py:257-264 | only an object with attributes can pass the three-indicator check; a dict reply never does |
| Connector.AttrChecklistStricter | src/services/linkedin_service.py:257-264 | a reply that passes the three-indicator check also passes the six-indicator one |
| Connector.ErrorText | src/services/whatsapp_service.py:260-268 | the error text is the `error` attribute, else the `error` key, when it is truthy; otherwise the fallback |
| Connector.SixWay | src/services/slack_service.py:287-319 | succeeds exactly when the call did not raise and the reply passes the six-way checklist; otherwise the failure prefix with the reply's error, or the exception prefix with the exception's text |
| Connector.FirstNonRaising | src/services/linkedin_service.py:141-160 | the reply is that of the first name that did not raise, after every earlier one raised; if all raise, the last exception propagates |
| WhatsAppService.ValidatePhoneNumber | src/services/whatsapp_service.py:130-152 | empty is rejected; fewer than 10 digits is rejected with the too-short text; otherwise the result is the digits, at least 10 of them, with no '+' |
| WhatsAppService.PhoneValidIffTenDigits | src/services/whatsapp_service.py:143-147 | a number is accepted exactly when it holds at least 10 digits |
| WhatsAppService.ValidateIdempotent | src/services/whatsapp_service.py:130-152 | validating a normalised number gives it back |
| WhatsAppService.ValidateIgnoresPrefix | src/services/whatsapp_service.py:142-143 | a prefix with no digits, such as '+' or spaces, changes neither acceptance nor the normalised number |
| WhatsAppService.SendText | src/services/whatsapp_service.py:196-277 | an invalid phone fails with the validation text; success exactly when the phone is valid and the reply to the call with the normalised number passes the checklist; the success text names the original number; a raising call fails with "Error using Composio API: " and its text; a failed check reports the reply's error or the format fallback |
| WhatsAppService.SendMedia | src/services/whatsapp_service.py:279-362 | as SendText, for the media call with URL and caption, with the media success and failure texts |
| WhatsAppService.SendTemplate | src/services/whatsapp_service.py:364-447 | as SendText, for the template call with name and parameters, with the template success and failure texts |
| WhatsAppService.SendTextFailureText | src/services/whatsapp_service.py:259-270 | a reply that fails the checklist is reported with its own error, or the format fallback |
| WhatsAppService.Dispatch | src/services/whatsapp_service.py:486-513 | text goes to SendText; media needs a URL; template needs a name and truthy parameters; any other type fails naming the type and the three allowed ones |
| WhatsAppService.DispatchSuccessNeeds | src/services/whatsapp_service.py:486-513 | a successful dispatch had a valid phone and a known type with its required fields |
| WhatsAppService.RejectedDispatchIgnoresConnector | src/services/whatsapp_service.py:493-511 | an invalid phone, an unknown type or a missing required field makes the outcome independent of the connector |
| WhatsAppService.ResolvedKeys | src/services/whatsapp_service.py:475-484 | a missing or placeholder key is looked up, which may evict the phone's entry; a real key is cached under the phone; other phones are untouched |
| WhatsAppService.SendToWhatsApp | src/services/whatsapp_service.py:449-518 | an empty phone fails and leaves the cache alone; otherwise the cache is `ResolvedKeys` of the old one, even when the type proves invalid, and the outcome is `Dispatch` |
| WhatsAppService.SetupWhatsAppIntegration | src/services/whatsapp_service.py:19-90 | a raising entity lookup, initiation or account lookup fails with its own text; a redirect URL is returned exactly when the reply has a truthy one, and then with the text asking the user to finish authentication in a browser; setup succeeds exactly when the reply is truthy and a consulted account lookup did not raise; without a redirect, a lookup reporting ACTIVE gives the active text, and success otherwise carries the created text |
| WhatsAppService.SetupActiveOnlyFromLookup | src/services/whatsapp_service.py:58-72 | "active" is reported only when the reply had a connected account and its lookup said ACTIVE |
| SlackService.ErrorChannel | src/services/slack_service.py:153-174 | an API error becomes one ERROR pseudo-channel, with the scope text, the invalid-token text, or the raw error |
| SlackService.KeptChannels | src/services/slack_service.py:177-190 | the returned list is no longer than the channel list |
| SlackService.KeptChannelsAppend | src/services/slack_service.py:182-190 | the loop keeps channels in order: a concatenation keeps each part's channels in turn |
| SlackService.KeptChannelsExactly | src/services/slack_service.py:183 | exactly the records with both an id and a name are returned, projected to id and name |
| SlackService.StoreEach | src/services/slack_service.py:182-185 | the loop's stores keep every cache entry passing the guard |
| SlackService.StoreEachCachesEveryId | src/services/slack_service.py:185 | after a listing, each returned channel with a non-empty id has the token cached for 24 hours |
| SlackService.StoreEachLeavesOthers | src/services/slack_service.py:182-185 | an id that no complete record carries keeps its entry; incomplete records cause no store |
| SlackService.GetChannels | src/services/slack_service.py:104-196 | an unusable token, a non-200 status or an unparsable body gives [] and no cache change; `ok` false gives the ERROR channel; otherwise the kept channels, with the cache after the per-channel stores |
| SlackService.SendToSlackComposio | src/services/slack_service.py:243-319 | an unusable token fails with the token text and no call; success exactly when the reply passes the checklist; a raising call fails with its text; a failed check reports the reply's error or the format fallback |
| SlackService.SendToSlack | src/services/slack_service.py:322-364 | no channel fails; a missing or placeholder token is read from the cache and fails when none is cached; a real token is cached under the channel; the send never sees an unusable token |
| LinkedInService.AttrOutcome | src/services/linkedin_service.py:256-283 | success exactly when the reply has one of the three truthy attributes; otherwise the reply's error or 'Unknown error', or the exception's text |
| LinkedInService.ConnectionRequest | src/services/linkedin_service.py:200-283 | an unusable token fails with the token text; otherwise the outcome of the fallback chain over the three connect actions |
| LinkedInService.ConnectMessageDefault | src/services/linkedin_service.py:230 | an empty invitation text is replaced by the default, so the message sent is never empty |
| LinkedInService.ConnectAllRaise | src/services/linkedin_service.py:235-254 | when all three action names raise, the request fails with the last exception's text |
| LinkedInService.ConnectFirstAnswerWins | src/services/linkedin_service.py:235-239 | when the first name answers, the later names do not affect the outcome |
| LinkedInService.SendMessage | src/services/linkedin_service.py:338-421 | as ConnectionRequest, for the three message actions and their texts |
| LinkedInService.MessageDictReplyFails | src/services/linkedin_service.py:395-402 | a dict reply never counts as a sent message |
| LinkedInService.PostParams | src/services/linkedin_service.py:453-462 | content and token are always sent; an image or article URL only when given; no other key |
| LinkedInService.PostResult | src/services/linkedin_service.py:486-518 | success exactly when the check passes; a post id is returned exactly when the `data` indicator decided, and it is `data.id` or None |
| LinkedInService.PostIdOnlyWithoutEarlierIndicator | src/services/linkedin_service.py:489-499 | a passing reply returns a post id exactly when neither `successfull` nor `success` holds |
| LinkedInService.FirstUnshaped | src/services/linkedin_service.py:165-168 | the loop stops at the first item without an `id` or a `name`: every earlier item has both, and none is found only when all have both |
| LinkedInService.ItemError | src/services/linkedin_service.py:167-168 | a malformed item raises Python's AttributeError text for `id` when it lacks one, otherwise for `name` |
| LinkedInService.Profiles | src/services/linkedin_service.py:165-172 | the profiles are the items projected one for one, in order |
| LinkedInService.SearchShaped | src/services/linkedin_service.py:162-197 | a raised exception and the failed check give their texts; a non-list `data` or the first malformed item gives the error the loop raises; profiles are found exactly when `data` is a non-empty list of well-formed items, projected one for one, with their count in the message |
| LinkedInService.ShapeSearch | src/services/linkedin_service.py:162-197 | the loop over the reply computes `SearchShaped` |
| LinkedInService.SearchAllRaise | src/services/linkedin_service.py:141-160 | when all three search actions raise, the search fails with the last exception's text |
| LinkedInService.SearchProfiles | src/services/linkedin_service.py:105-197 | an unusable token fails and leaves the cache alone; otherwise the token is cached first and the result is `SearchShaped` of the fallback chain's reply |
| LinkedInService.SendConnectionRequest | src/services/linkedin_service.py:200-222 | a usable token is cached under the entity before the call; the outcome is ConnectionRequest |
| LinkedInService.SendMessageToProfile | src/services/linkedin_service.py:338-360 | the same, with SendMessage |
| LinkedInService.CreatePost | src/services/linkedin_service.py:424-518 | an unusable token fails and leaves the cache alone; otherwise the token is cached and the outcome is PostResult of the chain over PostParams |
| LinkedInService.NameTest | src/services/linkedin_service.py:537 | on a string name, `'LINKEDIN' in name` is the substring test |
| LinkedInService.Filtered | src/services/linkedin_service.py:535-542 | never keeps more actions than the catalogue has |
| LinkedInService.FilteredSound | src/services/linkedin_service.py:536-542 | every kept entry is the name and description of some catalogue action whose name contains LINKEDIN |
| LinkedInService.FilteredComplete | src/services/linkedin_service.py:536-542 | every action with such a name is kept, with its description or the default |
| LinkedInService.FilteredAppend | src/services/linkedin_service.py:536-542 | the filter keeps catalogue order |
| LinkedInService.FilteredErrSticks | src/services/linkedin_service.py:536-537 | once a membership test raises, the listing fails with that exception |
| LinkedInService.ListAvailableActions | src/services/linkedin_service.py:521-555 | the result is the filtered catalogue with its count in the message, or the listing's or the filter's exception text |
| GmailService.Tone | src/services/gmail_service.py:71 | formal requests get the formal tone, others the friendly one |
| GmailService.PromptCarriesInstructionAndTone | src/services/gmail_service.py:72-84 | the model's instruction contains the user's prompt and the chosen tone |
| GmailService.TemplateCarries | src/services/gmail_service.py:72-84 | any filling of the instruction's shape contains its prompt and tone |
| GmailService.TonesDiffer | src/services/gmail_service.py:71-84 | the formal and the friendly instructions differ |
| GmailService.GenerateEmail | src/services/gmail_service.py:64-98 | the draft is the model's text exactly when the model answers; otherwise the error with its text |
| GmailService.SendCall | src/services/gmail_service.py:105-112 | the send names GMAIL_SEND_EMAIL with recipient, subject and body and nothing else |
| GmailService.SendToGmail | src/services/gmail_service.py:101-149 | sent exactly when the reply passes the six-way checklist, naming the recipient; a failed check or an exception is reported with its text |
| GmailService.RejectedReplyReportsError | src/services/gmail_service.py:133-142 | a dict reply carrying only an error is reported as a failure with that error |
| GmailService.SetupGmailIntegration | src/services/gmail_service.py:20-61 | success, with the redirect URL, exactly when the reply is truthy and has a redirectUrl attribute; otherwise failure, or the exception's text |
| GmailService.SetupNeverReportsActive | src/services/gmail_service.py:38-49 | success always carries a redirect URL, and "connection is active" is never reported |
| ResponseUtils.HandleServiceResult | src/utils/response_utils.py:7-29 | a result with a truthy `success` is returned unchanged; any other raises with the given status and "<message>: <error or Unknown error>" |
| ResponseUtils.OutcomeDict | src/services/gmail_service.py:120-148 | a service result holds `success` plus `message` on success, or plus `error` on failure |
| ResponseUtils.OutcomeThroughHandler | src/utils/response_utils.py:22-29 | for a send result dictionary, a success passes the handler unchanged and a failure becomes an HTTP error carrying the service's error after the route's message |
| ResponseUtils.SetupDict | src/services/whatsapp_service.py:51-88 | a setup result dictionary holds `success` and `message`, plus `redirect_url` exactly when there is one, and never an `error` key |
| ResponseUtils.SetupThroughHandler | src/utils/response_utils.py:22-29 | a successful setup dictionary passes the handler unchanged; a failed one raises with "<route message>: Unknown error", so the setup's own failure text is lost |
| ResponseUtils.CreateResponse | src/utils/response_utils.py:32-61 | `success` and `message` always; `data` exactly when not None; `error` exactly when given; the handler accepts the response exactly when `success` is true |
| Validation.ValidateApiKeys | src/utils/validation.py:9-32 | valid exactly when both the Gemini and the Composio keys are set; the message lists the missing ones in that order; the Slack token never matters |

## Left out

- The Composio SDK, the Slack HTTP request, the Gemini model and the `ComposioToolSet`
  constructor are not modelled: they are parameters, and the constructor is taken never to raise.
- Logging, the FastAPI routes, the health endpoints, settings loading and `main.py` are
  not part of this model.
- The `generate_message` prompt functions of the WhatsApp, Slack and LinkedIn services
  are not modelled: they only wrap the language model.
- The setup routes (src/api/gmail_routes.py:27, src/api/slack_routes.py:29,
  src/api/whatsapp_routes.py:45) pass a setup dictionary to `handle_service_result`. A failed
  setup keeps its text under `message` and has no `error` key, so the HTTP error always reads
  "<route message>: Unknown error" (`ResponseUtils.SetupThroughHandler`); the route code
  itself is not modelled.
- The Slack and LinkedIn setup functions are not modelled.
- The `test_*_connection` helpers of `validation.py` are not modelled: they are network probes.
- Validation.ValidateApiKeys is reached only from the detailed health route
  (src/api/health_routes.py:41). The settings module raises at import when either
  required key is missing (src/config/settings.py:18-22), so in a running process the
  failure branches cannot occur. The model states them anyway, for every input.
- Concurrency is not modelled. The caches are module-level dicts shared across requests;
  the model runs one operation at a time.
- `str.isdigit` is modelled as ASCII 0-9; Unicode digits from other scripts are not.
- `PyValues.Show` renders a list, dict or object as a fixed placeholder, not as Python's
  `repr`. The rendering of scalars and strings is exact.
- Exception texts follow CPython's wording for the errors the code can raise
  (AttributeError, TypeError). An SDK object's class name is rendered as `object`.
- The unused `api_key` argument of the WhatsApp send functions and the `channel_name`
  argument of `send_to_slack`, which only labels a log line, are not parameters.
- The outer `except` of `send_to_whatsapp` and `send_to_slack` is not modelled: with the
  SDK as a parameter, nothing inside them can raise.
- SlackService.GetChannels: the reply body is reduced to the documented
  `conversations.list` shape, with string ids and names. One `now` serves the whole
  call, whereas the source reads the clock at every store.
- Each service keeps its own cache; the model uses one `TtlCache` object per call and
  does not tie a service to a particular instance.
- The active-connection check at src/services/gmail_service.py:38-49 follows an
  unconditional `return` and is not modelled as a branch. The lemma
  `SetupNeverReportsActive` records that it can never be reached.

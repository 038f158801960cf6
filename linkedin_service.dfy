/** The professional-network service: the token guard and token caching in front of every
    operation, the three-name action fallback chains, the shaping of the chosen reply
    (attribute indicators only), the profile-collecting loop of the search, and the
    filter of the action catalogue. */
module LinkedInService {
  import opened Wrappers
  import opened PyValues
  import opened Text
  import opened Connector
  import CredentialCache

  const InvalidTokenText: string := "Invalid access token provided"

  /** The candidate action names of each operation, in the order they are tried. */
  const SearchActions: seq<string> := ["LINKEDIN_SEARCH_FOR_PEOPLE", "LINKEDIN_SEARCHES_FOR_PEOPLE", "LINKEDIN_SEARCHES_PROFILES"]
  const ConnectActions: seq<string> := ["LINKEDIN_SENDS_CONNECTION_REQUEST", "LINKEDIN_SENDS_A_CONNECTION_REQUEST", "LINKEDIN_CONNECT_WITH_PROFILE"]
  const MessageActions: seq<string> := ["LINKEDIN_SENDS_MESSAGE", "LINKEDIN_SENDS_A_MESSAGE", "LINKEDIN_MESSAGE_PROFILE"]
  const PostActions: seq<string> := ["LINKEDIN_CREATES_POST", "LINKEDIN_CREATES_A_POST", "LINKEDIN_SHARE_POST"]

  /** The shaping shared by the connection request and the message: success only through
      an attribute indicator; otherwise the reply's error or 'Unknown error'; an exception
      that escaped the fallback chain after `raisedPrefix`. */
  function AttrOutcome(reply: Result<Value, Exception>, success: string, failedPrefix: string, raisedPrefix: string): (r: Outcome)
    ensures r.Succeeded? <==> reply.Ok? && exists k :: 0 <= k < |AttrChecklist| && Holds(reply.value, AttrChecklist[k])
    ensures r.Succeeded? ==> r.message == success && reply.value.Obj?
    ensures reply.Err? ==> r == Failed(raisedPrefix + reply.error.message)
    ensures reply.Ok? && r.Failed? ==> r.error == failedPrefix + ErrorText(reply.value, "Unknown error")
  {
    match reply
    case Err(e) => Failed(raisedPrefix + e.message)
    case Ok(v) =>
      PassesIffSomeIndicator(v, AttrChecklist);
      if Passes(v, AttrChecklist) then Succeeded(success)
      else Failed(failedPrefix + ErrorText(v, "Unknown error"))
  }

  const DefaultInvitation: string := "I'd like to connect with you on LinkedIn."

  function ConnectParams(profileUrl: string, message: string, token: string): map<string, Value> {
    map["profileUrl" := Str(profileUrl),
        "message" := Str(if message == "" then DefaultInvitation else message),
        "token" := Str(token)]
  }

  /** `send_connection_request` apart from the token caching. */
  function ConnectionRequest(profileUrl: string, message: string, token: string, execute: Execute): (r: Outcome)
    ensures !CredentialCache.UsableToken(token) ==> r == Failed(InvalidTokenText)
    ensures CredentialCache.UsableToken(token) ==>
              r == AttrOutcome(FirstNonRaising(ConnectActions, ConnectParams(profileUrl, message, token), execute),
                               "Connection request sent successfully", "Failed to send connection request: ",
                               "Error sending connection request: ")
    ensures r.Succeeded? ==> CredentialCache.UsableToken(token) && r.message == "Connection request sent successfully"
  {
    if !CredentialCache.UsableToken(token) then Failed(InvalidTokenText)
    else AttrOutcome(FirstNonRaising(ConnectActions, ConnectParams(profileUrl, message, token), execute),
                     "Connection request sent successfully", "Failed to send connection request: ",
                     "Error sending connection request: ")
  }

  /** An empty invitation text is replaced by the default one; any other is sent as given. */
  lemma ConnectMessageDefault(profileUrl: string, message: string, token: string)
    ensures ConnectParams(profileUrl, message, token)["message"] == Str(if message == "" then DefaultInvitation else message)
    ensures ConnectParams(profileUrl, message, token)["message"] != Str("")
  {
  }

  /** When every candidate name raises, the request fails with the last exception's text. */
  lemma ConnectAllRaise(profileUrl: string, message: string, token: string, execute: Execute)
    requires CredentialCache.UsableToken(token)
    requires forall k :: 0 <= k < |ConnectActions| ==> execute(Call(ConnectActions[k], ConnectParams(profileUrl, message, token), None)).Err?
    ensures ConnectionRequest(profileUrl, message, token, execute)
         == Failed("Error sending connection request: "
                   + execute(Call(ConnectActions[2], ConnectParams(profileUrl, message, token), None)).error.message)
  {
  }

  /** The first name that does not raise decides: later names are never consulted. */
  lemma ConnectFirstAnswerWins(profileUrl: string, message: string, token: string, e1: Execute, e2: Execute)
    requires CredentialCache.UsableToken(token)
    requires e1(Call(ConnectActions[0], ConnectParams(profileUrl, message, token), None)).Ok?
    requires e1(Call(ConnectActions[0], ConnectParams(profileUrl, message, token), None))
          == e2(Call(ConnectActions[0], ConnectParams(profileUrl, message, token), None))
    ensures ConnectionRequest(profileUrl, message, token, e1) == ConnectionRequest(profileUrl, message, token, e2)
  {
    var p := ConnectParams(profileUrl, message, token);
    assert FirstNonRaising(ConnectActions, p, e1) == e1(Call(ConnectActions[0], p, None));
    assert FirstNonRaising(ConnectActions, p, e2) == e2(Call(ConnectActions[0], p, None));
  }

  function MessageParams(profileId: string, message: string, token: string): map<string, Value> {
    map["profileId" := Str(profileId), "message" := Str(message), "token" := Str(token)]
  }

  /** `send_message` apart from the token caching. */
  function SendMessage(profileId: string, message: string, token: string, execute: Execute): (r: Outcome)
    ensures !CredentialCache.UsableToken(token) ==> r == Failed(InvalidTokenText)
    ensures CredentialCache.UsableToken(token) ==>
              r == AttrOutcome(FirstNonRaising(MessageActions, MessageParams(profileId, message, token), execute),
                               "Message sent successfully", "Failed to send message: ", "Error sending message: ")
    ensures r.Succeeded? ==> CredentialCache.UsableToken(token) && r.message == "Message sent successfully"
  {
    if !CredentialCache.UsableToken(token) then Failed(InvalidTokenText)
    else AttrOutcome(FirstNonRaising(MessageActions, MessageParams(profileId, message, token), execute),
                     "Message sent successfully", "Failed to send message: ", "Error sending message: ")
  }

  /** A dictionary reply never counts as a sent message, whatever keys it has. */
  lemma MessageDictReplyFails(profileId: string, message: string, token: string, execute: Execute)
    requires CredentialCache.UsableToken(token)
    requires FirstNonRaising(MessageActions, MessageParams(profileId, message, token), execute).Ok?
    requires FirstNonRaising(MessageActions, MessageParams(profileId, message, token), execute).value.Dict?
    ensures SendMessage(profileId, message, token, execute).Failed?
  {
  }

  /** The parameters of `create_post`: content and token always, the image and article
      URLs only when given. */
  function PostParams(content: string, token: string, imageUrl: string, articleUrl: string): (p: map<string, Value>)
    ensures "content" in p && p["content"] == Str(content)
    ensures "token" in p && p["token"] == Str(token)
    ensures ("imageUrl" in p) <==> imageUrl != ""
    ensures imageUrl != "" ==> p["imageUrl"] == Str(imageUrl)
    ensures ("articleUrl" in p) <==> articleUrl != ""
    ensures articleUrl != "" ==> p["articleUrl"] == Str(articleUrl)
    ensures p.Keys <= {"content", "token", "imageUrl", "articleUrl"}
  {
    var p := map["content" := Str(content), "token" := Str(token)];
    var p := if imageUrl != "" then p["imageUrl" := Str(imageUrl)] else p;
    if articleUrl != "" then p["articleUrl" := Str(articleUrl)] else p
  }

  /** Result of `create_post`: the `data` key, with the post id, is present only when the
      reply was accepted through its `data` attribute. */
  datatype PostOutcome = Posted(message: string, postId: Option<Value>) | PostFailed(error: string)

  /** The shaping of the chosen `create_post` reply. */
  function PostResult(reply: Result<Value, Exception>): (r: PostOutcome)
    ensures r.Posted? <==> reply.Ok? && Passes(reply.value, AttrChecklist)
    ensures r.Posted? ==> r.message == "Post created successfully"
    ensures r.Posted? && r.postId.Some? <==> reply.Ok? && FirstHolding(reply.value, AttrChecklist) == Some(2)
    ensures r.Posted? && r.postId.Some? ==> r.postId.value == GetAttr(reply.value.attrs["data"], "id", Null)
    ensures reply.Err? ==> r == PostFailed("Error creating post: " + reply.error.message)
    ensures reply.Ok? && r.PostFailed? ==> r.error == "Failed to create post: " + ErrorText(reply.value, "Unknown error")
  {
    match reply
    case Err(e) => PostFailed("Error creating post: " + e.message)
    case Ok(v) =>
      if !Passes(v, AttrChecklist) then PostFailed("Failed to create post: " + ErrorText(v, "Unknown error"))
      else if FirstHolding(v, AttrChecklist) == Some(2) then
        Posted("Post created successfully", Some(GetAttr(v.attrs["data"], "id", Null)))
      else Posted("Post created successfully", None)
  }

  /** The checklist order matters for posts: a truthy `successfull` or `success` attribute
      wins over `data`, so no post id is returned then. */
  lemma PostIdOnlyWithoutEarlierIndicator(v: Value)
    requires Passes(v, AttrChecklist)
    ensures PostResult(Ok(v)).postId.Some? <==> !Holds(v, AttrSuccessfull) && !Holds(v, AttrSuccess)
  {
    var k := FirstHolding(v, AttrChecklist).value;
    assert AttrChecklist[0] == AttrSuccessfull && AttrChecklist[1] == AttrSuccess;
    if !Holds(v, AttrSuccessfull) && !Holds(v, AttrSuccess) {
      assert k != 0 && k != 1;
    }
  }

  /** One profile of the search result. */
  datatype Profile = Profile(id: Value, name: Value, headline: Value, url: Value)

  predicate ProfileShaped(item: Value) {
    HasAttr(item, "id") && HasAttr(item, "name")
  }

  function ProfileOf(item: Value): Profile
    requires ProfileShaped(item)
  {
    Profile(item.attrs["id"], item.attrs["name"], GetAttr(item, "headline", Null), GetAttr(item, "profileUrl", Null))
  }

  /** The text of the AttributeError raised by `v.attr`. */
  function MissingAttribute(v: Value, attr: string): string {
    "'" + TypeName(v) + "' object has no attribute '" + attr + "'"
  }

  /** The error raised by `for profile in data: profile.id` when `data` is truthy but not a list. */
  function IterationError(data: Value): string {
    if data.Dict? || data.Str? then MissingAttribute(Str(""), "id")
    else "'" + TypeName(data) + "' object is not iterable"
  }

  datatype SearchOutcome = Found(message: string, profiles: seq<Profile>) | SearchFailed(error: string)

  const SearchRaisedPrefix: string := "Error searching LinkedIn profiles: "

  /** The search reply has a non-empty list of profile objects under its `data` attribute. */
  predicate ProfilesReply(v: Value) {
    HasAttr(v, "data") && v.attrs["data"].List? && v.attrs["data"].items != []
    && forall k :: 0 <= k < |v.attrs["data"].items| ==> ProfileShaped(v.attrs["data"].items[k])
  }

  /** The position of the first item of `data` that lacks an `id` or a `name`. */
  function FirstUnshaped(items: seq<Value>): (r: Option<nat>)
    ensures r.Some? ==> r.value < |items| && !ProfileShaped(items[r.value])
    ensures r.Some? ==> forall k :: 0 <= k < r.value ==> ProfileShaped(items[k])
    ensures r.None? <==> forall k :: 0 <= k < |items| ==> ProfileShaped(items[k])
  {
    if items == [] then None
    else if !ProfileShaped(items[0]) then Some(0)
    else match FirstUnshaped(items[1..])
      case None => None
      case Some(j) => Some(j + 1)
  }

  /** The AttributeError the loop raises on a malformed item: `id` is read before `name`. */
  function ItemError(item: Value): (r: string)
    requires !ProfileShaped(item)
    ensures !HasAttr(item, "id") ==> r == MissingAttribute(item, "id")
    ensures HasAttr(item, "id") ==> r == MissingAttribute(item, "name")
  {
    if !HasAttr(item, "id") then MissingAttribute(item, "id") else MissingAttribute(item, "name")
  }

  /** The profiles of a list of well-formed items, one for one. */
  function Profiles(items: seq<Value>): (r: seq<Profile>)
    requires forall k :: 0 <= k < |items| ==> ProfileShaped(items[k])
    ensures |r| == |items| && forall k :: 0 <= k < |items| ==> r[k] == ProfileOf(items[k])
  {
    seq(|items|, k requires 0 <= k < |items| => ProfileOf(items[k]))
  }

  /** What `search_profiles` makes of the chosen reply: the raised exception, the failed
      check, the error the loop raises on a non-list `data` or on the first malformed item,
      or the profiles with their count. */
  function SearchShaped(reply: Result<Value, Exception>): (r: SearchOutcome)
    ensures reply.Err? ==> r == SearchFailed(SearchRaisedPrefix + reply.error.message)
    ensures reply.Ok? && !(HasAttr(reply.value, "data") && Truthy(reply.value.attrs["data"])) ==>
              r == SearchFailed("Failed to search LinkedIn profiles: " + ErrorText(reply.value, "No profiles found"))
    ensures reply.Ok? && HasAttr(reply.value, "data") && Truthy(reply.value.attrs["data"]) && !reply.value.attrs["data"].List? ==>
              r == SearchFailed(SearchRaisedPrefix + IterationError(reply.value.attrs["data"]))
    ensures reply.Ok? && HasAttr(reply.value, "data") && reply.value.attrs["data"].List?
            && FirstUnshaped(reply.value.attrs["data"].items).Some? ==>
              r == SearchFailed(SearchRaisedPrefix + ItemError(reply.value.attrs["data"].items[FirstUnshaped(reply.value.attrs["data"].items).value]))
    ensures r.Found? <==> reply.Ok? && ProfilesReply(reply.value)
    ensures r.Found? ==> |r.profiles| == |reply.value.attrs["data"].items|
                         && (forall k :: 0 <= k < |r.profiles| ==> r.profiles[k] == ProfileOf(reply.value.attrs["data"].items[k]))
                         && r.message == "Found " + NatToString(|r.profiles|) + " profiles matching your search"
  {
    match reply
    case Err(e) => SearchFailed(SearchRaisedPrefix + e.message)
    case Ok(v) =>
      if !(HasAttr(v, "data") && Truthy(v.attrs["data"])) then
        SearchFailed("Failed to search LinkedIn profiles: " + ErrorText(v, "No profiles found"))
      else
        var data := v.attrs["data"];
        if !data.List? then SearchFailed(SearchRaisedPrefix + IterationError(data))
        else match FirstUnshaped(data.items)
          case Some(j) => SearchFailed(SearchRaisedPrefix + ItemError(data.items[j]))
          case None => Found("Found " + NatToString(|data.items|) + " profiles matching your search", Profiles(data.items))
  }

  /** The loop of `search_profiles` over the chosen reply, proved to compute `SearchShaped`. */
  method ShapeSearch(reply: Result<Value, Exception>) returns (r: SearchOutcome)
    ensures r == SearchShaped(reply)
  {
    if reply.Err? {
      return SearchFailed(SearchRaisedPrefix + reply.error.message);
    }
    var response := reply.value;
    if !(Truthy(response) && HasAttr(response, "data") && Truthy(response.attrs["data"])) {
      return SearchFailed("Failed to search LinkedIn profiles: " + ErrorText(response, "No profiles found"));
    }
    var data := response.attrs["data"];
    if !data.List? {
      return SearchFailed(SearchRaisedPrefix + IterationError(data));
    }
    var profiles: seq<Profile> := [];
    var i := 0;
    while i < |data.items|
      invariant 0 <= i <= |data.items|
      invariant |profiles| == i
      invariant forall k :: 0 <= k < i ==> ProfileShaped(data.items[k]) && profiles[k] == ProfileOf(data.items[k])
    {
      var profile := data.items[i];
      if !HasAttr(profile, "id") || !HasAttr(profile, "name") {
        assert FirstUnshaped(data.items) == Some(i);
      }
      if !HasAttr(profile, "id") {
        return SearchFailed(SearchRaisedPrefix + MissingAttribute(profile, "id"));
      }
      if !HasAttr(profile, "name") {
        return SearchFailed(SearchRaisedPrefix + MissingAttribute(profile, "name"));
      }
      profiles := profiles + [ProfileOf(profile)];
      i := i + 1;
    }
    assert profiles == Profiles(data.items);
    return Found("Found " + NatToString(|profiles|) + " profiles matching your search", profiles);
  }

  function SearchParams(keywords: string, limit: int, token: string): map<string, Value> {
    map["keywords" := Str(keywords), "limit" := Int(limit), "token" := Str(token)]
  }

  /** When every candidate search action raises, the search fails with the last exception's text. */
  lemma SearchAllRaise(keywords: string, limit: int, token: string, execute: Execute)
    requires forall k :: 0 <= k < |SearchActions| ==> execute(Call(SearchActions[k], SearchParams(keywords, limit, token), None)).Err?
    ensures SearchShaped(FirstNonRaising(SearchActions, SearchParams(keywords, limit, token), execute))
         == SearchFailed(SearchRaisedPrefix
                         + execute(Call(SearchActions[2], SearchParams(keywords, limit, token), None)).error.message)
  {
  }

  /** `search_profiles`: the guard, the token caching, the fallback chain, the shaping. */
  method SearchProfiles(cache: CredentialCache.TtlCache, now: int, keywords: string, token: string, limit: int,
                        entity: string, execute: Execute) returns (r: SearchOutcome)
    requires cache.Valid()
    modifies cache
    ensures cache.Valid()
    ensures !CredentialCache.UsableToken(token) ==> r == SearchFailed(InvalidTokenText) && cache.entries == old(cache.entries)
    ensures CredentialCache.UsableToken(token) ==> cache.entries == CredentialCache.Stored(old(cache.entries), entity, token, now)
    ensures CredentialCache.UsableToken(token) ==>
              r == SearchShaped(FirstNonRaising(SearchActions, SearchParams(keywords, limit, token), execute))
  {
    if !CredentialCache.UsableToken(token) {
      return SearchFailed(InvalidTokenText);
    }
    cache.Store(entity, token, now);
    var params := map["keywords" := Str(keywords), "limit" := Int(limit), "token" := Str(token)];
    r := ShapeSearch(FirstNonRaising(SearchActions, params, execute));
  }

  /** `send_connection_request`: the token is cached under the entity before the connector
      is called, so it stays cached whatever the call does. */
  method SendConnectionRequest(cache: CredentialCache.TtlCache, now: int, profileUrl: string, message: string,
                               token: string, entity: string, execute: Execute) returns (r: Outcome)
    requires cache.Valid()
    modifies cache
    ensures cache.Valid()
    ensures !CredentialCache.UsableToken(token) ==> cache.entries == old(cache.entries)
    ensures CredentialCache.UsableToken(token) ==> cache.entries == CredentialCache.Stored(old(cache.entries), entity, token, now)
    ensures r == ConnectionRequest(profileUrl, message, token, execute)
  {
    if CredentialCache.UsableToken(token) {
      cache.Store(entity, token, now);
    }
    r := ConnectionRequest(profileUrl, message, token, execute);
  }

  /** `send_message`, with the same caching. */
  method SendMessageToProfile(cache: CredentialCache.TtlCache, now: int, profileId: string, message: string,
                              token: string, entity: string, execute: Execute) returns (r: Outcome)
    requires cache.Valid()
    modifies cache
    ensures cache.Valid()
    ensures !CredentialCache.UsableToken(token) ==> cache.entries == old(cache.entries)
    ensures CredentialCache.UsableToken(token) ==> cache.entries == CredentialCache.Stored(old(cache.entries), entity, token, now)
    ensures r == SendMessage(profileId, message, token, execute)
  {
    if CredentialCache.UsableToken(token) {
      cache.Store(entity, token, now);
    }
    r := SendMessage(profileId, message, token, execute);
  }

  /** `create_post`: the parameters are built by successive insertions, as in the source. */
  method CreatePost(cache: CredentialCache.TtlCache, now: int, content: string, token: string, imageUrl: string,
                    articleUrl: string, entity: string, execute: Execute) returns (r: PostOutcome)
    requires cache.Valid()
    modifies cache
    ensures cache.Valid()
    ensures !CredentialCache.UsableToken(token) ==> r == PostFailed(InvalidTokenText) && cache.entries == old(cache.entries)
    ensures CredentialCache.UsableToken(token) ==> cache.entries == CredentialCache.Stored(old(cache.entries), entity, token, now)
    ensures CredentialCache.UsableToken(token) ==>
              r == PostResult(FirstNonRaising(PostActions, PostParams(content, token, imageUrl, articleUrl), execute))
  {
    if !CredentialCache.UsableToken(token) {
      return PostFailed(InvalidTokenText);
    }
    cache.Store(entity, token, now);
    var params := map["content" := Str(content), "token" := Str(token)];
    if imageUrl != "" {
      params := params["imageUrl" := Str(imageUrl)];
    }
    if articleUrl != "" {
      params := params["articleUrl" := Str(articleUrl)];
    }
    r := PostResult(FirstNonRaising(PostActions, params, execute));
  }

  /** One entry of the action catalogue listing. */
  datatype ActionInfo = ActionInfo(name: Value, description: Value)

  /** `'LINKEDIN' in name`: a substring test on a string, membership on a list or dict,
      and a TypeError on anything else. */
  function NameTest(name: Value): (r: Result<bool, Exception>)
    ensures name.Str? ==> r == Ok(Contains(name.s, "LINKEDIN"))
  {
    match name
    case Str(s) => Ok(Contains(s, "LINKEDIN"))
    case List(items) => Ok(Str("LINKEDIN") in items)
    case Dict(entries) => Ok("LINKEDIN" in entries)
    case _ => Err(Exception("argument of type '" + TypeName(name) + "' is not iterable"))
  }

  function InfoOf(action: Value): ActionInfo
    requires HasAttr(action, "name")
  {
    ActionInfo(action.attrs["name"], GetAttr(action, "description", Str("No description available")))
  }

  /** The loop of `list_available_actions` over a prefix of the catalogue: the LinkedIn
      actions in order, or the first TypeError of the membership test. */
  function Filtered(actions: seq<Value>): (r: Result<seq<ActionInfo>, Exception>)
    ensures r.Ok? ==> |r.value| <= |actions|
  {
    if actions == [] then Ok([])
    else
      var last := actions[|actions| - 1];
      match Filtered(actions[..|actions| - 1])
      case Err(e) => Err(e)
      case Ok(kept) =>
        if !HasAttr(last, "name") then Ok(kept)
        else match NameTest(last.attrs["name"])
          case Err(e) => Err(e)
          case Ok(b) => if b then Ok(kept + [InfoOf(last)]) else Ok(kept)
  }

  /** Only catalogue actions whose name passes the test are kept, each as its `InfoOf`. */
  lemma {:induction false} FilteredSound(actions: seq<Value>)
    requires Filtered(actions).Ok?
    ensures forall a :: a in Filtered(actions).value ==> NameTest(a.name) == Ok(true)
    ensures forall a :: a in Filtered(actions).value ==>
              exists k :: 0 <= k < |actions| && HasAttr(actions[k], "name") && a == InfoOf(actions[k])
                          && NameTest(actions[k].attrs["name"]) == Ok(true)
  {
    if actions != [] {
      var init := actions[..|actions| - 1];
      var last := |actions| - 1;
      FilteredSound(init);
      forall a | a in Filtered(actions).value
        ensures exists k :: 0 <= k < |actions| && HasAttr(actions[k], "name") && a == InfoOf(actions[k])
                            && NameTest(actions[k].attrs["name"]) == Ok(true)
      {
        if a in Filtered(init).value {
          var k :| 0 <= k < |init| && HasAttr(init[k], "name") && a == InfoOf(init[k])
                   && NameTest(init[k].attrs["name"]) == Ok(true);
          assert actions[k] == init[k];
        } else {
          assert a == InfoOf(actions[last]);
        }
      }
    }
  }

  /** Every action whose name passes the test is kept, with the default description when it has none. */
  lemma {:induction false} FilteredComplete(actions: seq<Value>, k: nat)
    requires Filtered(actions).Ok?
    requires k < |actions| && HasAttr(actions[k], "name") && NameTest(actions[k].attrs["name"]) == Ok(true)
    ensures InfoOf(actions[k]) in Filtered(actions).value
  {
    var init := actions[..|actions| - 1];
    if k < |actions| - 1 {
      assert actions[k] == init[k];
      FilteredComplete(init, k);
    }
  }

  /** The filter is order-preserving: listing a concatenation lists each part in turn. */
  lemma {:induction false} FilteredAppend(a: seq<Value>, b: seq<Value>)
    requires Filtered(a).Ok? && Filtered(b).Ok?
    ensures Filtered(a + b) == Ok(Filtered(a).value + Filtered(b).value)
    decreases |b|
  {
    if b == [] {
      assert a + b == a;
      assert Filtered(a).value + Filtered(b).value == Filtered(a).value;
    } else {
      var init := b[..|b| - 1];
      assert (a + b)[..|a + b| - 1] == a + init;
      assert (a + b)[|a + b| - 1] == b[|b| - 1];
      var last := b[|b| - 1];
      assert Filtered(init).Ok?;
      FilteredAppend(a, init);
      var fa, fi := Filtered(a).value, Filtered(init).value;
      if HasAttr(last, "name") && NameTest(last.attrs["name"]) == Ok(true) {
        assert Filtered(b).value == fi + [InfoOf(last)];
        assert Filtered(a + b).value == (fa + fi) + [InfoOf(last)];
        assert (fa + fi) + [InfoOf(last)] == fa + (fi + [InfoOf(last)]);
      }
    }
  }

  datatype ActionsOutcome = ActionsListed(message: string, actions: seq<ActionInfo>) | ActionsFailed(error: string)

  /** `list_available_actions` over the catalogue `list_actions()` returned (or raised). */
  method ListAvailableActions(listed: Result<seq<Value>, Exception>) returns (r: ActionsOutcome)
    ensures listed.Err? ==> r == ActionsFailed("Error listing LinkedIn actions: " + listed.error.message)
    ensures listed.Ok? && Filtered(listed.value).Err? ==>
              r == ActionsFailed("Error listing LinkedIn actions: " + Filtered(listed.value).error.message)
    ensures listed.Ok? && Filtered(listed.value).Ok? ==>
              r == ActionsListed("Found " + NatToString(|Filtered(listed.value).value|) + " LinkedIn actions",
                                 Filtered(listed.value).value)
  {
    if listed.Err? {
      return ActionsFailed("Error listing LinkedIn actions: " + listed.error.message);
    }
    var all := listed.value;
    var linkedinActions: seq<ActionInfo> := [];
    var i := 0;
    while i < |all|
      invariant 0 <= i <= |all|
      invariant Filtered(all[..i]) == Ok(linkedinActions)
    {
      var action := all[i];
      assert all[..i + 1][..i] == all[..i];
      if HasAttr(action, "name") {
        var test := NameTest(action.attrs["name"]);
        if test.Err? {
          FilteredErrSticks(all, i + 1);
          return ActionsFailed("Error listing LinkedIn actions: " + test.error.message);
        }
        if test.value {
          linkedinActions := linkedinActions + [InfoOf(action)];
        }
      }
      i := i + 1;
    }
    assert all[..|all|] == all;
    return ActionsListed("Found " + NatToString(|linkedinActions|) + " LinkedIn actions", linkedinActions);
  }

  /** Once a prefix raises, the whole list raises the same exception. */
  lemma {:induction false} FilteredErrSticks(actions: seq<Value>, n: nat)
    requires n <= |actions| && Filtered(actions[..n]).Err?
    ensures Filtered(actions) == Filtered(actions[..n])
    decreases |actions| - n
  {
    if n < |actions| {
      assert actions[..n + 1][..n] == actions[..n];
      FilteredErrSticks(actions, n + 1);
    } else {
      assert actions[..n] == actions;
    }
  }
}

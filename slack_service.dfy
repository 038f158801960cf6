/** The team-chat service: what `get_channels` does with the reply of Slack's
    `conversations.list` (error classification, the filtering loop that caches the token
    per channel), the send through the connector, and the token resolution in front of it. */
module SlackService {
  import opened Wrappers
  import opened PyValues
  import opened Connector
  import CredentialCache

  /** One element of the reply's `channels` list: `'id' in channel`, `'name' in channel`. */
  datatype ChannelRecord = ChannelRecord(id: Option<string>, name: Option<string>)

  /** The parsed JSON body: its `ok`, `error` and `channels` keys, each possibly absent. */
  datatype ChannelsBody = ChannelsBody(ok: Option<bool>, error: Option<string>, channels: Option<seq<ChannelRecord>>)

  /** The HTTP reply; `body` is `None` when it does not parse as a JSON object, where the
      source raises inside its `try` and returns `[]`. */
  datatype HttpReply = HttpReply(status: int, body: Option<ChannelsBody>)

  /** An entry of the returned list, `{"id": …, "name": …}`. */
  datatype Channel = Channel(id: string, name: string)

  const MissingScopeText: string := "Bot token missing required scopes: channels:read, groups:read"
  const InvalidAuthText: string := "Invalid or expired bot token"

  /** The single ERROR pseudo-channel reported when `ok` is false or absent. */
  function ErrorChannel(error: string): (r: Channel)
    ensures r.id == "ERROR"
    ensures error == "missing_scope" ==> r.name == MissingScopeText
    ensures error == "invalid_auth" || error == "not_authed" ==> r.name == InvalidAuthText
    ensures error !in {"missing_scope", "invalid_auth", "not_authed"} ==> r.name == "Slack API error: " + error
  {
    if error == "missing_scope" then Channel("ERROR", MissingScopeText)
    else if error == "invalid_auth" || error == "not_authed" then Channel("ERROR", InvalidAuthText)
    else Channel("ERROR", "Slack API error: " + error)
  }

  predicate Complete(rec: ChannelRecord) {
    rec.id.Some? && rec.name.Some?
  }

  /** The channels the loop appends for a prefix of the list: the complete records,
      projected to `{id, name}`. */
  function KeptChannels(records: seq<ChannelRecord>): (r: seq<Channel>)
    ensures |r| <= |records|
  {
    if records == [] then []
    else
      var last := records[|records| - 1];
      KeptChannels(records[..|records| - 1]) + (if Complete(last) then [Channel(last.id.value, last.name.value)] else [])
  }

  /** The kept channels of a concatenation are the kept channels of each part, in order. */
  lemma {:induction false} KeptChannelsAppend(a: seq<ChannelRecord>, b: seq<ChannelRecord>)
    ensures KeptChannels(a + b) == KeptChannels(a) + KeptChannels(b)
    decreases |b|
  {
    if b == [] {
      assert a + b == a;
    } else {
      assert (a + b)[..|a + b| - 1] == a + b[..|b| - 1];
      KeptChannelsAppend(a, b[..|b| - 1]);
    }
  }

  /** Exactly the complete records are kept: every kept channel comes from one, and every
      one is kept. */
  lemma {:induction false} KeptChannelsExactly(records: seq<ChannelRecord>)
    ensures forall c :: c in KeptChannels(records) ==> ChannelRecord(Some(c.id), Some(c.name)) in records
    ensures forall rec :: rec in records && Complete(rec) ==> Channel(rec.id.value, rec.name.value) in KeptChannels(records)
  {
    if records != [] {
      var init := records[..|records| - 1];
      KeptChannelsExactly(init);
      assert records == init + [records[|records| - 1]];
    }
  }

  /** The cache after the loop stored the token under the id of each complete record of a prefix. */
  function StoreEach(m: CredentialCache.Entries, records: seq<ChannelRecord>, token: string, now: int): (m': CredentialCache.Entries)
    ensures CredentialCache.AllStorable(m) ==> CredentialCache.AllStorable(m')
  {
    if records == [] then m
    else
      var last := records[|records| - 1];
      var before := StoreEach(m, records[..|records| - 1], token, now);
      if Complete(last) then CredentialCache.Stored(before, last.id.value, token, now) else before
  }

  /** After a listing with a usable token, every returned channel with a non-empty id has
      the token cached under that id, valid for 24 hours. */
  lemma {:induction false} StoreEachCachesEveryId(m: CredentialCache.Entries, records: seq<ChannelRecord>, token: string, now: int)
    requires CredentialCache.UsableToken(token)
    ensures forall c :: c in KeptChannels(records) && c.id != "" ==>
              c.id in StoreEach(m, records, token, now)
              && StoreEach(m, records, token, now)[c.id] == CredentialCache.Entry(token, now + CredentialCache.Lifetime)
  {
    if records != [] {
      StoreEachCachesEveryId(m, records[..|records| - 1], token, now);
    }
  }

  /** Identifiers that are not the id of a listed channel keep their entries. */
  lemma {:induction false} StoreEachLeavesOthers(m: CredentialCache.Entries, records: seq<ChannelRecord>, token: string, now: int, k: string)
    requires forall rec :: rec in records && Complete(rec) ==> rec.id != Some(k)
    ensures (k in StoreEach(m, records, token, now) <==> k in m)
    ensures k in m ==> StoreEach(m, records, token, now)[k] == m[k]
  {
    if records != [] {
      var init := records[..|records| - 1];
      assert forall rec :: rec in init ==> rec in records;
      StoreEachLeavesOthers(m, init, token, now, k);
    }
  }

  /** `get_channels(bot_token)` after the HTTP reply arrives. */
  method GetChannels(cache: CredentialCache.TtlCache, now: int, token: string, reply: HttpReply) returns (channels: seq<Channel>)
    requires cache.Valid()
    modifies cache
    ensures cache.Valid()
    ensures !CredentialCache.UsableToken(token) || reply.status != 200 || reply.body.None? ==>
              channels == [] && cache.entries == old(cache.entries)
    ensures CredentialCache.UsableToken(token) && reply.status == 200 && reply.body.Some? && reply.body.value.ok != Some(true) ==>
              channels == [ErrorChannel(reply.body.value.error.GetOr("Unknown error"))]
              && cache.entries == old(cache.entries)
    ensures CredentialCache.UsableToken(token) && reply.status == 200 && reply.body.Some? && reply.body.value.ok == Some(true) ==>
              channels == KeptChannels(reply.body.value.channels.GetOr([]))
              && cache.entries == StoreEach(old(cache.entries), reply.body.value.channels.GetOr([]), token, now)
  {
    if !CredentialCache.UsableToken(token) || reply.status != 200 || reply.body.None? {
      return [];
    }
    var data := reply.body.value;
    if data.ok != Some(true) {
      var error := if data.error.Some? then data.error.value else "Unknown error";
      return [ErrorChannel(error)];
    }
    var list := if data.channels.Some? then data.channels.value else [];
    channels := [];
    var i := 0;
    while i < |list|
      invariant 0 <= i <= |list|
      invariant cache.Valid()
      invariant channels == KeptChannels(list[..i])
      invariant cache.entries == StoreEach(old(cache.entries), list[..i], token, now)
    {
      var channel := list[i];
      assert list[..i + 1][..i] == list[..i];
      if channel.id.Some? && channel.name.Some? {
        cache.Store(channel.id.value, token, now);
        channels := channels + [Channel(channel.id.value, channel.name.value)];
      }
      i := i + 1;
    }
    assert list[..|list|] == list;
  }

  const InvalidTokenText: string := "A valid Slack bot token must be provided"

  function MessageCall(message: string, channelId: string, token: string): Call {
    Call("SLACK_SENDS_A_MESSAGE_TO_A_SLACK_CHANNEL",
         map["channel" := Str(channelId), "text" := Str(message), "token" := Str(token)], None)
  }

  /** `send_to_slack_composio`. */
  function SendToSlackComposio(message: string, channelId: string, token: string, execute: Execute): (r: Outcome)
    ensures !CredentialCache.UsableToken(token) ==> r == Failed(InvalidTokenText)
    ensures r.Succeeded? <==> CredentialCache.UsableToken(token) && Delivered(execute(MessageCall(message, channelId, token)))
    ensures r.Succeeded? ==> r.message == "Message successfully sent to channel"
    ensures CredentialCache.UsableToken(token) && execute(MessageCall(message, channelId, token)).Ok? && r.Failed? ==>
              r.error == "Failed to send message via Composio: " + ErrorText(execute(MessageCall(message, channelId, token)).value, UnknownFormat)
    ensures CredentialCache.UsableToken(token) && execute(MessageCall(message, channelId, token)).Err? ==>
              r == Failed("Error using Composio API: " + execute(MessageCall(message, channelId, token)).error.message)
  {
    if !CredentialCache.UsableToken(token) then Failed(InvalidTokenText)
    else
      SixWay(execute(MessageCall(message, channelId, token)), "Message successfully sent to channel",
             "Failed to send message via Composio: ", "Error using Composio API: ")
  }

  const NoTokenText: string :=
    "No valid bot token provided or found in cache. Please provide a bot token or first call the channels endpoint with a valid token."

  /** `send_to_slack`. The channel name only labels a log line and is not a parameter. */
  method SendToSlack(cache: CredentialCache.TtlCache, now: int, message: string, channelId: string, token: string,
                     execute: Execute) returns (r: Outcome)
    requires cache.Valid()
    modifies cache
    ensures cache.Valid()
    ensures channelId == "" ==> r == Failed("Channel ID is required") && cache.entries == old(cache.entries)
    ensures channelId != "" && !CredentialCache.UsableToken(token) ==>
              var found := CredentialCache.Looked(old(cache.entries), channelId, now);
              cache.entries == found.after
              && (found.secret.None? ==> r == Failed(NoTokenText))
              && (found.secret.Some? ==> r == SendToSlackComposio(message, channelId, found.secret.value, execute))
    ensures channelId != "" && CredentialCache.UsableToken(token) ==>
              cache.entries == CredentialCache.Stored(old(cache.entries), channelId, token, now)
              && r == SendToSlackComposio(message, channelId, token, execute)
    ensures r != Failed(InvalidTokenText)
  {
    if channelId == "" {
      assert |"Channel ID is required"| != |InvalidTokenText|;
      return Failed("Channel ID is required");
    }
    var actual := token;
    if !CredentialCache.UsableToken(token) {
      var cached := cache.Get(channelId, now);
      if cached.None? {
        assert |NoTokenText| != |InvalidTokenText|;
        return Failed(NoTokenText);
      }
      actual := cached.value;
      assert CredentialCache.Storable(channelId, actual);
    } else {
      cache.Store(channelId, token, now);
    }
    r := SendToSlackComposio(message, channelId, actual, execute);
    // Both failure texts of a send with a usable token start differently from the token text.
    if r.Failed? {
      if execute(MessageCall(message, channelId, actual)).Err? {
        assert r.error[0] == 'E';
      } else {
        assert r.error[0] == 'F';
      }
    }
  }
}

/** The in-memory credential cache. Each service keeps one as a module-level dict from an
    identifier (a phone number, a channel id, an entity id) to `{secret, expires}`; the
    three copies are identical, so one class models all of them. The wall clock is the
    explicit parameter `now`, in seconds. */
module CredentialCache {
  import opened Wrappers

  /** `timedelta(hours=24)` in seconds. */
  const Lifetime: int := 86400

  /** The placeholder the generated API form submits for an unset string field. */
  const Placeholder: string := "string"

  datatype Entry = Entry(secret: string, expires: int)

  type Entries = map<string, Entry>

  /** A credential the services accept as given: present and not the placeholder. */
  predicate UsableToken(secret: string) {
    secret != "" && secret != Placeholder
  }

  /** The guard of every store function: an identifier and a usable secret. */
  predicate Storable(key: string, secret: string) {
    key != "" && UsableToken(secret)
  }

  /** Every cached entry passed the store guard. */
  predicate AllStorable(m: Entries) {
    forall k :: k in m ==> Storable(k, m[k].secret)
  }

  /** The cache after `store(key, secret)` at time `now`: a guarded insert-or-overwrite
      with a 24-hour expiry that leaves every other identifier alone. */
  function Stored(m: Entries, key: string, secret: string, now: int): (m': Entries)
    ensures Storable(key, secret) ==> key in m' && m'[key] == Entry(secret, now + Lifetime)
    ensures Storable(key, secret) ==> m'.Keys == m.Keys + {key}
    ensures !Storable(key, secret) ==> m' == m
    ensures forall k :: k != key && k in m ==> k in m' && m'[k] == m[k]
    ensures AllStorable(m) ==> AllStorable(m')
  {
    if Storable(key, secret) then m[key := Entry(secret, now + Lifetime)] else m
  }

  /** What `get(key)` at time `now` returns, and the cache it leaves behind. */
  datatype Lookup = Lookup(secret: Option<string>, after: Entries)

  /** `get(key)` at time `now`: the secret while `expires > now`; otherwise `None`, and an
      expired entry is deleted. */
  function Looked(m: Entries, key: string, now: int): (r: Lookup)
    ensures r.secret.Some? <==> key in m && now < m[key].expires
    ensures r.secret.Some? ==> r.secret.value == m[key].secret && r.after == m
    ensures key in m && m[key].expires <= now ==> r.after == m - {key}
    ensures key !in m ==> r == Lookup(None, m)
    ensures r.after.Keys <= m.Keys && forall k :: k in r.after ==> r.after[k] == m[k]
    ensures AllStorable(m) ==> AllStorable(r.after) && (r.secret.Some? ==> Storable(key, r.secret.value))
  {
    if key in m then
      if m[key].expires > now then Lookup(Some(m[key].secret), m)
      else Lookup(None, m - {key})
    else Lookup(None, m)
  }

  /** Storing a secret and reading it back at any time before the expiry returns it. */
  lemma StoreThenLookupHit(m: Entries, key: string, secret: string, now: int, later: int)
    requires Storable(key, secret)
    requires later < now + Lifetime
    ensures Looked(Stored(m, key, secret, now), key, later) == Lookup(Some(secret), Stored(m, key, secret, now))
  {
  }

  /** Reading on or after the expiry returns `None` and removes exactly that identifier:
      the cache is the one before the store, without `key`. */
  lemma StoreThenLookupExpired(m: Entries, key: string, secret: string, now: int, later: int)
    requires Storable(key, secret)
    requires now + Lifetime <= later
    ensures Looked(Stored(m, key, secret, now), key, later) == Lookup(None, m - {key})
  {
    assert Stored(m, key, secret, now) - {key} == m - {key};
  }

  /** A rejected store (no identifier, no secret, or the placeholder) changes nothing,
      so a later read sees what was there before. */
  lemma RejectedStoreInvisible(m: Entries, key: string, secret: string, now: int, later: int)
    requires !Storable(key, secret)
    ensures Looked(Stored(m, key, secret, now), key, later) == Looked(m, key, later)
  {
  }

  /** The last store for an identifier wins. */
  lemma StoreOverwrites(m: Entries, key: string, s1: string, t1: int, s2: string, t2: int)
    requires Storable(key, s2)
    ensures Stored(Stored(m, key, s1, t1), key, s2, t2) == Stored(m, key, s2, t2)
  {
  }

  /** Stores under different identifiers do not interfere. */
  lemma StoresCommute(m: Entries, k1: string, s1: string, k2: string, s2: string, now: int)
    requires k1 != k2
    ensures Stored(Stored(m, k1, s1, now), k2, s2, now) == Stored(Stored(m, k2, s2, now), k1, s1, now)
  {
  }

  /** A read never resurrects or alters anything: reading again at the same time gives the
      same answer and leaves the cache as the first read left it. */
  lemma LookupStable(m: Entries, key: string, now: int)
    ensures Looked(Looked(m, key, now).after, key, now) == Looked(m, key, now)
  {
  }

  /** One service's cache: the module-level dict, updated in place. */
  class TtlCache {
    var entries: Entries

    ghost predicate Valid()
      reads this
    {
      AllStorable(entries)
    }

    constructor ()
      ensures Valid() && entries == map[]
    {
      entries := map[];
    }

    /** `store_api_key_for_phone` / `store_token_for_channel` / `store_token_for_entity`. */
    method Store(key: string, secret: string, now: int)
      requires Valid()
      modifies this
      ensures Valid()
      ensures entries == Stored(old(entries), key, secret, now)
    {
      if key != "" && secret != "" && secret != Placeholder {
        entries := entries[key := Entry(secret, now + Lifetime)];
      }
    }

    /** `get_api_key_for_phone` / `get_token_for_channel` / `get_token_for_entity`. */
    method Get(key: string, now: int) returns (secret: Option<string>)
      requires Valid()
      modifies this
      ensures Valid()
      ensures Lookup(secret, entries) == Looked(old(entries), key, now)
    {
      if key in entries {
        var entry := entries[key];
        if entry.expires > now {
          return Some(entry.secret);
        }
        entries := entries - {key};
      }
      return None;
    }
  }
}

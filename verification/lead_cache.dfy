/** The in-memory cache of src/lib/leads.ts: entries stamped with the time
    they were stored, a fixed time-to-live, and invalidation by key
    substring. The clock (`Date.now()`) is the explicit `now` argument, in
    milliseconds. */
module LeadCache {

  import opened Optional
  import opened Strings

  /** `CACHE_TTL`, in milliseconds. */
  const CacheTtl: int := 30000

  datatype Entry<T> = Entry(data: T, timestamp: int)

  /** The cache `Map`; one cache per stored type. */
  type Cache<T> = map<string, Entry<T>>

  /** The keys the reading functions use. */
  const LeadsAllKey: string := "leads:all"
  const SdrsKey: string := "sdrs:all"
  const UsersKey: string := "users:all"

  function SdrLeadsKey(sdrId: string): string {
    "leads:sdr:" + sdrId
  }

  /** `getCached`: the stored data while it is younger than the TTL;
      otherwise nothing, and the key is dropped. */
  function GetCached<T>(cache: Cache<T>, key: string, now: int): (r: (Option<T>, Cache<T>))
    ensures r.0.Some? <==> key in cache && now - cache[key].timestamp < CacheTtl
    ensures r.0.Some? ==> r.0.value == cache[key].data && r.1 == cache
    ensures r.0.None? ==> r.1 == cache - {key}
  {
    if key in cache && now - cache[key].timestamp < CacheTtl then (Some(cache[key].data), cache)
    else (None, cache - {key})
  }

  /** `setCache`: stores the data stamped with the current time. */
  function SetCache<T>(cache: Cache<T>, key: string, data: T, now: int): (r: Cache<T>)
    ensures key in r && r[key].data == data && r[key].timestamp == now
    ensures forall k :: k != key ==> (k in r <==> k in cache) && (k in cache ==> r[k] == cache[k])
  {
    cache[key := Entry(data, now)]
  }

  /** A stored value is read back for exactly the TTL: from the instant it
      is stored until 29999 ms later, and no longer from 30000 ms on. */
  lemma SetThenGet<T>(cache: Cache<T>, key: string, data: T, now: int, later: int)
    requires now <= later
    ensures GetCached(SetCache(cache, key, data, now), key, later).0 ==
      if later < now + CacheTtl then Some(data) else None
  {
  }

  /** A read through the cache as the reading functions do it: a hit is
      returned without fetching; on a miss the fetched value (None when the
      query failed and threw) is stored and returned. */
  function ReadThrough<T>(cache: Cache<T>, key: string, now: int, fetched: Option<T>): (r: (Option<T>, Cache<T>))
    ensures GetCached(cache, key, now).0.Some? ==> r == GetCached(cache, key, now)
    ensures GetCached(cache, key, now).0.None? && fetched.Some? ==>
      r.0 == fetched && GetCached(r.1, key, now).0 == fetched
    ensures GetCached(cache, key, now).0.None? && fetched.None? ==> r.0.None? && key !in r.1
  {
    var (hit, afterGet) := GetCached(cache, key, now);
    if hit.Some? then (hit, afterGet)
    else if fetched.None? then (None, afterGet)
    else (fetched, SetCache(afterGet, key, fetched.value, now))
  }

  /** `invalidateCache`: with a non-empty pattern, drops exactly the keys
      containing it; with none (or '') empties the cache. */
  function Invalidate<T>(cache: Cache<T>, pattern: Option<string>): (r: Cache<T>)
    ensures pattern.None? || pattern.value == "" ==> r == map[]
    ensures pattern.Some? && pattern.value != "" ==>
      forall k :: k in r <==> k in cache && !Contains(k, pattern.value)
    ensures forall k :: k in r ==> k in cache && r[k] == cache[k]
  {
    if pattern.Some? && pattern.value != "" then
      map k | k in cache && !Contains(k, pattern.value) :: cache[k]
    else map[]
  }

  // ---------------------------------------------------------------------
  // Which keys each mutation drops
  // ---------------------------------------------------------------------

  lemma LeadsKeysMatchLeads(sdrId: string)
    ensures Contains(LeadsAllKey, "leads")
    ensures Contains(SdrLeadsKey(sdrId), "leads")
  {
    ContainsSelf("leads");
    assert LeadsAllKey == "leads" + ":all";
    ContainsPrefix("leads", ":all", "leads");
    assert SdrLeadsKey(sdrId) == "leads" + (":sdr:" + sdrId);
    ContainsPrefix("leads", ":sdr:" + sdrId, "leads");
  }

  lemma ProfileKeysMissLeads()
    ensures !Contains(SdrsKey, "leads") && !Contains(UsersKey, "leads")
  {
    ContainsChar(SdrsKey, "leads", 'e');
    ContainsChar(UsersKey, "leads", 'd');
  }

  /** A lead mutation (`invalidateCache('leads')`) drops the all-leads list
      and every SDR's list, and keeps the SDR and user lists. */
  lemma LeadMutationInvalidates<T>(cache: Cache<T>, sdrId: string)
    ensures var r := Invalidate(cache, Some("leads"));
      LeadsAllKey !in r && SdrLeadsKey(sdrId) !in r &&
      (SdrsKey in r <==> SdrsKey in cache) && (UsersKey in r <==> UsersKey in cache)
  {
    LeadsKeysMatchLeads(sdrId);
    ProfileKeysMissLeads();
  }

  lemma ProfileKeysMatch()
    ensures Contains(UsersKey, "users") && Contains(SdrsKey, "sdrs")
    ensures !Contains(UsersKey, "sdrs") && !Contains(SdrsKey, "users")
    ensures !Contains(LeadsAllKey, "users") && !Contains(LeadsAllKey, "sdrs")
  {
    ContainsSelf("users");
    assert UsersKey == "users" + ":all";
    ContainsPrefix("users", ":all", "users");
    ContainsSelf("sdrs");
    assert SdrsKey == "sdrs" + ":all";
    ContainsPrefix("sdrs", ":all", "sdrs");
    ContainsChar(UsersKey, "sdrs", 'd');
    ContainsChar(SdrsKey, "users", 'u');
    ContainsChar(LeadsAllKey, "users", 'u');
    ContainsChar(LeadsAllKey, "sdrs", 'r');
  }

  lemma SdrPrefixMissesProfiles()
    ensures !Contains("leads:sdr", "users") && !Contains("leads:sdr", "sdrs")
  {
    ContainsChar("leads:sdr", "users", 'u');
  }

  /** An SDR's list survives only when its id contains neither pattern. */
  lemma SdrKeyAgainstProfiles(sdrId: string)
    ensures Contains(SdrLeadsKey(sdrId), "users") <==> Contains(sdrId, "users")
    ensures Contains(SdrLeadsKey(sdrId), "sdrs") <==> Contains(sdrId, "sdrs")
  {
    assert SdrLeadsKey(sdrId) == "leads:sdr" + [':'] + sdrId;
    SdrPrefixMissesProfiles();
    ContainsAcrossSeparator("leads:sdr", ':', sdrId, "users");
    ContainsAcrossSeparator("leads:sdr", ':', sdrId, "sdrs");
  }

  /** A profile change (`invalidateCache('users')` then
      `invalidateCache('sdrs')`) drops the user and SDR lists and keeps the
      all-leads list; an SDR's list is kept unless the SDR's id itself
      contains "users" or "sdrs". */
  lemma ProfileChangeInvalidates<T>(cache: Cache<T>, sdrId: string)
    ensures var r := Invalidate(Invalidate(cache, Some("users")), Some("sdrs"));
      UsersKey !in r && SdrsKey !in r &&
      (LeadsAllKey in r <==> LeadsAllKey in cache) &&
      (SdrLeadsKey(sdrId) in r <==>
        SdrLeadsKey(sdrId) in cache && !Contains(sdrId, "users") && !Contains(sdrId, "sdrs"))
  {
    ProfileKeysMatch();
    SdrKeyAgainstProfiles(sdrId);
  }

  /** Ids made of lower-case hexadecimal digits and dashes (UUIDs). */
  predicate IsUuidLike(id: string) {
    forall i :: 0 <= i < |id| ==> id[i] in "0123456789abcdef-"
  }

  /** So the SDRs' lists always survive a profile change. */
  lemma UuidListsSurviveProfileChange<T>(cache: Cache<T>, sdrId: string)
    requires IsUuidLike(sdrId)
    ensures var r := Invalidate(Invalidate(cache, Some("users")), Some("sdrs"));
      SdrLeadsKey(sdrId) in r <==> SdrLeadsKey(sdrId) in cache
  {
    ContainsChar(sdrId, "users", 'u');
    ContainsChar(sdrId, "sdrs", 'r');
    ProfileChangeInvalidates(cache, sdrId);
  }
}

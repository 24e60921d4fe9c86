/** The decision cache as the bouncer uses it: a key/value store with a time to
    live per entry, a distinguished miss, and a backend that can fail. Expiry
    is the storage collaborator's promise, stated here as an interface contract:
    an entry is visible while the clock is below its expiry stamp. */
module DecisionCache {
  import opened Types

  datatype Entry = Entry(value: Value, expiresAt: int)

  /** Entries with their expiry stamps, the backend's clock in seconds, and
      the error every lookup reports while the backend is failing. */
  datatype CacheState = CacheState(entries: map<string, Entry>, now: int, fault: Option<string>)

  /** The three answers of a cache read: a value, the CacheMiss error, or any other error. */
  datatype LookupResult = Hit(value: Value) | Miss | Failed(message: string)

  /** A read: the backend error while failing, the value while the entry has
      not reached its expiry stamp, and the miss otherwise. */
  function Lookup(s: CacheState, key: string): (r: LookupResult)
    ensures r.Failed? <==> s.fault.Some?
    ensures r.Hit? <==> s.fault.None? && key in s.entries && s.now < s.entries[key].expiresAt
    ensures r.Hit? ==> r.value == s.entries[key].value
  {
    if s.fault.Some? then Failed(s.fault.value)
    else if key in s.entries && s.now < s.entries[key].expiresAt then Hit(s.entries[key].value)
    else Miss
  }

  /** The state after `Set(key, v, ttl)`. */
  function Stored(s: CacheState, key: string, v: Value, ttl: int): (r: CacheState)
    ensures Lookup(r, key) == if s.fault.Some? then Failed(s.fault.value)
                              else if ttl > 0 then Hit(v) else Miss
    ensures forall k :: k != key ==> Lookup(r, k) == Lookup(s, k)
    ensures r.now == s.now && r.fault == s.fault
  {
    s.(entries := s.entries[key := Entry(v, s.now + ttl)])
  }

  /** The state after `Delete(key)`. */
  function Removed(s: CacheState, key: string): (r: CacheState)
    ensures Lookup(r, key) == if s.fault.Some? then Failed(s.fault.value) else Miss
    ensures forall k :: k != key ==> Lookup(r, k) == Lookup(s, k)
    ensures r.now == s.now && r.fault == s.fault
  {
    s.(entries := s.entries - {key})
  }

  /** The state once `dt` seconds have passed on the backend's clock. */
  function Elapsed(s: CacheState, dt: nat): (r: CacheState)
    ensures r.fault == s.fault && r.entries == s.entries
    ensures forall k :: k in s.entries && s.now + dt < s.entries[k].expiresAt ==>
              Lookup(r, k) == Lookup(s, k)
    ensures forall k :: k in s.entries && s.entries[k].expiresAt <= s.now + dt && s.fault.None? ==>
              Lookup(r, k) == Miss
    ensures forall k :: Lookup(s, k).Miss? ==> Lookup(r, k).Miss?
  {
    s.(now := s.now + dt)
  }

  /** A value written with time to live `ttl` is read back until `ttl` seconds
      have passed and is a miss from then on. */
  lemma StoredExpiresAfterTtl(s: CacheState, key: string, v: Value, ttl: int, dt: nat)
    requires s.fault.None?
    ensures Lookup(Elapsed(Stored(s, key, v, ttl), dt), key) == if dt < ttl then Hit(v) else Miss
  {
    assert key in Stored(s, key, v, ttl).entries;
  }

  /** The object the bouncer shares with its captcha client. */
  class Cache {
    var entries: map<string, Entry>
    var now: int
    var fault: Option<string>

    function State(): CacheState
      reads this
    {
      CacheState(entries, now, fault)
    }

    constructor (clock: int)
      ensures State() == CacheState(map[], clock, None)
    {
      entries, now, fault := map[], clock, None;
    }

    method Get(key: string) returns (r: LookupResult)
      ensures r == Lookup(State(), key)
    {
      if fault.Some? {
        r := Failed(fault.value);
      } else if key in entries && now < entries[key].expiresAt {
        r := Hit(entries[key].value);
      } else {
        r := Miss;
      }
    }

    method Set(key: string, v: Value, ttl: int)
      modifies this
      ensures State() == Stored(old(State()), key, v, ttl)
    {
      entries := entries[key := Entry(v, now + ttl)];
    }

    method Delete(key: string)
      modifies this
      ensures State() == Removed(old(State()), key)
    {
      entries := entries - {key};
    }
  }
}

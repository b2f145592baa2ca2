/** `utils.py`: the expiring cache that memoises price and chain-explorer lookups,
    and the currency-symbol check. The clock is a parameter (`now`, in seconds)
    instead of a call to `time.time()`. */
module Utils {
  import opened Wrappers

  /** One cache slot: the stored value and the instant it was stored. */
  datatype Entry<V> = Entry(data: V, timestamp: real)

  /** What a lookup of `key` at `now` yields: the stored value while strictly
      less than `ttl` seconds have passed since it was stored, nothing otherwise. */
  function Fresh<V>(cache: map<string, Entry<V>>, ttl: real, key: string, now: real): Option<V> {
    if key in cache && now - cache[key].timestamp < ttl then Some(cache[key].data) else None
  }

  /** `DataCache`: a dictionary of timestamped entries. Expiry is lazy: `Get`
      never removes anything, and an expired entry stays until `Set` overwrites it. */
  class DataCache<V> {
    var cache: map<string, Entry<V>>
    const ttl: real

    constructor (ttl: real)
      ensures this.ttl == ttl && cache == map[]
    {
      this.ttl := ttl;
      cache := map[];
    }

    /** `get(key)`: hit only for a present entry younger than `ttl`. */
    method Get(key: string, now: real) returns (r: Option<V>)
      ensures r.Some? <==> key in cache && now - cache[key].timestamp < ttl
      ensures r.Some? ==> r.value == cache[key].data
      ensures r == Fresh(cache, ttl, key, now)
    {
      if key in cache {
        var item := cache[key];
        if now - item.timestamp < ttl {
          return Some(item.data);
        }
      }
      return None;
    }

    /** `set(key, data)`: overwrite `key`'s entry and restart its clock. */
    method Set(key: string, data: V, now: real)
      modifies this`cache
      ensures cache == old(cache)[key := Entry(data, now)]
    {
      cache := cache[key := Entry(data, now)];
    }
  }

  /** A value just stored is returned at the same instant exactly when the TTL is positive. */
  lemma FreshAfterSet<V>(cache: map<string, Entry<V>>, ttl: real, key: string, data: V, now: real)
    ensures Fresh(cache[key := Entry(data, now)], ttl, key, now) == if ttl > 0.0 then Some(data) else None
  {
  }

  /** Storing under one key leaves what every other key yields unchanged. */
  lemma FreshAfterSetOther<V>(cache: map<string, Entry<V>>, ttl: real, key: string, data: V, now: real,
                              other: string, later: real)
    requires other != key
    ensures Fresh(cache[key := Entry(data, now)], ttl, other, later) == Fresh(cache, ttl, other, later)
  {
  }

  /** Once exactly `ttl` seconds have passed the entry is no longer returned, nor at any later time. */
  lemma ExpiredFromTtlOn<V>(cache: map<string, Entry<V>>, ttl: real, key: string, data: V, stored: real, later: real)
    requires later >= stored + ttl
    ensures Fresh(cache[key := Entry(data, stored)], ttl, key, later) == None
  {
  }

  predicate IsAsciiUpper(c: char) {
    'A' <= c <= 'Z'
  }

  /** Length of the run of ASCII capitals that starts `s`. */
  function UpperRun(s: string): (n: nat)
    ensures n <= |s|
    ensures forall i :: 0 <= i < n ==> IsAsciiUpper(s[i])
    ensures n < |s| ==> !IsAsciiUpper(s[n])
  {
    if s == [] || !IsAsciiUpper(s[0]) then 0 else 1 + UpperRun(s[1..])
  }

  /** What may follow the letters: `(/USDT)?` and then `$`, which in Python also
      matches just before one final line feed. */
  predicate CurrencySuffix(t: string) {
    t == "" || t == "\n" || t == "/USDT" || t == "/USDT\n"
  }

  /** `is_valid_currency`: `re.match(r'^[A-Z]{2,6}(/USDT)?$', currency) is not None`. */
  predicate IsValidCurrency(currency: string) {
    var n := UpperRun(currency);
    2 <= n <= 6 && CurrencySuffix(currency[n..])
  }

  /** The regular expression matches when some split of the input is 2 to 6
      capitals followed by an allowed suffix. */
  ghost predicate PatternMatchesAt(s: string, k: int) {
    && 2 <= k <= 6 && k <= |s|
    && (forall i :: 0 <= i < k ==> IsAsciiUpper(s[i]))
    && CurrencySuffix(s[k..])
  }

  /** The scanning check accepts exactly the strings the pattern matches. */
  lemma IsValidCurrencyMatchesPattern(s: string)
    ensures IsValidCurrency(s) <==> exists k :: PatternMatchesAt(s, k)
  {
    if IsValidCurrency(s) {
      assert PatternMatchesAt(s, UpperRun(s));
    }
    if k :| PatternMatchesAt(s, k) {
      assert k < |s| ==> s[k] == s[k..][0];
      assert UpperRun(s) == k;
    }
  }
}

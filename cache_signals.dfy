/** The cache signal handlers (transactions/signals.py): after a
    transaction is saved or deleted, two dashboard keys of its user are
    deleted from the cache, and nothing else is touched. */
module CacheSignals {
  import opened Text
  import opened Dates
  import opened TransactionModel

  const KeyPrefix: string := "dashboard_stats_"

  /** `f"dashboard_stats_{uid}_{suffix}"`: the shape both keys share. */
  function UserPrefixed(user: nat, suffix: string): string
  {
    KeyPrefix + DecimalString(user) + "_" + suffix
  }

  /** `f"dashboard_stats_{uid}_dashboard_{date:%Y%m%d}"`. */
  function DateKey(user: nat, d: Date): string
    requires Valid(d)
  {
    UserPrefixed(user, "dashboard_" + FormatYmd(d))
  }

  /** `f"dashboard_stats_{uid}_"`. */
  function UserKey(user: nat): string
  {
    UserPrefixed(user, "")
  }

  /** The keys both handlers pass to `cache.delete_many`. */
  function StaleKeys(user: nat, d: Date): (keys: set<string>)
    requires Valid(d)
    ensures |keys| == 2
  {
    KeysDistinct(user, d);
    {DateKey(user, d), UserKey(user)}
  }

  /** The date key is longer than the user key, so they never coincide. */
  lemma KeysDistinct(user: nat, d: Date)
    requires Valid(d)
    ensures DateKey(user, d) != UserKey(user)
  {
    assert |DateKey(user, d)| == |UserKey(user)| + 18;
  }

  /** Both kinds of key start with the prefix, the user id's digits and an
      underscore; the digits can be read back, so keys with different user
      ids differ. */
  lemma KeyNamesOwner(a: nat, b: nat, x: string, y: string)
    ensures UserPrefixed(a, x) == UserPrefixed(b, y) ==> a == b
  {
    if UserPrefixed(a, x) == UserPrefixed(b, y) {
      assert UserPrefixed(a, x)[|KeyPrefix|..] == DecimalString(a) + ['_'] + x;
      assert UserPrefixed(b, y)[|KeyPrefix|..] == DecimalString(b) + ['_'] + y;
      DigitRunDelimited(DecimalString(a), DecimalString(b), '_', x, y);
      DecimalStringInjective(a, b);
    }
  }

  /** The cache after `delete_many(StaleKeys(user, d))`. */
  function Evict<V>(m: map<string, V>, user: nat, d: Date): (r: map<string, V>)
    requires Valid(d)
    ensures DateKey(user, d) !in r && UserKey(user) !in r
    ensures forall k :: k !in StaleKeys(user, d) ==> (k in r <==> k in m)
    ensures forall k :: k in r ==> r[k] == m[k]
  {
    m - StaleKeys(user, d)
  }

  /** Evicting twice leaves the same cache as evicting once. */
  lemma EvictIdempotent<V>(m: map<string, V>, user: nat, d: Date)
    requires Valid(d)
    ensures Evict(Evict(m, user, d), user, d) == Evict(m, user, d)
  {
  }

  /** Another user's keys, for any date, survive the eviction. */
  lemma EvictSparesOtherUsers<V>(m: map<string, V>, user: nat, d: Date, other: nat, d2: Date)
    requires Valid(d) && Valid(d2) && other != user
    ensures DateKey(other, d2) in m ==> DateKey(other, d2) in Evict(m, user, d)
    ensures UserKey(other) in m ==> UserKey(other) in Evict(m, user, d)
  {
    KeyNamesOwner(other, user, "dashboard_" + FormatYmd(d2), "dashboard_" + FormatYmd(d));
    KeyNamesOwner(other, user, "dashboard_" + FormatYmd(d2), "");
    KeyNamesOwner(other, user, "", "dashboard_" + FormatYmd(d));
    KeyNamesOwner(other, user, "", "");
  }

  /** The date key names its date: the last eight characters are the
      `%Y%m%d` rendering, which reads back to the date. */
  lemma DateKeyNamesDate(user: nat, a: Date, b: Date)
    requires Valid(a) && Valid(b)
    ensures DateKey(user, a) == DateKey(user, b) ==> a == b
  {
    if DateKey(user, a) == DateKey(user, b) {
      var n := |UserPrefixed(user, "dashboard_")|;
      assert DateKey(user, a)[n..] == FormatYmd(a);
      assert DateKey(user, b)[n..] == FormatYmd(b);
      FormatYmdRoundTrip(a);
      FormatYmdRoundTrip(b);
    }
  }

  /** Saving a transaction under a new date evicts only the new date's key:
      the key for the date it had before stays in the cache. */
  lemma EditLeavesOldDateKey<V>(m: map<string, V>, user: nat, oldDate: Date, newDate: Date)
    requires Valid(oldDate) && Valid(newDate) && oldDate != newDate
    requires DateKey(user, oldDate) in m
    ensures DateKey(user, oldDate) in Evict(m, user, newDate)
  {
    DateKeyNamesDate(user, oldDate, newDate);
    KeysDistinct(user, oldDate);
    assert |DateKey(user, oldDate)| != |UserKey(user)|;
  }

  /** The process-wide cache, a map from keys to cached values. */
  class DashboardCache<V> {
    var entries: map<string, V>

    constructor ()
      ensures entries == map[]
    {
      entries := map[];
    }

    /** `cache.delete_many(keys)`: absent keys are ignored. */
    method DeleteMany(keys: seq<string>)
      modifies this
      ensures entries == old(entries) - set k | k in keys
    {
      entries := entries - set k | k in keys;
    }

    /** `invalidate_dashboard_cache_on_save`, for the saved instance. */
    method OnSave(t: Transaction)
      requires Valid(t.date)
      modifies this
      ensures entries == Evict(old(entries), t.user, t.date)
    {
      DeleteMany([DateKey(t.user, t.date), UserKey(t.user)]);
    }

    /** `invalidate_dashboard_cache_on_delete`: the same two keys. */
    method OnDelete(t: Transaction)
      requires Valid(t.date)
      modifies this
      ensures entries == Evict(old(entries), t.user, t.date)
    {
      DeleteMany([DateKey(t.user, t.date), UserKey(t.user)]);
    }
  }
}

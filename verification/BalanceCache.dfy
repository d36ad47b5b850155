/** The stale-while-revalidate caches of internal/service/limits/balance.go and cache.go,
    region by region. Both run the same protocol; a key is either a balance in one billing
    mode or the spend of one API key. */
module BalanceCache {
  import opened Common
  import opened Billing

  datatype Key = Balance(user: int, mode: Mode) | Spend(name: string)

  datatype CacheEntry = CacheEntry(usd: real, refreshedAt: int, refreshing: bool)

  type Entries = map<Key, CacheEntry>

  function BothModes(user: int): set<Key> { {Balance(user, Payg), Balance(user, PlanMode)} }

  predicate Stale(e: CacheEntry, now: int, ttl: int) { now - e.refreshedAt >= ttl }

  /** The first locked region: a stale entry with no refresh under way gets one. */
  predicate StartsRefresh(es: Entries, k: Key, now: int, ttl: int) {
    k in es && Stale(es[k], now, ttl) && !es[k].refreshing
  }

  function AfterLookup(es: Entries, k: Key, now: int, ttl: int): Entries {
    if StartsRefresh(es, k, now, ttl) then es[k := es[k].(refreshing := true)] else es
  }

  /** The cold path's second region: seed unless someone else has. */
  function AfterSeed(es: Entries, k: Key, usd: real, now: int): Entries {
    if k in es then es else es[k := CacheEntry(usd, now, false)]
  }

  /** The end of a background refresh; None stands for a source error. */
  function AfterRefresh(es: Entries, k: Key, usd: Option<real>, now: int): Entries {
    if k !in es then es
    else if usd.None? then es[k := es[k].(refreshing := false)]
    else es[k := CacheEntry(usd.value, now, false)]
  }

  /** Folding a delta into every cached entry of a set of keys. */
  function Folded(es: Entries, ks: set<Key>, delta: real): Entries {
    map k | k in es :: if k in ks then es[k].(usd := es[k].usd + delta) else es[k]
  }

  /** A BalanceGuard or a SpendCache; times are in milliseconds. */
  class Cache {
    const ttl: int
    var entries: Entries

    constructor ForSpend(ttl: int)
      ensures entries == map[] && this.ttl == ttl
    {
      this.ttl := ttl;
      entries := map[];
    }

    constructor (ttl: int)
      ensures entries == map[] && this.ttl == if ttl <= 0 then 5000 else ttl
    {
      this.ttl := if ttl <= 0 then 5000 else ttl;
      entries := map[];
    }

    /** A known key is served from memory; `refresh` tells the caller to start the single
        background reload, and a miss sends it to the source. */
    method Lookup(k: Key, now: int) returns (hit: Option<real>, refresh: bool)
      modifies this
      ensures entries == AfterLookup(old(entries), k, now, ttl)
      ensures refresh == StartsRefresh(old(entries), k, now, ttl)
      ensures hit == if k in old(entries) then Some(old(entries)[k].usd) else None
      ensures refresh <==>
        k in old(entries) && now - old(entries)[k].refreshedAt >= ttl && !old(entries)[k].refreshing
      ensures refresh ==> entries == old(entries)[k := old(entries)[k].(refreshing := true)]
      ensures !refresh ==> entries == old(entries)
    {
      if k !in entries {
        return None, false;
      }
      hit := Some(entries[k].usd);
      refresh := now - entries[k].refreshedAt >= ttl && !entries[k].refreshing;
      if refresh {
        entries := entries[k := entries[k].(refreshing := true)];
      }
    }

    method Seed(k: Key, usd: real, now: int) returns (served: real)
      modifies this
      ensures entries == AfterSeed(old(entries), k, usd, now)
      ensures k in entries && served == entries[k].usd
      ensures k !in old(entries) ==> entries == old(entries)[k := CacheEntry(usd, now, false)]
      ensures k in old(entries) ==> entries == old(entries)
    {
      if k !in entries {
        entries := entries[k := CacheEntry(usd, now, false)];
      }
      served := entries[k].usd;
    }

    method FinishRefresh(k: Key, usd: Option<real>, now: int)
      modifies this
      ensures entries == AfterRefresh(old(entries), k, usd, now)
      ensures k !in old(entries) ==> entries == old(entries)
      ensures k in old(entries) && usd.None? ==> entries == old(entries)[k := old(entries)[k].(refreshing := false)]
      ensures k in old(entries) && usd.Some? ==> entries == old(entries)[k := CacheEntry(usd.value, now, false)]
    {
      if k in entries {
        entries := if usd.None? then entries[k := entries[k].(refreshing := false)]
                   else entries[k := CacheEntry(usd.value, now, false)];
      }
    }

    /** Lowers both modes: the wallet is shared. */
    method ChargeWallet(user: int, usd: real)
      modifies this
      ensures entries == if usd <= 0.0 then old(entries) else Folded(old(entries), BothModes(user), -usd)
    {
      if usd > 0.0 {
        FoldBoth(user, -usd);
      }
    }

    /** Lowers the plan mode only. */
    method ChargePlan(user: int, usd: real)
      modifies this
      ensures entries == if usd <= 0.0 then old(entries) else Folded(old(entries), {Balance(user, PlanMode)}, -usd)
    {
      if usd > 0.0 {
        FoldOne(Balance(user, PlanMode), -usd);
      }
    }

    /** A wallet top-up raises both modes. */
    method Credit(user: int, usd: real)
      modifies this
      ensures entries == if usd == 0.0 then old(entries) else Folded(old(entries), BothModes(user), usd)
    {
      if usd != 0.0 {
        FoldBoth(user, usd);
      }
    }

    /** SpendCache.Add. */
    method AddSpend(name: string, usd: real)
      modifies this
      ensures entries == if usd <= 0.0 then old(entries) else Folded(old(entries), {Spend(name)}, usd)
    {
      if usd > 0.0 {
        FoldOne(Spend(name), usd);
      }
    }

    method FoldOne(k: Key, delta: real)
      modifies this
      ensures entries == Folded(old(entries), {k}, delta)
    {
      if k in entries {
        entries := entries[k := entries[k].(usd := entries[k].usd + delta)];
      }
    }

    method FoldBoth(user: int, delta: real)
      modifies this
      ensures entries == Folded(old(entries), BothModes(user), delta)
    {
      var modes := [Payg, PlanMode];
      var i := 0;
      while i < |modes|
        invariant 0 <= i <= 2
        invariant entries == Folded(old(entries), set j | 0 <= j < i :: Balance(user, modes[j]), delta)
      {
        ghost var done := set j | 0 <= j < i :: Balance(user, modes[j]);
        assert (set j | 0 <= j < i + 1 :: Balance(user, modes[j])) == done + {Balance(user, modes[i])};
        FoldOne(Balance(user, modes[i]), delta);
        i := i + 1;
      }
      assert (set j | 0 <= j < 2 :: Balance(user, modes[j])) == BothModes(user) by {
        assert modes[0] == Payg && modes[1] == PlanMode;
      }
    }
  }
}

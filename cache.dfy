/**
 * The local decision cache: a map from request fingerprint to firewall policy, switched
 * on or off once, when the cache is built from the firewall defaults.
 */
module DecisionCache {
  import opened Types
  import opened CacheKeys

  /** The abstract value of a cache: its activity flag and its entries. */
  datatype CacheView = CacheView(active: bool, entries: map<CacheKey, FirewallPolicy>)

  /** The value of a cache just built from `defaults`. */
  function Fresh(defaults: FirewallDefaults): CacheView
  {
    CacheView(defaults.cache, map[])
  }

  /** What a lookup of `key` returns. */
  function Lookup(c: CacheView, key: CacheKey): Option<FirewallPolicy>
  {
    if c.active && key in c.entries then Some(c.entries[key]) else None
  }

  /** The value after inserting `policy` under `key`. */
  function Store(c: CacheView, key: CacheKey, policy: FirewallPolicy): CacheView
  {
    if c.active then c.(entries := c.entries[key := policy]) else c
  }

  /** One insertion request: a key and the policy decided for it. */
  type Decision = (CacheKey, FirewallPolicy)

  /** The value after inserting every decision of `ds`, in order. */
  function StoreAll(c: CacheView, ds: seq<Decision>): CacheView
  {
    if ds == [] then c else Store(StoreAll(c, ds[..|ds| - 1]), ds[|ds| - 1].0, ds[|ds| - 1].1)
  }

  /** The policy of the last decision of `ds` made for `key`, if any. */
  function LastDecision(ds: seq<Decision>, key: CacheKey): Option<FirewallPolicy>
  {
    if ds == [] then None
    else if ds[|ds| - 1].0 == key then Some(ds[|ds| - 1].1)
    else LastDecision(ds[..|ds| - 1], key)
  }

  class Cache {
    const active: bool
    var entries: map<CacheKey, FirewallPolicy>

    function View(): CacheView
      reads this
    {
      CacheView(active, entries)
    }

    /** A new cache holds no entry and is active exactly when the defaults enable caching. */
    constructor (defaults: FirewallDefaults)
      ensures active == defaults.cache && entries == map[]
      ensures View() == Fresh(defaults)
    {
      active := defaults.cache;
      entries := map[];
    }

    /**
     * An inactive cache answers nothing; an active one answers exactly its entry for
     * `key`.
     */
    function Get(key: CacheKey): (r: Option<FirewallPolicy>)
      reads this
      ensures r.Some? <==> active && key in entries
      ensures r.Some? ==> r.value == entries[key]
      ensures r == Lookup(View(), key)
    {
      if active then (if key in entries then Some(entries[key]) else None) else None
    }

    /**
     * An active cache binds `key` to `policy` and leaves every other key alone; an
     * inactive cache is left unchanged. The flag never changes.
     */
    method Insert(key: CacheKey, policy: FirewallPolicy)
      modifies this
      ensures active ==> entries == old(entries)[key := policy]
      ensures !active ==> entries == old(entries)
      ensures View() == Store(old(View()), key, policy)
      ensures active ==> Get(key) == Some(policy)
      ensures forall k :: k != key ==> Get(k) == old(Get(k))
    {
      if active {
        entries := entries[key := policy];
      }
    }
  }

  /** A fresh cache answers nothing. */
  lemma FreshIsEmpty(defaults: FirewallDefaults, key: CacheKey)
    ensures Lookup(Fresh(defaults), key) == None
  {
  }

  /** An inactive cache answers nothing, whatever its entries hold. */
  lemma InactiveAnswersNothing(c: CacheView, key: CacheKey)
    requires !c.active
    ensures Lookup(c, key) == None
  {
  }

  /** Inserting into an inactive cache changes nothing. */
  lemma InactiveIgnoresInsert(c: CacheView, key: CacheKey, policy: FirewallPolicy)
    requires !c.active
    ensures Store(c, key, policy) == c
  {
  }

  /** Get after insert, and insertion leaves the other keys and the flag alone. */
  lemma GetAfterInsert(c: CacheView, key: CacheKey, policy: FirewallPolicy, other: CacheKey)
    ensures Store(c, key, policy).active == c.active
    ensures c.active ==> Lookup(Store(c, key, policy), key) == Some(policy)
    ensures other != key ==> Lookup(Store(c, key, policy), other) == Lookup(c, other)
  {
  }

  /** A second insert on the same key overwrites the first. */
  lemma InsertOverwrites(c: CacheView, key: CacheKey, p1: FirewallPolicy, p2: FirewallPolicy)
    ensures Store(Store(c, key, p1), key, p2) == Store(c, key, p2)
  {
  }

  /**
   * After a sequence of insertions, an active cache answers the last decision made for
   * the key, or what it held before when no decision was made for it; an inactive cache
   * answers nothing.
   */
  lemma {:induction false} StoreAllLookup(c: CacheView, ds: seq<Decision>, key: CacheKey)
    ensures StoreAll(c, ds).active == c.active
    ensures Lookup(StoreAll(c, ds), key) ==
              if !c.active then None
              else if LastDecision(ds, key).Some? then LastDecision(ds, key)
              else Lookup(c, key)
  {
    if ds != [] {
      StoreAllLookup(c, ds[..|ds| - 1], key);
    }
  }

  /**
   * A cache rebuilt from new defaults answers only decisions inserted after it was
   * rebuilt: nothing cached before the rebuild can be returned.
   */
  lemma FreshForgetsEarlierDecisions(defaults: FirewallDefaults, ds: seq<Decision>, key: CacheKey)
    ensures Lookup(StoreAll(Fresh(defaults), ds), key) == if defaults.cache then LastDecision(ds, key) else None
  {
    StoreAllLookup(Fresh(defaults), ds, key);
  }
}

/**
 * The response cache: one entry per endpoint location, stamped with the
 * instant it was fetched, and the selection of the freshest still-valid
 * entry among a key's getters (TStat.py:55-62, 111-129).
 */
module Cache {
  import opened Wrappers
  import opened Json

  /** One candidate source of a logical key: an endpoint and a path into its payload. */
  datatype Getter = Getter(location: string, path: string)

  /** A fetched payload and the tick at which it was fetched. */
  datatype CacheEntry = CacheEntry(location: string, data: Json, time: int)
  {
    /** Ticks elapsed since the fetch; never negative while the clock only moves forward. */
    function Age(now: int): (a: int)
      ensures a >= 0 <==> time <= now
    {
      now - time
    }
  }

  type Store = map<string, CacheEntry>

  /** Every entry is filed under its own location and was fetched no later than `now`. */
  predicate Stamped(cache: Store, now: int)
  {
    forall l :: l in cache ==> cache[l].location == l && cache[l].time <= now
  }

  /** A getter's cached response may be reused: it exists and its age is strictly below the expiry. */
  predicate Eligible(cache: Store, expiry: int, now: int, g: Getter)
  {
    g.location in cache && cache[g.location].Age(now) < expiry
  }

  /** The expiry test is strict: an age equal to the expiry is already expired. */
  lemma ExpiryBoundary(cache: Store, expiry: int, now: int, g: Getter)
    requires g.location in cache
    ensures cache[g.location].Age(now) == expiry ==> !Eligible(cache, expiry, now, g)
    ensures cache[g.location].Age(now) == expiry - 1 ==> Eligible(cache, expiry, now, g)
  {
  }

  function AgeOf(cache: Store, now: int, g: Getter): int
    requires g.location in cache
  {
    cache[g.location].Age(now)
  }

  /**
   * Getter `k` is the winner: eligible, strictly younger than every eligible
   * getter before it, and no older than every eligible getter after it.
   */
  predicate IsFreshest(cache: Store, expiry: int, now: int, gs: seq<Getter>, k: nat)
  {
    && k < |gs|
    && Eligible(cache, expiry, now, gs[k])
    && (forall i :: 0 <= i < k && Eligible(cache, expiry, now, gs[i]) ==>
          AgeOf(cache, now, gs[k]) < AgeOf(cache, now, gs[i]))
    && (forall i :: k < i < |gs| && Eligible(cache, expiry, now, gs[i]) ==>
          AgeOf(cache, now, gs[k]) <= AgeOf(cache, now, gs[i]))
  }

  /** The index of the freshest eligible getter, scanning `gs` in order, or None. */
  function Freshest(cache: Store, expiry: int, now: int, gs: seq<Getter>): (w: Option<nat>)
    ensures w.None? <==> forall i :: 0 <= i < |gs| ==> !Eligible(cache, expiry, now, gs[i])
    ensures w.Some? ==> IsFreshest(cache, expiry, now, gs, w.value)
    decreases |gs|
  {
    if gs == [] then None
    else
      var n := |gs| - 1;
      var w := Freshest(cache, expiry, now, gs[..n]);
      if !Eligible(cache, expiry, now, gs[n]) then w
      else match w
        case None => Some(n)
        case Some(k) =>
          if AgeOf(cache, now, gs[n]) < AgeOf(cache, now, gs[k]) then Some(n) else w
  }

  /** The characterisation of IsFreshest singles out one getter. */
  lemma FreshestUnique(cache: Store, expiry: int, now: int, gs: seq<Getter>, k: nat)
    requires IsFreshest(cache, expiry, now, gs, k)
    ensures Freshest(cache, expiry, now, gs) == Some(k)
  {
    assert Eligible(cache, expiry, now, gs[k]);
  }

  /** With an expiry of zero or less nothing is eligible, so every read misses. */
  lemma NothingEligibleWithoutExpiry(cache: Store, expiry: int, now: int, gs: seq<Getter>)
    requires Stamped(cache, now)
    requires expiry <= 0
    ensures Freshest(cache, expiry, now, gs) == None
  {
    forall i | 0 <= i < |gs| ensures !Eligible(cache, expiry, now, gs[i]) {
      if gs[i].location in cache {
        assert cache[gs[i].location].time <= now;
      }
    }
  }

  /**
   * A getter whose entry was fetched at the latest instant any entry was
   * fetched wins over the later getters, so the first getter wins right after
   * its own fetch.
   */
  lemma JustFetchedWins(cache: Store, expiry: int, t: int, now: int, gs: seq<Getter>)
    requires Stamped(cache, t) && t <= now && now - t < expiry
    requires |gs| > 0 && gs[0].location in cache && cache[gs[0].location].time == t
    ensures Freshest(cache, expiry, now, gs) == Some(0)
  {
    forall i | 0 < i < |gs| && Eligible(cache, expiry, now, gs[i])
      ensures AgeOf(cache, now, gs[0]) <= AgeOf(cache, now, gs[i])
    {
      assert cache[gs[i].location].time <= t;
    }
    FreshestUnique(cache, expiry, now, gs, 0);
  }

  /** Of two valid responses the younger wins whatever the getters' order; a tie keeps the first. */
  lemma TwoGettersOrdering(cache: Store, expiry: int, now: int, g1: Getter, g2: Getter)
    requires Eligible(cache, expiry, now, g1) && Eligible(cache, expiry, now, g2)
    ensures AgeOf(cache, now, g2) < AgeOf(cache, now, g1) ==>
              Freshest(cache, expiry, now, [g1, g2]) == Some(1)
    ensures AgeOf(cache, now, g1) <= AgeOf(cache, now, g2) ==>
              Freshest(cache, expiry, now, [g1, g2]) == Some(0)
  {
    var gs := [g1, g2];
    assert gs[0] == g1 && gs[1] == g2;
    if AgeOf(cache, now, g2) < AgeOf(cache, now, g1) {
      FreshestUnique(cache, expiry, now, gs, 1);
    } else {
      FreshestUnique(cache, expiry, now, gs, 0);
    }
  }
}

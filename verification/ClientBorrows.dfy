/** What a borrow lends and what a lock section leaves behind, in terms of the entries alone. */
module ClientBorrows {
  import opened Basics
  import opened ClientManagement
  import opened ClientLeases

  // ---- What eviction leaves of one entry ----

  lemma {:induction false} CutDownSpares(s: Cache, order: seq<string>, maxsize: int, spared: set<string>, busy: set<Client>, u: string)
    requires u in s && u in spared
    ensures var t := CutDown(s, order, maxsize, spared, busy); u in t && t[u] == s[u]
    decreases |order|
  {
    if order != [] && |s| > maxsize {
      CutDownSpares(CutOne(s, order[0], spared, busy), order[1..], maxsize, spared, busy, u);
    }
  }

  lemma SparedIsKept(c: Settings, s: Cache, now: real, spared: set<string>, busy: set<Client>, next: nat, u: string)
    requires Sound(s, next) && u in s && u in spared
    ensures var t := Evicted(c, s, now, spared, busy, next);
            u in t && t[u] == if Doomed(s[u], now) then s[u].(pendingEviction := true) else s[u]
  {
    var t := Swept(s, now, spared, busy);
    if Crowded(c, t) {
      ShrinksSound(s, t, spared, busy, next);
      CutDownSpares(t, LruOrder(t, next), c.maxsize, spared, busy, u);
    }
  }

  lemma DoomedLeaves(c: Settings, s: Cache, now: real, spared: set<string>, busy: set<Client>, next: nat, u: string)
    requires Sound(s, next) && u in s && u !in spared && Doomed(s[u], now) && Idle(s[u], busy)
    ensures u !in Evicted(c, s, now, spared, busy, next)
  {
    var t := Swept(s, now, spared, busy);
    if Crowded(c, t) {
      ShrinksSound(s, t, spared, busy, next);
      CutDownShrinks(t, LruOrder(t, next), c.maxsize, spared, busy);
    }
  }

  // ---- What a borrow lends ----

  predicate Expired(x: Entry, now: real) { x.expiresAt.Some? && x.expiresAt.value <= now }

  /** The cached entry of the url that a borrow finds still usable. */
  predicate Usable(s: Cache, url: string, now: real, busy: set<Client>) {
    url in s && !(Expired(s[url], now) && s[url].borrows == 0 && s[url].client !in busy)
  }

  /** A deadline one lifetime away; without a positive lifetime there is none. */
  function FreshDeadlineAt(c: Settings, now: real): Option<real> { if c.ttl > 0.0 then Some(now + c.ttl) else None }

  /** The borrow of one lock section: the usable cached client, or a new one; either way with a fresh deadline, not
      pending, and with one borrow more. */
  lemma BorrowGives(c: Settings, s: Cache, url: string, now: real, busy: set<Client>, next: nat)
    requires Sound(s, next)
    ensures var t, usable := AfterBorrow(c, s, url, now, busy, next), Usable(s, url, now, busy);
            && url in t
            && t[url] == Entry(if usable then s[url].client else Client(url, next), now,
                               FreshDeadlineAt(c, now), if usable then s[url].borrows + 1 else 1, false)
  {
    var s1 := Reclaimed(s, url, now, busy);
    ReclaimedShrinks(s, url, now, busy);
    ShrinksSound(s, s1, {}, busy, next);
    EvictedShrinks(c, s1, now, {url}, busy, next);
    var s2 := Evicted(c, s1, now, {url}, busy, next);
    if url in s1 {
      SparedIsKept(c, s1, now, {url}, busy, next, url);
    }
    var s3 := Lent(c, s2, url, now, next);
    LentSound(c, s2, url, now, next);
    SparedIsKept(c, s3, now, {url}, busy, next + 1, url);
  }

  /** In every run: a borrow lends the cached client of its url unless that has passed its deadline while neither lent
      nor busy. Such a client, which is closed, and a missing one are replaced by a new client. */
  lemma BorrowLends(c: Settings, es: seq<Event>, e: Event)
    requires c.maxsize > 0 && e.Borrow? && e.lease !in Run(c, es).leases
    ensures var w, v := Run(c, es), Run(c, es + [e]);
            && e.lease in v.leases
            && var k := v.leases[e.lease];
               && k.url == e.url && e.url in v.cache && v.cache[e.url].client == k
               && if e.url !in w.cache then k == Client(e.url, w.next)
                  else
                    var x := w.cache[e.url];
                    if x.expiresAt.Some? && x.expiresAt.value <= e.now && x.borrows == 0 && x.client !in e.busy
                    then k == Client(e.url, w.next) && k != x.client && x.client in v.closed
                    else k == x.client
  {
    RunStep(c, es, e);
    var w := Run(c, es);
    BorrowGives(c, w.cache, e.url, e.now, e.busy, w.next);
    BorrowEffect(c, w.cache, e.url, e.now, e.busy, w.next);
    if e.url in w.cache && !Usable(w.cache, e.url, e.now, e.busy) {
      DroppedMember(w.cache, AfterBorrow(c, w.cache, e.url, e.now, e.busy, w.next), w.cache[e.url].client);
    }
  }

  /** A borrow renews the entry's deadline and last use, and the entry no longer waits to be evicted. */
  lemma BorrowRenews(c: Settings, es: seq<Event>, e: Event)
    requires c.maxsize > 0 && e.Borrow? && e.lease !in Run(c, es).leases
    ensures var v := Run(c, es + [e]);
            && e.url in v.cache
            && var x := v.cache[e.url];
               x.lastUsed == e.now && x.expiresAt == FreshDeadlineAt(c, e.now) && !x.pendingEviction
  {
    RunStep(c, es, e);
    var w := Run(c, es);
    BorrowGives(c, w.cache, e.url, e.now, e.busy, w.next);
  }

  /** So does a return of the borrowed entry, if the entry stays. */
  lemma ReturnRenews(c: Settings, es: seq<Event>, e: Event)
    requires c.maxsize > 0 && e.Return? && e.lease in Run(c, es).leases
    requires var k := Run(c, es).leases[e.lease]; Cached(Run(c, es).cache, k) && Cached(Run(c, es + [e]).cache, k)
    ensures var x := Run(c, es + [e]).cache[Run(c, es).leases[e.lease].url];
            x.lastUsed == e.now && x.expiresAt == FreshDeadlineAt(c, e.now)
  {
    RunStep(c, es, e);
    var w := Run(c, es);
    ReturnGives(c, w.cache, w.leases[e.lease], e.now, e.busy, w.next);
  }

  lemma ReturnGives(c: Settings, s: Cache, k: Client, now: real, busy: set<Client>, next: nat)
    requires Sound(s, next) && Cached(s, k) && Cached(AfterReturn(c, s, k, now, busy, next), k)
    ensures var x := AfterReturn(c, s, k, now, busy, next)[k.url];
            x.lastUsed == now && x.expiresAt == FreshDeadlineAt(c, now)
  {
    ReturnEffect(c, s, k, now, busy, next);
  }

  // ---- Nothing is lost ----

  /** Every client that leaves the cache is closed in the same lock section, and without a cache every client is its
      borrow's own and closed when that returns. */
  lemma LeavingIsClosed(c: Settings, es: seq<Event>, e: Event, k: Client)
    ensures var w, v := Run(c, es), Run(c, es + [e]);
            && (Cached(w.cache, k) && !Cached(v.cache, k) ==> k in v.closed)
            && (e.CloseAll? ==> v.cache == map[])
            && (c.maxsize <= 0 && e.Return? && e.lease in w.leases ==> w.leases[e.lease] in v.closed)
            && (c.maxsize <= 0 && e.Borrow? && e.lease !in w.leases ==>
                  e.lease in v.leases && v.leases[e.lease] == Client(e.url, w.next) && v.cache == map[])
  {
    RunStep(c, es, e);
    LedgerHolds(c, es);
    var w, v := Run(c, es), Run(c, es + [e]);
    if Cached(w.cache, k) && !Cached(v.cache, k) {
      DroppedMember(w.cache, v.cache, k);
    }
  }

  // ---- What does not stay ----

  /** After a lock section no entry stays that had passed its deadline or was waiting to be evicted, unless it is lent,
      busy, or the one just borrowed or returned; and one that is waiting leaves with the return of its last borrow. */
  lemma ExpiredIdleLeave(c: Settings, es: seq<Event>, e: Event, u: string)
    requires c.maxsize > 0 && u in Run(c, es).cache
    requires var w := Run(c, es);
             || (e.Borrow? && e.lease !in w.leases && u != e.url)
             || (e.Return? && e.lease in w.leases)
    requires var w := Run(c, es); var x := w.cache[u];
             var own := e.Return? && x.client == w.leases[e.lease];
             && (x.pendingEviction || (!own && x.expiresAt.Some? && x.expiresAt.value <= e.now))
             && x.client !in e.busy && |Holders(w.leases, x.client)| == if own then 1 else 0
    ensures u !in Run(c, es + [e]).cache
  {
    RunStep(c, es, e);
    LedgerHolds(c, es);
    var w := Run(c, es);
    if e.Borrow? {
      ExpiredLeavesOnBorrow(c, w.cache, e.url, e.now, e.busy, w.next, u);
    } else {
      var g := GivenBack(c, w.cache, w.leases[e.lease], e.now);
      GivenBackKeeps(c, w.cache, w.leases[e.lease], e.now, w.next);
      DoomedLeaves(c, g, e.now, {}, e.busy, w.next, u);
    }
  }

  lemma ExpiredLeavesOnBorrow(c: Settings, s: Cache, url: string, now: real, busy: set<Client>, next: nat, u: string)
    requires Sound(s, next) && u in s && u != url && Doomed(s[u], now) && Idle(s[u], busy)
    ensures u !in AfterBorrow(c, s, url, now, busy, next)
  {
    var s1 := Reclaimed(s, url, now, busy);
    ReclaimedShrinks(s, url, now, busy);
    ShrinksSound(s, s1, {}, busy, next);
    DoomedLeaves(c, s1, now, {url}, busy, next, u);
    EvictedShrinks(c, s1, now, {url}, busy, next);
    var s2 := Evicted(c, s1, now, {url}, busy, next);
    LentSound(c, s2, url, now, next);
    EvictedShrinks(c, Lent(c, s2, url, now, next), now, {url}, busy, next + 1);
  }

  lemma {:induction false} CutDownStops(s: Cache, order: seq<string>, maxsize: int, spared: set<string>, busy: set<Client>)
    ensures var t := CutDown(s, order, maxsize, spared, busy); |t| >= maxsize || t.Keys == s.Keys
    decreases |order|
  {
    if order != [] && |s| > maxsize {
      var t := CutOne(s, order[0], spared, busy);
      assert t.Keys == s.Keys || t.Keys == s.Keys - {order[0]};
      CutDownStops(t, order[1..], maxsize, spared, busy);
    }
  }

  /** An entry within its deadline and not waiting to be evicted leaves only to make room, and no more leave than that. */
  lemma FreshLeavesOnlyForRoom(c: Settings, s: Cache, now: real, spared: set<string>, busy: set<Client>, next: nat, u: string)
    requires Sound(s, next) && u in s && !Expired(s[u], now) && !s[u].pendingEviction
    requires u !in Evicted(c, s, now, spared, busy, next)
    ensures c.maxsize > 0 && |s| > c.maxsize && |Evicted(c, s, now, spared, busy, next)| >= c.maxsize
  {
    var t := Swept(s, now, spared, busy);
    ShrinksSound(s, t, spared, busy, next);
    SubsetSize(t.Keys, s.Keys);
    CutDownStops(t, LruOrder(t, next), c.maxsize, spared, busy);
  }
}

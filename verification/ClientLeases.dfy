/** Runs of the client cache: every interleaving of borrows, returns and shutdowns, each lock section one step. */
module ClientLeases {
  import opened Basics
  import opened ClientManagement

  /** The clients lent out, by borrow; the clients closed so far, with how often. */
  datatype World = World(cache: Cache, next: nat, leases: map<nat, Client>, closed: multiset<Client>)

  /** The clock and the set of busy clients are whatever they are at each step. */
  datatype Event =
    | Borrow(lease: nat, url: string, now: real, busy: set<Client>)
    | Return(lease: nat, now: real, busy: set<Client>)
    | CloseAll

  /** Without a cache (maxsize <= 0) every borrow makes a client of its own and its return closes it. */
  ghost function Step(c: Settings, w: World, e: Event): World
    requires Sound(w.cache, w.next)
  {
    match e
    case Borrow(lease, url, now, busy) =>
      if lease in w.leases then w
      else if c.maxsize <= 0 then w.(next := w.next + 1, leases := w.leases[lease := Client(url, w.next)])
      else
        var t := AfterBorrow(c, w.cache, url, now, busy, w.next);
        BorrowEffect(c, w.cache, url, now, busy, w.next);
        World(t, w.next + 1, w.leases[lease := t[url].client], w.closed + multiset(Dropped(w.cache, t)))
    case Return(lease, now, busy) =>
      if lease !in w.leases then w
      else if c.maxsize <= 0 then w.(leases := w.leases - {lease}, closed := w.closed + multiset{w.leases[lease]})
      else
        var t := AfterReturn(c, w.cache, w.leases[lease], now, busy, w.next);
        World(t, w.next, w.leases - {lease}, w.closed + multiset(Dropped(w.cache, t)))
    case CloseAll => w.(cache := map[], closed := w.closed + multiset(Dropped(w.cache, map[])))
  }

  /** The world after a run from an empty cache. */
  ghost function Run(c: Settings, es: seq<Event>): (w: World)
    ensures Sound(w.cache, w.next)
  {
    if es == [] then World(map[], 0, map[], multiset{})
    else
      var w := Run(c, es[..|es| - 1]);
      StepSound(c, w, es[|es| - 1]);
      Step(c, w, es[|es| - 1])
  }

  predicate Cached(s: Cache, k: Client) { k.url in s && s[k.url].client == k }

  /** The borrows that hold a client. */
  function Holders(leases: map<nat, Client>, k: Client): set<nat> { set l | l in leases && leases[l] == k }

  // ---- What one lock section does ----

  /** A borrow: idle entries leave, one entry is lent, idle entries leave again. */
  ghost predicate Borrowed(s: Cache, s2: Cache, s3: Cache, t: Cache, c: Settings, url: string, now: real, busy: set<Client>, next: nat) {
    && Shrinks(s, s2, {}, busy) && s3 == Lent(c, s2, url, now, next) && Shrinks(s3, t, {url}, busy)
  }

  lemma BorrowEffect(c: Settings, s: Cache, url: string, now: real, busy: set<Client>, next: nat)
    requires Sound(s, next)
    ensures var t := AfterBorrow(c, s, url, now, busy, next);
            && Sound(t, next + 1) && url in t && t[url].client.url == url
            && exists s2, s3 :: Borrowed(s, s2, s3, t, c, url, now, busy, next)
  {
    var s1 := Reclaimed(s, url, now, busy);
    ReclaimedShrinks(s, url, now, busy);
    ShrinksSound(s, s1, {}, busy, next);
    EvictedShrinks(c, s1, now, {url}, busy, next);
    var s2 := Evicted(c, s1, now, {url}, busy, next);
    LentSound(c, s2, url, now, next);
    LentClients(c, s2, url, now, next);
    var s3 := Lent(c, s2, url, now, next);
    EvictedShrinks(c, s3, now, {url}, busy, next + 1);
    var t := Evicted(c, s3, now, {url}, busy, next + 1);
    ShrinksTwice(s, s1, s2, {url}, busy);
    assert t == AfterBorrow(c, s, url, now, busy, next);
    assert Borrowed(s, s2, s3, t, c, url, now, busy, next);
  }

  lemma ShrinksTwice(s: Cache, t: Cache, v: Cache, spared: set<string>, busy: set<Client>)
    requires Shrinks(s, t, {}, busy) && Shrinks(t, v, spared, busy)
    ensures Shrinks(s, v, {}, busy)
  {
  }

  lemma ReturnEffect(c: Settings, s: Cache, k: Client, now: real, busy: set<Client>, next: nat)
    requires Sound(s, next)
    ensures var t := AfterReturn(c, s, k, now, busy, next);
            Sound(t, next) && Shrinks(GivenBack(c, s, k, now), t, {}, busy)
  {
    SameClientsSound(s, GivenBack(c, s, k, now), next);
    EvictedShrinks(c, GivenBack(c, s, k, now), now, {}, busy, next);
  }

  lemma StepSound(c: Settings, w: World, e: Event)
    requires Sound(w.cache, w.next)
    ensures Sound(Step(c, w, e).cache, Step(c, w, e).next)
  {
    match e
    case Borrow(lease, url, now, busy) => BorrowEffect(c, w.cache, url, now, busy, w.next);
    case Return(lease, now, busy) =>
      if lease in w.leases {
        ReturnEffect(c, w.cache, w.leases[lease], now, busy, w.next);
      }
    case CloseAll =>
  }

  // ---- The ledger ----

  /** The borrow count of every cached entry is the number of borrows that hold its client. */
  ghost predicate Counted(s: Cache, leases: map<nat, Client>) {
    forall u :: u in s ==> s[u].borrows == |Holders(leases, s[u].client)|
  }

  ghost predicate Issued(leases: map<nat, Client>, next: nat) { forall l :: l in leases ==> leases[l].serial < next }

  /** No client is closed twice, and a closed client is out of the cache for good. */
  ghost predicate ClosedOnce(s: Cache, closed: multiset<Client>, next: nat) {
    forall k :: k in closed ==> closed[k] == 1 && k.serial < next && !Cached(s, k)
  }

  /** Without a cache the lent clients are private to their borrow and still open. */
  ghost predicate Private(w: World) {
    && w.cache == map[]
    && (forall l :: l in w.leases ==> w.leases[l] !in w.closed)
    && forall l, m {:trigger SameClient(w.leases, l, m)} ::
         l in w.leases && m in w.leases && SameClient(w.leases, l, m) ==> l == m
  }

  predicate SameClient(leases: map<nat, Client>, l: nat, m: nat)
    requires l in leases && m in leases
  {
    leases[l] == leases[m]
  }

  ghost predicate Ledger(c: Settings, w: World) {
    && Sound(w.cache, w.next)
    && Counted(w.cache, w.leases)
    && Issued(w.leases, w.next)
    && ClosedOnce(w.cache, w.closed, w.next)
    && (c.maxsize <= 0 ==> Private(w))
  }

  lemma HoldersAfterLease(leases: map<nat, Client>, lease: nat, k: Client, q: Client)
    requires lease !in leases
    ensures |Holders(leases[lease := k], q)| == |Holders(leases, q)| + if q == k then 1 else 0
  {
    assert Holders(leases[lease := k], q) == Holders(leases, q) + if q == k then {lease} else {};
  }

  lemma HoldersAfterReturn(leases: map<nat, Client>, lease: nat, q: Client)
    requires lease in leases
    ensures |Holders(leases - {lease}, q)| == |Holders(leases, q)| - if q == leases[lease] then 1 else 0
  {
    if q == leases[lease] {
      assert Holders(leases, q) == Holders(leases - {lease}, q) + {lease};
    } else {
      assert Holders(leases, q) == Holders(leases - {lease}, q);
    }
  }

  lemma CountedShrinks(s: Cache, t: Cache, leases: map<nat, Client>, spared: set<string>, busy: set<Client>)
    requires Counted(s, leases) && Shrinks(s, t, spared, busy)
    ensures Counted(t, leases)
  {
  }

  lemma LentCounted(c: Settings, s: Cache, leases: map<nat, Client>, lease: nat, url: string, now: real, next: nat)
    requires Sound(s, next) && Counted(s, leases) && Issued(leases, next) && lease !in leases
    ensures var t := Lent(c, s, url, now, next);
            Counted(t, leases[lease := t[url].client])
  {
    var t := Lent(c, s, url, now, next);
    var k := t[url].client;
    if url !in s {
      assert Holders(leases, k) == {};
    }
    forall u | u in t
      ensures t[u].borrows == |Holders(leases[lease := k], t[u].client)|
    {
      HoldersAfterLease(leases, lease, k, t[u].client);
      assert u in s || u == url;
    }
  }

  lemma GivenBackCounted(c: Settings, s: Cache, leases: map<nat, Client>, lease: nat, now: real, next: nat)
    requires Sound(s, next) && Counted(s, leases) && lease in leases
    ensures Counted(GivenBack(c, s, leases[lease], now), leases - {lease})
  {
    var k := leases[lease];
    var t := GivenBack(c, s, k, now);
    assert lease in Holders(leases, k);
    forall u | u in t
      ensures t[u].borrows == |Holders(leases - {lease}, t[u].client)|
    {
      assert u in s && s[u].client.url == u;
      HoldersAfterReturn(leases, lease, s[u].client);
    }
  }

  /** Dropping adds clients to the closed ones that were open until then. */
  lemma DropsKeepClosedOnce(s: Cache, t: Cache, closed: multiset<Client>, next: nat, next': nat)
    requires Sound(s, next) && next <= next' && ClosedOnce(s, closed, next)
    requires forall u :: u in t ==> Cached(s, t[u].client) || t[u].client.serial >= next
    ensures ClosedOnce(t, closed + multiset(Dropped(s, t)), next')
  {
    forall k | k in closed + multiset(Dropped(s, t))
      ensures (closed + multiset(Dropped(s, t)))[k] == 1 && k.serial < next' && !Cached(t, k)
    {
      DroppedMember(s, t, k);
    }
  }

  lemma BorrowCounted(c: Settings, s: Cache, leases: map<nat, Client>, lease: nat, url: string, now: real, busy: set<Client>, next: nat)
    requires Sound(s, next) && Counted(s, leases) && Issued(leases, next) && lease !in leases
    ensures var t := AfterBorrow(c, s, url, now, busy, next);
            && url in t && t[url].client.serial <= next
            && Counted(t, leases[lease := t[url].client])
            && forall u :: u in t ==> Cached(s, t[u].client) || t[u].client.serial >= next
  {
    BorrowEffect(c, s, url, now, busy, next);
    var t := AfterBorrow(c, s, url, now, busy, next);
    var s2: Cache, s3: Cache :| Borrowed(s, s2, s3, t, c, url, now, busy, next);
    BorrowedCounted(c, s, s2, s3, t, leases, lease, url, now, busy, next);
    BorrowedClients(c, s, s2, s3, t, url, now, busy, next);
  }

  lemma BorrowedCounted(c: Settings, s: Cache, s2: Cache, s3: Cache, t: Cache, leases: map<nat, Client>, lease: nat, url: string,
                        now: real, busy: set<Client>, next: nat)
    requires Sound(s, next) && Counted(s, leases) && Issued(leases, next) && lease !in leases
    requires Borrowed(s, s2, s3, t, c, url, now, busy, next) && url in t
    ensures Counted(t, leases[lease := t[url].client])
  {
    CountedShrinks(s, s2, leases, {}, busy);
    ShrinksSound(s, s2, {}, busy, next);
    LentCounted(c, s2, leases, lease, url, now, next);
    CountedShrinks(s3, t, leases[lease := s3[url].client], {url}, busy);
  }

  lemma BorrowedClients(c: Settings, s: Cache, s2: Cache, s3: Cache, t: Cache, url: string, now: real, busy: set<Client>, next: nat)
    requires Sound(s, next) && Borrowed(s, s2, s3, t, c, url, now, busy, next) && url in t
    ensures t[url].client.serial <= next
    ensures forall u :: u in t ==> Cached(s, t[u].client) || t[u].client.serial >= next
  {
  }

  lemma BorrowKeepsLedger(c: Settings, w: World, e: Event)
    requires Ledger(c, w) && e.Borrow? && c.maxsize > 0 && e.lease !in w.leases
    ensures Ledger(c, Step(c, w, e))
  {
    StepSound(c, w, e);
    BorrowCounted(c, w.cache, w.leases, e.lease, e.url, e.now, e.busy, w.next);
    DropsKeepClosedOnce(w.cache, AfterBorrow(c, w.cache, e.url, e.now, e.busy, w.next), w.closed, w.next, w.next + 1);
  }

  lemma ReturnKeepsLedger(c: Settings, w: World, e: Event)
    requires Ledger(c, w) && e.Return? && c.maxsize > 0 && e.lease in w.leases
    ensures Ledger(c, Step(c, w, e))
  {
    var s, k := w.cache, w.leases[e.lease];
    ReturnEffect(c, s, k, e.now, e.busy, w.next);
    var t := AfterReturn(c, s, k, e.now, e.busy, w.next);
    GivenBackCounted(c, s, w.leases, e.lease, e.now, w.next);
    CountedShrinks(GivenBack(c, s, k, e.now), t, w.leases - {e.lease}, {}, e.busy);
    DropsKeepClosedOnce(s, t, w.closed, w.next, w.next);
  }

  lemma PrivateStep(c: Settings, w: World, e: Event)
    requires Ledger(c, w) && c.maxsize <= 0 && !e.CloseAll?
    ensures Ledger(c, Step(c, w, e))
  {
    var v := Step(c, w, e);
    PrivateLeases(c, w, e);
    if e.Return? && e.lease in w.leases {
      forall l | l in v.leases
        ensures v.leases[l] != w.leases[e.lease]
      {
        assert !SameClient(w.leases, l, e.lease);
      }
    }
  }

  lemma PrivateLeases(c: Settings, w: World, e: Event)
    requires Ledger(c, w) && c.maxsize <= 0 && !e.CloseAll?
    ensures var v := Step(c, w, e);
            forall l, m {:trigger SameClient(v.leases, l, m)} ::
              l in v.leases && m in v.leases && SameClient(v.leases, l, m) ==> l == m
  {
    var v := Step(c, w, e);
    forall l, m | l in v.leases && m in v.leases && SameClient(v.leases, l, m)
      ensures l == m
    {
      assert l in w.leases && m in w.leases ==> SameClient(w.leases, l, m);
    }
  }

  lemma StepKeepsLedger(c: Settings, w: World, e: Event)
    requires Ledger(c, w)
    ensures Ledger(c, Step(c, w, e))
  {
    if e.CloseAll? {
      DropsKeepClosedOnce(w.cache, map[], w.closed, w.next, w.next);
    } else if c.maxsize <= 0 {
      PrivateStep(c, w, e);
    } else if e.Borrow? && e.lease !in w.leases {
      BorrowKeepsLedger(c, w, e);
    } else if e.Return? && e.lease in w.leases {
      ReturnKeepsLedger(c, w, e);
    }
  }

  /** In every run, shutdowns included, the borrow count of an entry is the number of its outstanding borrows. */
  lemma {:induction false} LedgerHolds(c: Settings, es: seq<Event>)
    ensures Ledger(c, Run(c, es))
  {
    if es != [] {
      LedgerHolds(c, es[..|es| - 1]);
      StepKeepsLedger(c, Run(c, es[..|es| - 1]), es[|es| - 1]);
    }
  }

  // ---- What follows for every run ----

  /** The borrow count of an entry is the number of borrows that hold its client, shutdowns included. */
  lemma BorrowCountsAreLeases(c: Settings, es: seq<Event>)
    ensures var w := Run(c, es);
            forall u :: u in w.cache ==> w.cache[u].borrows == |Holders(w.leases, w.cache[u].client)|
  {
    LedgerHolds(c, es);
  }

  /** No client is closed twice, and a closed client is never lent again. */
  lemma ClosedAreNeverLent(c: Settings, es: seq<Event>, e: Event, k: Client)
    requires e.Borrow? && e.lease !in Run(c, es).leases
    ensures Run(c, es).closed[k] <= 1
    ensures var w := Run(c, es + [e]);
            e.lease in w.leases && w.leases[e.lease] !in w.closed
  {
    LedgerHolds(c, es);
    LedgerHolds(c, es + [e]);
    RunStep(c, es, e);
    var w := Run(c, es);
    if c.maxsize > 0 {
      BorrowEffect(c, w.cache, e.url, e.now, e.busy, w.next);
      assert Cached(Run(c, es + [e]).cache, Run(c, es + [e]).leases[e.lease]);
    }
  }

  lemma RunStep(c: Settings, es: seq<Event>, e: Event)
    ensures Run(c, es + [e]) == Step(c, Run(c, es), e)
  {
    assert (es + [e])[..|es + [e]| - 1] == es;
  }

  /** Outside a shutdown, a client goes on the close list only when nobody holds it and it is not busy. */
  lemma OnlyIdleClientsAreClosed(c: Settings, es: seq<Event>, e: Event)
    requires c.maxsize > 0 && !e.CloseAll?
    ensures var w, v := Run(c, es), Run(c, es + [e]);
            forall k :: k in v.closed && k !in w.closed ==> k !in e.busy && Holders(v.leases, k) == {}
  {
    RunStep(c, es, e);
    LedgerHolds(c, es);
    ClosesIdle(c, Run(c, es), e);
  }

  lemma ClosesIdle(c: Settings, w: World, e: Event)
    requires Ledger(c, w) && c.maxsize > 0 && !e.CloseAll?
    ensures var v := Step(c, w, e);
            forall k :: k in v.closed && k !in w.closed ==> k !in e.busy && Holders(v.leases, k) == {}
  {
    var v := Step(c, w, e);
    forall k | k in v.closed && k !in w.closed
      ensures k !in e.busy && Holders(v.leases, k) == {}
    {
      if e.Borrow? {
        BorrowDropsIdle(c, w, e, k);
      } else {
        ReturnDropsIdle(c, w, e, k);
      }
    }
  }

  lemma DroppedWasIdle(s: Cache, s2: Cache, s3: Cache, t: Cache, c: Settings, url: string, now: real, busy: set<Client>, next: nat, k: Client)
    requires Sound(s, next) && Borrowed(s, s2, s3, t, c, url, now, busy, next) && url in t && k in Dropped(s, t)
    ensures Cached(s, k) && Idle(s[k.url], busy) && t[url].client != k
  {
    DroppedMember(s, t, k);
    ShrinksSound(s, s2, {}, busy, next);
    LentClients(c, s2, url, now, next);
    assert t[url].client.url == url;
    if k.url in s2 {
      assert s3[k.url].client == k;
    }
  }

  lemma BorrowDropsIdle(c: Settings, w: World, e: Event, k: Client)
    requires Ledger(c, w) && e.Borrow? && e.lease !in w.leases && c.maxsize > 0
    requires k in Dropped(w.cache, AfterBorrow(c, w.cache, e.url, e.now, e.busy, w.next))
    ensures k !in e.busy && Holders(Step(c, w, e).leases, k) == {}
  {
    BorrowEffect(c, w.cache, e.url, e.now, e.busy, w.next);
    var t := AfterBorrow(c, w.cache, e.url, e.now, e.busy, w.next);
    var s2: Cache, s3: Cache :| Borrowed(w.cache, s2, s3, t, c, e.url, e.now, e.busy, w.next);
    DroppedWasIdle(w.cache, s2, s3, t, c, e.url, e.now, e.busy, w.next, k);
    HoldersAfterLease(w.leases, e.lease, t[e.url].client, k);
    assert Step(c, w, e).leases == w.leases[e.lease := t[e.url].client];
  }

  lemma ReturnDropsIdle(c: Settings, w: World, e: Event, k: Client)
    requires Ledger(c, w) && e.Return? && e.lease in w.leases && c.maxsize > 0
    requires k in Dropped(w.cache, AfterReturn(c, w.cache, w.leases[e.lease], e.now, e.busy, w.next))
    ensures k !in e.busy && Holders(Step(c, w, e).leases, k) == {}
  {
    var s, q := w.cache, w.leases[e.lease];
    ReturnEffect(c, s, q, e.now, e.busy, w.next);
    var t := AfterReturn(c, s, q, e.now, e.busy, w.next);
    var g := GivenBack(c, s, q, e.now);
    DroppedMember(s, t, k);
    GivenBackCounted(c, s, w.leases, e.lease, e.now, w.next);
    assert k.url in g && g[k.url].client == k && k.url !in t;
    assert Idle(g[k.url], e.busy) && |Holders(w.leases - {e.lease}, k)| == 0;
  }

  // ---- Runs without a shutdown ----

  predicate NoShutdown(es: seq<Event>) { forall i :: 0 <= i < |es| ==> !es[i].CloseAll? }

  ghost predicate AllCached(w: World) { forall l :: l in w.leases ==> Cached(w.cache, w.leases[l]) }

  lemma StepKeepsLeased(c: Settings, w: World, e: Event)
    requires Ledger(c, w) && AllCached(w) && c.maxsize > 0 && !e.CloseAll?
    ensures AllCached(Step(c, w, e))
  {
    var v := Step(c, w, e);
    forall l | l in v.leases
      ensures Cached(v.cache, v.leases[l])
    {
      if l in w.leases {
        OldLeaseStays(c, w, e, l);
      } else {
        NewLeaseIsCached(c, w, e, l);
      }
    }
  }

  lemma NewLeaseIsCached(c: Settings, w: World, e: Event, l: nat)
    requires Ledger(c, w) && c.maxsize > 0 && !e.CloseAll? && l !in w.leases && l in Step(c, w, e).leases
    ensures Cached(Step(c, w, e).cache, Step(c, w, e).leases[l])
  {
    BorrowEffect(c, w.cache, e.url, e.now, e.busy, w.next);
  }

  lemma OldLeaseStays(c: Settings, w: World, e: Event, l: nat)
    requires Ledger(c, w) && AllCached(w) && c.maxsize > 0 && !e.CloseAll? && l in w.leases && l in Step(c, w, e).leases
    ensures Cached(Step(c, w, e).cache, Step(c, w, e).leases[l])
  {
    var v, k := Step(c, w, e), w.leases[l];
    assert v.leases[l] == k && l in Holders(v.leases, k);
    DroppedMember(w.cache, v.cache, k);
    if k in Dropped(w.cache, v.cache) {
      if e.Borrow? {
        BorrowDropsIdle(c, w, e, k);
      } else {
        ReturnDropsIdle(c, w, e, k);
      }
    }
  }

  /** Until a shutdown, a lent client stays in the cache and open for as long as it is lent. */
  lemma {:induction false} LentClientsStay(c: Settings, es: seq<Event>)
    requires c.maxsize > 0 && NoShutdown(es)
    ensures AllCached(Run(c, es))
    ensures forall l :: l in Run(c, es).leases ==> Run(c, es).leases[l] !in Run(c, es).closed
  {
    LedgerHolds(c, es);
    if es != [] {
      var past := es[..|es| - 1];
      LentClientsStay(c, past);
      LedgerHolds(c, past);
      StepKeepsLeased(c, Run(c, past), es[|es| - 1]);
    }
  }

  // ---- The size of the cache ----

  /** The entries eviction may not remove now. */
  function Kept(s: Cache, spared: set<string>, busy: set<Client>): set<string> {
    set u | u in s && (u in spared || !Idle(s[u], busy))
  }

  lemma {:induction false} CutDownFits(s: Cache, order: seq<string>, maxsize: int, spared: set<string>, busy: set<Client>)
    requires forall u :: u in s && u !in Kept(s, spared, busy) ==> u in order
    ensures |CutDown(s, order, maxsize, spared, busy)| <= maxsize <==> |Kept(s, spared, busy)| <= maxsize || |s| <= maxsize
    decreases |order|
  {
    SubsetSize(Kept(s, spared, busy), s.Keys);
    if order == [] {
      assert Kept(s, spared, busy) == s.Keys;
    } else if |s| > maxsize {
      var u := order[0];
      assert order == [u] + order[1..];
      if u in spared || u !in s {
        CutDownFits(s, order[1..], maxsize, spared, busy);
      } else if !Idle(s[u], busy) {
        var t := s[u := s[u].(pendingEviction := true)];
        assert Kept(t, spared, busy) == Kept(s, spared, busy) && t.Keys == s.Keys;
        CutDownFits(t, order[1..], maxsize, spared, busy);
      } else {
        var t := s - {u};
        assert Kept(t, spared, busy) == Kept(s, spared, busy);
        assert t.Keys == s.Keys - {u};
        SubsetSize(Kept(t, spared, busy), t.Keys);
        CutDownFits(t, order[1..], maxsize, spared, busy);
      }
    }
  }

  /** When exactly an eviction brings the cache within its maximum: nothing doomed is left waiting, and what it may
   *  not remove fits; or the sweep alone was enough. */
  lemma EvictionFitsIff(c: Settings, s: Cache, now: real, spared: set<string>, busy: set<Client>, next: nat)
    requires Sound(s, next) && c.maxsize > 0
    ensures |Evicted(c, s, now, spared, busy, next)| <= c.maxsize <==>
            || |(set u | u in s && !Leaves(s, u, now, spared, busy))| <= c.maxsize
            || ((forall u :: u in s && Doomed(s[u], now) ==> Leaves(s, u, now, spared, busy))
                && |Kept(s, spared, busy)| <= c.maxsize)
  {
    var t := Swept(s, now, spared, busy);
    assert t.Keys == set u | u in s && !Leaves(s, u, now, spared, busy);
    assert Kept(t, spared, busy) == Kept(s, spared, busy);
    assert (forall u :: u in t ==> !t[u].pendingEviction)
      <==> forall u :: u in s && Doomed(s[u], now) ==> Leaves(s, u, now, spared, busy) by {
      assert forall u :: u in s && Doomed(s[u], now) && !Leaves(s, u, now, spared, busy) ==> u in t && t[u].pendingEviction;
    }
    if Crowded(c, t) {
      ShrinksSound(s, t, spared, busy, next);
      CutDownFits(t, LruOrder(t, next), c.maxsize, spared, busy);
    }
  }

  /** Once the last borrow is returned and nothing is busy, the cache is within its maximum. */
  lemma FitsWhenIdle(c: Settings, es: seq<Event>, e: Event)
    requires c.maxsize > 0 && e.Return? && e.busy == {}
    ensures var w, v := Run(c, es), Run(c, es + [e]);
            e.lease in w.leases && v.leases == map[] ==> |v.cache| <= c.maxsize
  {
    RunStep(c, es, e);
    LedgerHolds(c, es);
    if e.lease in Run(c, es).leases && Run(c, es + [e]).leases == map[] {
      LastReturnFits(c, Run(c, es), e);
    }
  }

  lemma LastReturnFits(c: Settings, w: World, e: Event)
    requires Ledger(c, w) && c.maxsize > 0 && e.Return? && e.busy == {} && e.lease in w.leases && w.leases - {e.lease} == map[]
    ensures |Step(c, w, e).cache| <= c.maxsize
  {
    var g := GivenBack(c, w.cache, w.leases[e.lease], e.now);
    GivenBackCounted(c, w.cache, w.leases, e.lease, e.now, w.next);
    SameClientsSound(w.cache, g, w.next);
    forall u | u in g
      ensures Idle(g[u], e.busy)
    {
      assert Holders(w.leases - {e.lease}, g[u].client) == {};
    }
    assert Kept(g, {}, e.busy) == {};
    EvictionFitsIff(c, g, e.now, {}, e.busy, w.next);
  }

  // ---- Which entries are evicted ----

  lemma {:induction false} CutDownVictims(s: Cache, order: seq<string>, keys: set<string>, maxsize: int, spared: set<string>, busy: set<Client>,
                                          u: string, v: string)
    requires ByUse(order, keys, s) && u in s && v in s && v in keys && v !in spared && Idle(s[v], busy)
    requires u !in CutDown(s, order, maxsize, spared, busy) && v in CutDown(s, order, maxsize, spared, busy)
    ensures UsedBefore(s, u, v)
    decreases |order|
  {
    if order == [] || |s| <= maxsize {
      assert false;
    } else {
      OrderTail(order, keys, s);
      var x := order[0];
      CutDownShrinks(s - {x}, order[1..], maxsize, spared, busy);
      if x == v {
        assert false;
      } else if x in spared {
        CutDownVictims(s, order[1..], keys - {x}, maxsize, spared, busy, u, v);
      } else if !Idle(s[x], busy) {
        var t := s[x := s[x].(pendingEviction := true)];
        ByUseSame(order[1..], keys - {x}, s, t);
        CutDownVictims(t, order[1..], keys - {x}, maxsize, spared, busy, u, v);
      } else if x != u {
        ByUseSame(order[1..], keys - {x}, s, s - {x});
        CutDownVictims(s - {x}, order[1..], keys - {x}, maxsize, spared, busy, u, v);
      }
    }
  }

  lemma ByUseSame(order: seq<string>, keys: set<string>, s: Cache, t: Cache)
    requires ByUse(order, keys, s) && keys <= t.Keys
    requires forall u :: u in keys ==> t[u].lastUsed == s[u].lastUsed && t[u].client == s[u].client
    ensures ByUse(order, keys, t)
  {
    forall i, j | 0 <= i < j < |order|
      ensures UsedBefore(t, order[i], order[j])
    {
      assert order[i] in order && order[j] in order && UsedBefore(s, order[i], order[j]);
    }
  }

  /** An entry removed to make room was used no later than any idle, unspared entry that stayed. */
  lemma VictimsAreOldest(c: Settings, s: Cache, now: real, spared: set<string>, busy: set<Client>, next: nat, u: string, v: string)
    requires Sound(s, next)
    requires u in s && !Leaves(s, u, now, spared, busy) && u !in Evicted(c, s, now, spared, busy, next)
    requires v in Evicted(c, s, now, spared, busy, next) && v in s && v !in spared && Idle(s[v], busy)
    ensures s[u].lastUsed <= s[v].lastUsed
  {
    var t := Swept(s, now, spared, busy);
    if Crowded(c, t) {
      ShrinksSound(s, t, spared, busy, next);
      var order := LruOrder(t, next);
      CutDownShrinks(t, order, c.maxsize, spared, busy);
      CutDownVictims(t, order, t.Keys, c.maxsize, spared, busy, u, v);
    }
  }

  // ---- maxsize is no bound while a lent entry waits for its eviction ----

  function Url(n: nat): (s: string)
    ensures |s| == n + 1
  {
    seq(n + 1, i => 'a')
  }

  /** One client is borrowed and kept past its deadline; n others are borrowed and returned meanwhile. */
  function Hoard(n: nat): seq<Event> {
    if n == 0 then [Borrow(0, Url(0), 0.0, {})] else Hoard(n - 1) + [Borrow(n, Url(n), 5.0, {})] + [Return(n, 5.0, {})]
  }

  function Urls(n: nat): (urls: set<string>)
    ensures |urls| == n + 1 && Url(0) in urls && forall u :: u in urls ==> |u| <= n + 1
  {
    if n == 0 then {Url(0)} else Urls(n - 1) + {Url(n)}
  }

  /** The first entry is lent and past its deadline, the others are not. */
  ghost predicate Waiting(s: Cache) {
    && Url(0) in s && s[Url(0)].borrows > 0 && Doomed(s[Url(0)], 5.0)
    && forall u :: u in s && u != Url(0) ==> !Doomed(s[u], 5.0)
  }

  function Marked(s: Cache, u: string): Cache
    requires u in s
  {
    s[u := s[u].(pendingEviction := true)]
  }

  lemma WaitingStopsEviction(c: Settings, s: Cache, spared: set<string>, next: nat)
    requires Sound(s, next) && Waiting(s)
    ensures Evicted(c, s, 5.0, spared, {}, next) == Marked(s, Url(0))
    ensures Sound(Marked(s, Url(0)), next) && Waiting(Marked(s, Url(0)))
  {
    var t := Swept(s, 5.0, spared, {});
    assert t[Url(0)].pendingEviction;
    assert t == Marked(s, Url(0));
    SameClientsSound(s, t, next);
  }

  lemma WaitingBorrow(c: Settings, s: Cache, url: string, next: nat)
    requires c.ttl == 1.0 && Sound(s, next) && Waiting(s) && url !in s
    ensures var t := AfterBorrow(c, s, url, 5.0, {}, next);
            Sound(t, next + 1) && Waiting(t) && t.Keys == s.Keys + {url}
  {
    assert Reclaimed(s, url, 5.0, {}) == s;
    WaitingStopsEviction(c, s, {url}, next);
    var t := Lent(c, Marked(s, Url(0)), url, 5.0, next);
    assert Sound(t, next + 1) && Waiting(t) && t.Keys == s.Keys + {url} by {
      WaitingLends(c, Marked(s, Url(0)), url, next);
    }
    WaitingStopsEviction(c, t, {url}, next + 1);
    assert AfterBorrow(c, s, url, 5.0, {}, next) == Marked(t, Url(0));
  }

  lemma WaitingLends(c: Settings, s: Cache, url: string, next: nat)
    requires c.ttl == 1.0 && Sound(s, next) && Waiting(s) && url !in s
    ensures var t := Lent(c, s, url, 5.0, next); Sound(t, next + 1) && Waiting(t) && t.Keys == s.Keys + {url}
  {
    LentSound(c, s, url, 5.0, next);
  }

  lemma WaitingReturn(c: Settings, s: Cache, url: string, next: nat)
    requires c.ttl == 1.0 && Sound(s, next) && Waiting(s) && url in s && url != Url(0)
    ensures var t := AfterReturn(c, s, s[url].client, 5.0, {}, next);
            Waiting(t) && t.Keys == s.Keys
  {
    var g := GivenBack(c, s, s[url].client, 5.0);
    SameClientsSound(s, g, next);
    WaitingStopsEviction(c, g, {}, next);
  }

  ghost predicate Hoarded(w: World, n: nat) {
    Waiting(w.cache) && w.leases.Keys == {0} && w.cache.Keys == Urls(n)
  }

  lemma {:induction false} HoardGrows(c: Settings, n: nat)
    requires c.ttl == 1.0 && c.maxsize == 1
    ensures Hoarded(Run(c, Hoard(n)), n)
  {
    if n == 0 {
      FirstBorrow(c);
      RunStep(c, [], Borrow(0, Url(0), 0.0, {}));
      assert [] + [Borrow(0, Url(0), 0.0, {})] == Hoard(0);
    } else {
      HoardGrows(c, n - 1);
      var es, b, r := Hoard(n - 1), Borrow(n, Url(n), 5.0, {}), Return(n, 5.0, {});
      RunStep(c, es, b);
      RunStep(c, es + [b], r);
      HoardStep(c, Run(c, es), n);
    }
  }

  lemma BorrowIs(c: Settings, w: World, lease: nat, url: string, now: real)
    requires Sound(w.cache, w.next) && c.maxsize > 0 && lease !in w.leases
    ensures var v, t := Step(c, w, Borrow(lease, url, now, {})), AfterBorrow(c, w.cache, url, now, {}, w.next);
            v.cache == t && v.next == w.next + 1 && url in t && v.leases == w.leases[lease := t[url].client]
  {
    BorrowEffect(c, w.cache, url, now, {}, w.next);
  }

  lemma HoardBorrow(c: Settings, w: World, n: nat)
    requires c.ttl == 1.0 && c.maxsize == 1 && n > 0 && Hoarded(w, n - 1) && Sound(w.cache, w.next)
    ensures var v := Step(c, w, Borrow(n, Url(n), 5.0, {}));
            && Sound(v.cache, v.next) && Waiting(v.cache) && v.cache.Keys == Urls(n)
            && v.leases == w.leases[n := v.cache[Url(n)].client]
  {
    BorrowIs(c, w, n, Url(n), 5.0);
    NextUrl(n);
    WaitingBorrow(c, w.cache, Url(n), w.next);
  }

  lemma NextUrl(n: nat)
    requires n > 0
    ensures Urls(n) == Urls(n - 1) + {Url(n)} && Url(n) !in Urls(n - 1)
  {
  }

  lemma HoardReturn(c: Settings, v: World, n: nat, leases: map<nat, Client>)
    requires c.ttl == 1.0 && c.maxsize == 1 && n > 0 && Sound(v.cache, v.next) && Waiting(v.cache) && v.cache.Keys == Urls(n)
    requires leases.Keys == {0} && v.leases == leases[n := v.cache[Url(n)].client]
    ensures Hoarded(Step(c, v, Return(n, 5.0, {})), n)
  {
    assert |Url(0)| != |Url(n)|;
    WaitingReturn(c, v.cache, Url(n), v.next);
    assert (v.leases - {n}).Keys == {0};
  }

  lemma HoardStep(c: Settings, w: World, n: nat)
    requires c.ttl == 1.0 && c.maxsize == 1 && n > 0 && Hoarded(w, n - 1) && Sound(w.cache, w.next)
    ensures var v := Step(c, w, Borrow(n, Url(n), 5.0, {}));
            Sound(v.cache, v.next) && Hoarded(Step(c, v, Return(n, 5.0, {})), n)
  {
    HoardBorrow(c, w, n);
    HoardReturn(c, Step(c, w, Borrow(n, Url(n), 5.0, {})), n, w.leases);
  }

  lemma FirstBorrow(c: Settings)
    requires c.ttl == 1.0 && c.maxsize == 1
    ensures Hoarded(Step(c, World(map[], 0, map[], multiset{}), Borrow(0, Url(0), 0.0, {})), 0)
  {
    var none: Cache := map[];
    var u := Url(0);
    assert Evicted(c, none, 0.0, {u}, {}, 0) == none;
    LentSound(c, none, u, 0.0, 0);
    var s := Lent(c, none, u, 0.0, 0);
    assert Swept(s, 0.0, {u}, {}) == s;
    assert s.Keys == {u} && |s| == 1;
    assert AfterBorrow(c, none, u, 0.0, {}, 0) == s;
  }

  /** With room for one client and one borrow outstanding, the cache can hold any number of idle clients. */
  lemma WaitingEntryUnboundsTheCache(n: nat)
    ensures exists es :: NoShutdown(es)
              && |Run(Settings(1.0, 1), es).leases| == 1 && |Run(Settings(1.0, 1), es).cache| == n + 1
  {
    var c := Settings(1.0, 1);
    HoardGrows(c, n);
    HoardHasNoShutdown(n);
    var w := Run(c, Hoard(n));
    assert |w.cache| == |w.cache.Keys| && |w.leases| == |w.leases.Keys|;
  }

  lemma {:induction false} HoardHasNoShutdown(n: nat)
    ensures NoShutdown(Hoard(n))
  {
    if n > 0 {
      HoardHasNoShutdown(n - 1);
    }
  }
}

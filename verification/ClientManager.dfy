/** The cache of outbound A2A clients: entries are lent out, kept alive while lent, and evicted later. */
module ClientManagement {
  import opened Basics

  /** A client is made for one url; the serial number tells clients of the same url apart. */
  datatype Client = Client(url: string, serial: nat)

  /** A cache entry. Serials grow as entries are created, so they also give the order of the cache's dict. */
  datatype Entry = Entry(client: Client, lastUsed: real, expiresAt: Option<real>, borrows: nat, pendingEviction: bool)

  type Cache = map<string, Entry>

  datatype Settings = Settings(ttl: real, maxsize: int)

  predicate Stale(e: Entry, now: real) { e.expiresAt.Some? && e.expiresAt.value <= now }

  predicate Doomed(e: Entry, now: real) { Stale(e, now) || e.pendingEviction }

  predicate Idle(e: Entry, busy: set<Client>) { e.borrows == 0 && e.client !in busy }

  function FreshDeadline(c: Settings, now: real): Option<real> {
    if c.ttl <= 0.0 then None else Some(now + c.ttl)
  }

  /** Every entry holds a client of its own url, and serials are not reused. */
  ghost predicate Sound(s: Cache, next: nat) {
    && (forall u :: u in s ==> s[u].client.url == u && s[u].client.serial < next)
    && forall u, v {:trigger Twins(s, u, v)} :: u in s && v in s && Twins(s, u, v) ==> u == v
  }

  ghost predicate Twins(s: Cache, u: string, v: string)
    requires u in s && v in s
  {
    s[u].client.serial == s[v].client.serial
  }

  /** The clients that were cached in s and are not any more. */
  function Dropped(s: Cache, t: Cache): set<Client> {
    set u | u in s && (u !in t || t[u].client != s[u].client) :: s[u].client
  }

  // ---- Eviction as a function ----

  predicate Leaves(s: Cache, u: string, now: real, spared: set<string>, busy: set<Client>)
    requires u in s
  {
    Doomed(s[u], now) && u !in spared && Idle(s[u], busy)
  }

  /** Expired and pending entries go, or are marked pending while they cannot. */
  function Swept(s: Cache, now: real, spared: set<string>, busy: set<Client>): Cache {
    map u | u in s && !Leaves(s, u, now, spared, busy) ::
      if Doomed(s[u], now) then s[u].(pendingEviction := true) else s[u]
  }

  predicate UsedBefore(s: Cache, u: string, v: string)
    requires u in s && v in s
  {
    s[u].lastUsed < s[v].lastUsed || (s[u].lastUsed == s[v].lastUsed && s[u].client.serial < s[v].client.serial)
  }

  /** Python's stable sort of some of the entries by last use. */
  ghost predicate ByUse(order: seq<string>, keys: set<string>, s: Cache) {
    && keys <= s.Keys
    && (forall u :: u in order <==> u in keys)
    && forall i, j {:trigger UsedBefore(s, order[i], order[j])} :: 0 <= i < j < |order| ==> UsedBefore(s, order[i], order[j])
  }

  /** The next entry of the order goes if it may and can, and is marked pending if it may but cannot. */
  function CutOne(s: Cache, u: string, spared: set<string>, busy: set<Client>): Cache {
    if u in spared || u !in s then s
    else if !Idle(s[u], busy) then s[u := s[u].(pendingEviction := true)]
    else s - {u}
  }

  /** Walk the entries from the least recently used until the cache fits. */
  function CutDown(s: Cache, order: seq<string>, maxsize: int, spared: set<string>, busy: set<Client>): Cache
    decreases |order|
  {
    if order == [] || |s| <= maxsize then s else CutDown(CutOne(s, order[0], spared, busy), order[1..], maxsize, spared, busy)
  }

  function Closing(s: Cache, u: string, spared: set<string>, busy: set<Client>): multiset<Client> {
    if u in s && u !in spared && Idle(s[u], busy) then multiset{s[u].client} else multiset{}
  }

  function CutClosing(s: Cache, order: seq<string>, maxsize: int, spared: set<string>, busy: set<Client>): multiset<Client>
    decreases |order|
  {
    if order == [] || |s| <= maxsize then multiset{}
    else Closing(s, order[0], spared, busy) + CutClosing(CutOne(s, order[0], spared, busy), order[1..], maxsize, spared, busy)
  }

  ghost function LruOrder(s: Cache, next: nat): (order: seq<string>)
    requires Sound(s, next)
    ensures ByUse(order, s.Keys, s)
  {
    ByUseExists(s, s.Keys, next);
    var order :| ByUse(order, s.Keys, s);
    order
  }

  ghost predicate Crowded(c: Settings, t: Cache) {
    c.maxsize > 0 && |t| > c.maxsize && forall u :: u in t ==> !t[u].pendingEviction
  }

  ghost function Evicted(c: Settings, s: Cache, now: real, spared: set<string>, busy: set<Client>, next: nat): Cache
    requires Sound(s, next)
  {
    var t := Swept(s, now, spared, busy);
    if Crowded(c, t) then
      ShrinksSound(s, t, spared, busy, next);
      CutDown(t, LruOrder(t, next), c.maxsize, spared, busy)
    else t
  }

  /** The first lock section of a borrow looks at the wanted entry before anything else. */
  function Reclaimed(s: Cache, url: string, now: real, busy: set<Client>): Cache {
    if url in s && Stale(s[url], now) then
      if Idle(s[url], busy) then s - {url} else s[url := s[url].(pendingEviction := true)]
    else s
  }

  function Lent(c: Settings, s: Cache, url: string, now: real, next: nat): Cache {
    if url in s
    then s[url := s[url].(lastUsed := now, expiresAt := FreshDeadline(c, now), pendingEviction := false, borrows := s[url].borrows + 1)]
    else s[url := Entry(Client(url, next), now, FreshDeadline(c, now), 1, false)]
  }

  ghost function AfterBorrow(c: Settings, s: Cache, url: string, now: real, busy: set<Client>, next: nat): Cache
    requires Sound(s, next)
  {
    var s1 := Reclaimed(s, url, now, busy);
    ShrinksSound(s, s1, {}, busy, next);
    EvictedShrinks(c, s1, now, {url}, busy, next);
    var s3 := Lent(c, Evicted(c, s1, now, {url}, busy, next), url, now, next);
    LentSound(c, Evicted(c, s1, now, {url}, busy, next), url, now, next);
    Evicted(c, s3, now, {url}, busy, next + 1)
  }

  function GivenBack(c: Settings, s: Cache, client: Client, now: real): Cache {
    var url := client.url;
    if url in s && s[url].client == client
    then s[url := s[url].(borrows := if s[url].borrows > 0 then s[url].borrows - 1 else 0, lastUsed := now, expiresAt := FreshDeadline(c, now))]
    else s
  }

  lemma GivenBackKeeps(c: Settings, s: Cache, client: Client, now: real, next: nat)
    requires Sound(s, next)
    ensures var t := GivenBack(c, s, client, now); Sound(t, next) && SameClients(s, t) && t.Keys == s.Keys
  {
    SameClientsSound(s, GivenBack(c, s, client, now), next);
  }

  ghost function AfterReturn(c: Settings, s: Cache, client: Client, now: real, busy: set<Client>, next: nat): Cache
    requires Sound(s, next)
  {
    SameClientsSound(s, GivenBack(c, s, client, now), next);
    Evicted(c, GivenBack(c, s, client, now), now, {}, busy, next)
  }

  // ---- Facts about eviction ----

  /** Only entries that are idle and not spared are removed; the others change in nothing but the pending mark. */
  ghost predicate Shrinks(s: Cache, t: Cache, spared: set<string>, busy: set<Client>) {
    && t.Keys <= s.Keys
    && (forall u :: u in t ==> t[u] == s[u].(pendingEviction := t[u].pendingEviction))
    && (forall u :: u in s && u !in t ==> u !in spared && Idle(s[u], busy))
  }

  ghost predicate SameClients(s: Cache, t: Cache) {
    t.Keys <= s.Keys && forall u :: u in t ==> t[u].client == s[u].client
  }

  lemma SameClientsSound(s: Cache, t: Cache, next: nat)
    requires Sound(s, next) && SameClients(s, t)
    ensures Sound(t, next)
  {
    forall u, v | u in t && v in t && Twins(t, u, v)
      ensures u == v
    {
      assert Twins(s, u, v);
    }
  }

  lemma ShrinksSound(s: Cache, t: Cache, spared: set<string>, busy: set<Client>, next: nat)
    requires Sound(s, next) && Shrinks(s, t, spared, busy)
    ensures Sound(t, next)
  {
    SameClientsSound(s, t, next);
  }

  lemma {:induction false} CutDownShrinks(s: Cache, order: seq<string>, maxsize: int, spared: set<string>, busy: set<Client>)
    ensures Shrinks(s, CutDown(s, order, maxsize, spared, busy), spared, busy)
    decreases |order|
  {
    if order != [] && |s| > maxsize {
      CutDownShrinks(CutOne(s, order[0], spared, busy), order[1..], maxsize, spared, busy);
    }
  }

  lemma CutOneDrops(s: Cache, t: Cache, u: string, spared: set<string>, busy: set<Client>, next: nat)
    requires Sound(s, next) && SameClients(s, t)
    ensures var v := CutOne(t, u, spared, busy);
            SameClients(s, v) && multiset(Dropped(s, v)) == multiset(Dropped(s, t)) + Closing(t, u, spared, busy)
  {
    if u in t {
      DropOne(s, t, u, next);
    }
  }

  /** The walk closes what it drops from the cache. */
  lemma {:induction false} CutDownDrops(s: Cache, t: Cache, order: seq<string>, maxsize: int, spared: set<string>, busy: set<Client>, next: nat)
    requires Sound(s, next) && SameClients(s, t)
    ensures multiset(Dropped(s, CutDown(t, order, maxsize, spared, busy)))
            == multiset(Dropped(s, t)) + CutClosing(t, order, maxsize, spared, busy)
    decreases |order|
  {
    if order != [] && |t| > maxsize {
      CutOneDrops(s, t, order[0], spared, busy, next);
      CutDownDrops(s, CutOne(t, order[0], spared, busy), order[1..], maxsize, spared, busy, next);
    }
  }

  lemma EvictedShrinks(c: Settings, s: Cache, now: real, spared: set<string>, busy: set<Client>, next: nat)
    requires Sound(s, next)
    ensures Shrinks(s, Evicted(c, s, now, spared, busy, next), spared, busy)
    ensures Sound(Evicted(c, s, now, spared, busy, next), next)
    ensures SameClients(s, Evicted(c, s, now, spared, busy, next))
  {
    var t := Swept(s, now, spared, busy);
    if Crowded(c, t) {
      ShrinksSound(s, t, spared, busy, next);
      CutDownShrinks(t, LruOrder(t, next), c.maxsize, spared, busy);
    }
    ShrinksSound(s, Evicted(c, s, now, spared, busy, next), spared, busy, next);
  }

  lemma ReclaimedShrinks(s: Cache, url: string, now: real, busy: set<Client>)
    ensures Shrinks(s, Reclaimed(s, url, now, busy), {}, busy) && SameClients(s, Reclaimed(s, url, now, busy))
  {
  }

  lemma LentClients(c: Settings, s: Cache, url: string, now: real, next: nat)
    requires Sound(s, next)
    ensures var t := Lent(c, s, url, now, next);
            && SameClients(t, s) && t.Keys == s.Keys + {url} && t[url].client.url == url
            && (url !in s ==> t[url].client.serial == next)
  {
  }

  lemma LentSound(c: Settings, s: Cache, url: string, now: real, next: nat)
    requires Sound(s, next)
    ensures Sound(Lent(c, s, url, now, next), next + 1)
  {
    var t := Lent(c, s, url, now, next);
    forall u, v | u in t && v in t && Twins(t, u, v)
      ensures u == v
    {
      assert u in s && v in s ==> Twins(s, u, v);
    }
  }

  /** The sweep when only todo is left to look at. */
  ghost predicate SweptSoFar(s: Cache, t: Cache, todo: set<string>, now: real, spared: set<string>, busy: set<Client>) {
    && t.Keys <= s.Keys
    && (forall u :: u in s ==> (u in t <==> u in todo || !Leaves(s, u, now, spared, busy)))
    && (forall u :: u in t ==>
          t[u] == if u !in todo && Doomed(s[u], now) then s[u].(pendingEviction := true) else s[u])
  }

  lemma SweepStep(s: Cache, t: Cache, todo: set<string>, u: string, now: real, spared: set<string>, busy: set<Client>, next: nat)
    requires Sound(s, next) && SweptSoFar(s, t, todo, now, spared, busy) && u in todo && u in t
    ensures t[u] == s[u]
    ensures var v := if !Doomed(s[u], now) then t
                     else if Leaves(s, u, now, spared, busy) then t - {u}
                     else t[u := s[u].(pendingEviction := true)];
            && SweptSoFar(s, v, todo - {u}, now, spared, busy)
            && multiset(Dropped(s, v)) == multiset(Dropped(s, t)) + if u in v then multiset{} else multiset{s[u].client}
  {
    DropOne(s, t, u, next);
  }

  // ---- The least-recently-used order ----

  function InsertByUse(u: string, order: seq<string>, s: Cache): seq<string>
    requires u in s && forall v :: v in order ==> v in s
  {
    if order == [] || UsedBefore(s, u, order[0]) then [u] + order else [order[0]] + InsertByUse(u, order[1..], s)
  }

  lemma OrderTail(order: seq<string>, keys: set<string>, s: Cache)
    requires order != [] && ByUse(order, keys, s)
    ensures order[0] in keys && ByUse(order[1..], keys - {order[0]}, s)
    ensures forall v :: v in keys - {order[0]} ==> UsedBefore(s, order[0], v)
  {
    assert order[0] in order && order == [order[0]] + order[1..];
    forall v | v in order[1..]
      ensures UsedBefore(s, order[0], v) && v != order[0]
    {
      var j :| 0 <= j < |order[1..]| && order[1..][j] == v;
      assert UsedBefore(s, order[0], order[j + 1]);
    }
    forall i, j | 0 <= i < j < |order[1..]|
      ensures UsedBefore(s, order[1..][i], order[1..][j])
    {
      assert UsedBefore(s, order[i + 1], order[j + 1]);
    }
  }

  lemma OrderCons(u: string, order: seq<string>, keys: set<string>, s: Cache)
    requires ByUse(order, keys, s) && u in s && u !in keys
    requires forall v :: v in keys ==> UsedBefore(s, u, v)
    ensures ByUse([u] + order, keys + {u}, s)
  {
    var all := [u] + order;
    forall i, j | 0 <= i < j < |all|
      ensures UsedBefore(s, all[i], all[j])
    {
      assert all[j] == order[j - 1] && order[j - 1] in order;
      if i > 0 {
        assert UsedBefore(s, order[i - 1], order[j - 1]);
      }
    }
  }

  lemma {:induction false} InsertOrders(u: string, order: seq<string>, keys: set<string>, s: Cache, next: nat)
    requires ByUse(order, keys, s) && Sound(s, next) && u in s && u !in keys
    ensures ByUse(InsertByUse(u, order, s), keys + {u}, s)
  {
    if order == [] {
      OrderCons(u, order, keys, s);
    } else {
      OrderTail(order, keys, s);
      if UsedBefore(s, u, order[0]) {
        forall v | v in keys
          ensures UsedBefore(s, u, v)
        {
          assert v == order[0] || UsedBefore(s, order[0], v);
        }
        OrderCons(u, order, keys, s);
      } else {
        assert !Twins(s, u, order[0]);
        InsertOrders(u, order[1..], keys - {order[0]}, s, next);
        OrderCons(order[0], InsertByUse(u, order[1..], s), keys - {order[0]} + {u}, s);
        assert keys - {order[0]} + {u} + {order[0]} == keys + {u};
      }
    }
  }

  lemma {:induction false} ByUseExists(s: Cache, keys: set<string>, next: nat)
    requires Sound(s, next) && keys <= s.Keys
    ensures exists order :: ByUse(order, keys, s)
    decreases |keys|
  {
    if keys == {} {
      assert ByUse([], keys, s);
    } else {
      var u :| u in keys;
      ByUseExists(s, keys - {u}, next);
      var order :| ByUse(order, keys - {u}, s);
      InsertOrders(u, order, keys - {u}, s, next);
      assert keys - {u} + {u} == keys;
    }
  }

  /** There is only one such order, so the sort decides the victims. */
  lemma {:induction false} LruOrderIsUnique(a: seq<string>, b: seq<string>, keys: set<string>, s: Cache)
    requires ByUse(a, keys, s) && ByUse(b, keys, s)
    ensures a == b
    decreases |a|
  {
    if a == [] {
      assert forall i :: 0 <= i < |b| ==> b[i] in b;
    } else {
      assert a[0] in a && a[0] in b;
      OrderTail(a, keys, s);
      OrderTail(b, keys, s);
      assert a[0] == b[0] || (UsedBefore(s, a[0], b[0]) && UsedBefore(s, b[0], a[0]));
      LruOrderIsUnique(a[1..], b[1..], keys - {a[0]}, s);
      assert a == [a[0]] + a[1..] && b == [b[0]] + b[1..];
    }
  }

  // ---- The manager ----

  class A2AClientManager {
    const settings: Settings
    var clients: Cache
    var nextSerial: nat

    constructor (settings: Settings)
      ensures this.settings == settings && clients == map[] && nextSerial == 0 && Valid()
    {
      this.settings, clients, nextSerial := settings, map[], 0;
    }

    ghost predicate Valid()
      reads this
    {
      Sound(clients, nextSerial)
    }

    method Sweep(now: real, spared: set<string>, busy: set<Client>) returns (toClose: multiset<Client>)
      requires Valid()
      modifies this`clients
      ensures Valid() && clients == Swept(old(clients), now, spared, busy)
      ensures toClose == multiset(Dropped(old(clients), clients))
    {
      ghost var s := clients;
      var todo := clients.Keys;
      toClose := multiset{};
      assert Dropped(s, s) == {};
      while todo != {}
        invariant todo <= clients.Keys && SweptSoFar(s, clients, todo, now, spared, busy)
        invariant toClose == multiset(Dropped(s, clients))
        decreases |todo|
      {
        var u :| u in todo;
        SweepStep(s, clients, todo, u, now, spared, busy, nextSerial);
        todo := todo - {u};
        var e := clients[u];
        if Stale(e, now) || e.pendingEviction {
          if u in spared || e.borrows > 0 || e.client in busy {
            clients := clients[u := e.(pendingEviction := true)];
          } else {
            clients := clients - {u};
            toClose := toClose + multiset{e.client};
          }
        }
      }
      assert clients == Swept(s, now, spared, busy);
      ShrinksSound(s, clients, spared, busy, nextSerial);
    }

    method SortByUse() returns (order: seq<string>)
      requires Valid()
      ensures ByUse(order, clients.Keys, clients)
    {
      order := [];
      var todo := clients.Keys;
      while todo != {}
        invariant todo <= clients.Keys && ByUse(order, clients.Keys - todo, clients)
        decreases |todo|
      {
        var u :| u in todo;
        InsertOrders(u, order, clients.Keys - todo, clients, nextSerial);
        assert clients.Keys - (todo - {u}) == clients.Keys - todo + {u};
        order, todo := InsertByUse(u, order, clients), todo - {u};
      }
      assert clients.Keys - todo == clients.Keys;
    }

    method Trim(order: seq<string>, spared: set<string>, busy: set<Client>) returns (toClose: multiset<Client>)
      modifies this`clients
      ensures clients == CutDown(old(clients), order, settings.maxsize, spared, busy)
      ensures toClose == CutClosing(old(clients), order, settings.maxsize, spared, busy)
    {
      toClose := multiset{};
      ghost var goal := CutDown(clients, order, settings.maxsize, spared, busy);
      ghost var all := CutClosing(clients, order, settings.maxsize, spared, busy);
      var todo := order;
      while todo != [] && |clients| > settings.maxsize
        invariant CutDown(clients, todo, settings.maxsize, spared, busy) == goal
        invariant toClose + CutClosing(clients, todo, settings.maxsize, spared, busy) == all
      {
        var more := TrimOne(todo[0], spared, busy);
        todo, toClose := todo[1..], toClose + more;
      }
    }

    method TrimOne(u: string, spared: set<string>, busy: set<Client>) returns (toClose: multiset<Client>)
      modifies this`clients
      ensures clients == CutOne(old(clients), u, spared, busy) && toClose == Closing(old(clients), u, spared, busy)
    {
      toClose := multiset{};
      if u in spared || u !in clients {
        return;
      }
      if clients[u].borrows > 0 || clients[u].client in busy {
        clients := clients[u := clients[u].(pendingEviction := true)];
      } else {
        toClose := multiset{clients[u].client};
        clients := clients - {u};
      }
    }

    method EvictLocked(now: real, spared: set<string>, busy: set<Client>) returns (toClose: multiset<Client>)
      requires Valid()
      modifies this`clients
      ensures Valid() && clients == Evicted(settings, old(clients), now, spared, busy, nextSerial)
      ensures toClose == multiset(Dropped(old(clients), clients))
    {
      ghost var s := clients;
      EvictedShrinks(settings, s, now, spared, busy, nextSerial);
      toClose := Sweep(now, spared, busy);
      if settings.maxsize <= 0 || |clients| <= settings.maxsize {
        return;
      }
      if exists u :: u in clients && clients[u].pendingEviction {
        return;
      }
      var order := SortByUse();
      LruOrderIsUnique(order, LruOrder(clients, nextSerial), clients.Keys, clients);
      CutDownDrops(s, clients, order, settings.maxsize, spared, busy, nextSerial);
      var more := Trim(order, spared, busy);
      toClose := toClose + more;
    }

    /** An expired entry of the wanted url is dropped, or marked if it is still in use. */
    method Reclaim(url: string, now: real, busy: set<Client>) returns (toClose: multiset<Client>)
      requires Valid()
      modifies this`clients
      ensures Valid() && clients == Reclaimed(old(clients), url, now, busy)
      ensures toClose == multiset(Dropped(old(clients), clients))
    {
      toClose := multiset{};
      assert Dropped(clients, clients) == {};
      if url in clients && Stale(clients[url], now) {
        DropOne(clients, clients, url, nextSerial);
        if clients[url].borrows > 0 || clients[url].client in busy {
          clients := clients[url := clients[url].(pendingEviction := true)];
        } else {
          toClose := multiset{clients[url].client};
          clients := clients - {url};
        }
      }
      ShrinksSound(old(clients), clients, {}, busy, nextSerial);
    }

    method Lend(url: string, now: real)
      requires Valid()
      modifies this
      ensures Valid() && nextSerial == old(nextSerial) + 1
      ensures clients == Lent(settings, old(clients), url, now, old(nextSerial))
    {
      LentSound(settings, clients, url, now, nextSerial);
      var deadline := FreshDeadline(settings, now);
      if url !in clients {
        clients := clients[url := Entry(Client(url, nextSerial), now, deadline, 1, false)];
      } else {
        var e := clients[url];
        clients := clients[url := e.(lastUsed := now, expiresAt := deadline, pendingEviction := false, borrows := e.borrows + 1)];
      }
      nextSerial := nextSerial + 1;
    }

    /** The lock section that opens a borrow; the clients to close are closed once the lock is released. */
    method OpenBorrow(url: string, now: real, busy: set<Client>) returns (client: Client, toClose: multiset<Client>)
      requires Valid()
      modifies this
      ensures Valid() && nextSerial == old(nextSerial) + 1
      ensures clients == AfterBorrow(settings, old(clients), url, now, busy, old(nextSerial))
      ensures url in clients && client == clients[url].client
      ensures toClose == multiset(Dropped(old(clients), clients))
    {
      ghost var next := nextSerial;
      toClose := Reclaim(url, now, busy);
      ghost var s1 := clients;
      ReclaimedShrinks(old(clients), url, now, busy);
      EvictedShrinks(settings, s1, now, {url}, busy, next);
      var more := EvictLocked(now, {url}, busy);
      toClose := toClose + more;
      ghost var s2 := clients;
      Lend(url, now);
      ghost var s3 := clients;
      EvictedShrinks(settings, s3, now, {url}, busy, next + 1);
      more := EvictLocked(now, {url}, busy);
      toClose := toClose + more;
      LentClients(settings, s2, url, now, next);
      DropsAddUp(old(clients), s1, s2, s3, clients, url, next);
      client := clients[url].client;
    }

    /** The lock section that ends a borrow: only the very entry that was lent is given back. */
    method CloseBorrow(client: Client, now: real, busy: set<Client>) returns (toClose: multiset<Client>)
      requires Valid()
      modifies this`clients
      ensures Valid() && clients == AfterReturn(settings, old(clients), client, now, busy, nextSerial)
      ensures toClose == multiset(Dropped(old(clients), clients))
    {
      var url := client.url;
      if url in clients && clients[url].client == client {
        var e := clients[url];
        clients := clients[url := e.(borrows := if e.borrows > 0 then e.borrows - 1 else 0, lastUsed := now,
                                     expiresAt := FreshDeadline(settings, now))];
      }
      GivenBackKeeps(settings, old(clients), client, now, nextSerial);
      ghost var t := clients;
      assert t == GivenBack(settings, old(clients), client, now);
      toClose := EvictLocked(now, {}, busy);
      SameDrops(old(clients), t, clients);
    }

    method CloseAll() returns (toClose: set<Client>)
      requires Valid()
      modifies this`clients
      ensures Valid() && clients == map[] && toClose == Dropped(old(clients), map[])
    {
      toClose := set u | u in clients :: clients[u].client;
      clients := map[];
    }
  }

  lemma DropOne(s: Cache, t: Cache, u: string, next: nat)
    requires Sound(s, next) && SameClients(s, t) && u in t
    ensures multiset(Dropped(s, t - {u})) == multiset(Dropped(s, t)) + multiset{t[u].client}
    ensures forall e: Entry :: e.client == t[u].client ==> Dropped(s, t[u := e]) == Dropped(s, t)
  {
    forall k: Client
      ensures k in Dropped(s, t - {u}) <==> k in Dropped(s, t) + {t[u].client}
    {
      DroppedMember(s, t, k);
      DroppedMember(s, t - {u}, k);
    }
    DroppedMember(s, t, t[u].client);
    assert Dropped(s, t - {u}) == Dropped(s, t) + {t[u].client};
  }

  lemma SameDrops(s: Cache, t: Cache, v: Cache)
    requires t.Keys == s.Keys && SameClients(s, t)
    ensures Dropped(s, v) == Dropped(t, v)
  {
  }

  /** A borrow drops clients in three places, and never one twice. */
  lemma DropsAddUp(s: Cache, s1: Cache, s2: Cache, s3: Cache, s4: Cache, url: string, next: nat)
    requires Sound(s, next) && SameClients(s, s1) && SameClients(s1, s2)
    requires SameClients(s3, s2) && s3.Keys == s2.Keys + {url} && SameClients(s3, s4) && url in s4
    requires s3[url].client.url == url && (url !in s2 ==> s3[url].client.serial == next)
    ensures multiset(Dropped(s, s4)) == multiset(Dropped(s, s1)) + multiset(Dropped(s1, s2)) + multiset(Dropped(s3, s4))
  {
    forall u | u in s3
      ensures s3[u].client.url == u
    {
      assert u in s2 || u == url;
    }
    forall k: Client
      ensures k in Dropped(s, s4) <==> k in Dropped(s, s1) + Dropped(s1, s2) + Dropped(s3, s4)
      ensures k !in Dropped(s, s1) || k !in Dropped(s1, s2) + Dropped(s3, s4)
      ensures k !in Dropped(s1, s2) || k !in Dropped(s3, s4)
    {
      DroppedMember(s, s1, k);
      DroppedMember(s1, s2, k);
      DroppedMember(s3, s4, k);
      DroppedMember(s, s4, k);
    }
    assert Dropped(s, s4) == Dropped(s, s1) + Dropped(s1, s2) + Dropped(s3, s4);
  }

  lemma DroppedMember(s: Cache, t: Cache, k: Client)
    requires forall u :: u in s ==> s[u].client.url == u
    ensures k in Dropped(s, t) <==> k.url in s && s[k.url].client == k && (k.url !in t || t[k.url].client != k)
  {
  }
}

/** The bounded TTL cache behind the in-memory session repository. */
module TtlCache {
  import opened Basics

  /** The keys the session repository uses: a binding's (identity, context) pair, or a session id. */
  datatype Key = BindingKey(identity: string, contextId: string) | SessionKey(sessionId: string)

  datatype Entry = Entry(key: Key, value: string, expiresAt: real)

  /** Dict entries in insertion order; assigning to a present key keeps its place. */
  predicate Distinct(s: seq<Entry>) {
    forall i, j :: 0 <= i < j < |s| ==> s[i].key != s[j].key
  }

  function Find(s: seq<Entry>, k: Key): Option<Entry> {
    if s == [] then None else if s[0].key == k then Some(s[0]) else Find(s[1..], k)
  }

  function Put(s: seq<Entry>, e: Entry): seq<Entry> {
    if s == [] then [e] else if s[0].key == e.key then [e] + s[1..] else [s[0]] + Put(s[1..], e)
  }

  function Without(s: seq<Entry>, k: Key): seq<Entry> {
    if s == [] then [] else if s[0].key == k then s[1..] else [s[0]] + Without(s[1..], k)
  }

  function WithoutAll(s: seq<Entry>, victims: seq<Entry>): seq<Entry>
    decreases |victims|
  {
    if victims == [] then s else WithoutAll(Without(s, victims[0].key), victims[1..])
  }

  function Expired(s: seq<Entry>, now: real): seq<Entry> {
    if s == [] then [] else (if s[0].expiresAt <= now then [s[0]] else []) + Expired(s[1..], now)
  }

  function Insert(e: Entry, s: seq<Entry>): seq<Entry> {
    if s == [] || e.expiresAt <= s[0].expiresAt then [e] + s else [s[0]] + Insert(e, s[1..])
  }

  /** Python's stable `sorted` by deadline. */
  function ByExpiry(s: seq<Entry>): seq<Entry> {
    if s == [] then [] else Insert(s[0], ByExpiry(s[1..]))
  }

  function Evicted(s: seq<Entry>, maxsize: int, now: real): seq<Entry>
    requires maxsize >= 0
  {
    if |s| <= maxsize then s
    else
      var live := WithoutAll(s, Expired(s, now));
      if |live| <= maxsize then live
      else WithoutAll(live, ByExpiryOverflow(live, maxsize))
  }

  function ByExpiryOverflow(live: seq<Entry>, maxsize: int): seq<Entry>
    requires 0 <= maxsize <= |live|
  {
    ByExpirySize(live);
    ByExpiry(live)[..|live| - maxsize]
  }

  // ---- The cache object ----

  class TtlCache {
    const ttl: int
    const maxsize: int
    const refreshOnGet: bool
    var store: seq<Entry>

    constructor (ttl: int, maxsize: int, refreshOnGet: bool)
      ensures store == [] && this.ttl == ttl && this.maxsize == maxsize && this.refreshOnGet == refreshOnGet
    {
      this.ttl, this.maxsize, this.refreshOnGet, store := ttl, maxsize, refreshOnGet, [];
    }

    predicate Enabled() { ttl > 0 && maxsize > 0 }

    function Settings(): Config { Config(ttl, maxsize, refreshOnGet) }

    method Get(key: Key, now: real) returns (value: Option<string>)
      requires Distinct(store)
      modifies this
      ensures (store, value) == AfterGet(Settings(), old(store), key, now)
    {
      if ttl <= 0 || maxsize <= 0 {
        return None;
      }
      var item := Find(store, key);
      if item.None? {
        return None;
      }
      if item.value.expiresAt <= now {
        store := Without(store, key);
        return None;
      }
      if refreshOnGet {
        store := Put(store, Entry(key, item.value.value, now + ttl as real));
      }
      value := Some(item.value.value);
    }

    method Set(key: Key, value: string, now: real)
      modifies this
      ensures store == AfterSet(Settings(), old(store), key, value, now)
    {
      if ttl <= 0 || maxsize <= 0 {
        return;
      }
      store := Put(store, Entry(key, value, now + ttl as real));
      EvictIfNeeded(now);
    }

    method Pop(key: Key)
      modifies this
      ensures store == Without(old(store), key)
    {
      store := Without(store, key);
    }

    method EvictIfNeeded(now: real)
      requires maxsize >= 0
      modifies this
      ensures store == Evicted(old(store), maxsize, now)
    {
      if |store| <= maxsize {
        return;
      }
      DropAll(Expired(store, now));
      if |store| <= maxsize {
        return;
      }
      DropOverflow(|store| - maxsize);
    }

    method DropOverflow(overflow: nat)
      requires overflow <= |store|
      modifies this
      ensures store == WithoutAll(old(store), ByExpiryOverflow(old(store), |old(store)| - overflow))
    {
      var byExpiry := ByExpiry(store);
      ByExpirySize(store);
      DropAll(byExpiry[..overflow]);
    }

    method DropAll(victims: seq<Entry>)
      modifies this
      ensures store == WithoutAll(old(store), victims)
    {
      for i := 0 to |victims|
        invariant WithoutAll(store, victims[i..]) == WithoutAll(old(store), victims)
      {
        assert victims[i..][0] == victims[i] && victims[i..][1..] == victims[i + 1..];
        store := Without(store, victims[i].key);
      }
    }
  }

  datatype Config = Config(ttl: int, maxsize: int, refreshOnGet: bool)

  predicate Enabled(c: Config) { c.ttl > 0 && c.maxsize > 0 }

  function AfterGet(c: Config, s: seq<Entry>, k: Key, now: real): (seq<Entry>, Option<string>) {
    if !Enabled(c) then (s, None)
    else match Find(s, k)
      case None => (s, None)
      case Some(e) =>
        if e.expiresAt <= now then (Without(s, k), None)
        else (if c.refreshOnGet then Put(s, Entry(k, e.value, now + c.ttl as real)) else s, Some(e.value))
  }

  function AfterSet(c: Config, s: seq<Entry>, k: Key, value: string, now: real): seq<Entry> {
    if !Enabled(c) then s else Evicted(Put(s, Entry(k, value, now + c.ttl as real)), c.maxsize, now)
  }

  // ---- List facts ----

  lemma {:induction false} FindSpec(s: seq<Entry>, k: Key)
    requires Distinct(s)
    ensures Find(s, k).Some? ==> Find(s, k).value in s && Find(s, k).value.key == k
    ensures forall e :: e in s && e.key == k ==> Find(s, k) == Some(e)
  {
    if s != [] {
      FindSpec(s[1..], k);
    }
  }

  lemma {:induction false} PutMembers(s: seq<Entry>, e: Entry)
    requires Distinct(s)
    ensures forall x :: x in Put(s, e) <==> x == e || (x in s && x.key != e.key)
  {
    if s == [] {
    } else if s[0].key == e.key {
      assert s == [s[0]] + s[1..];
    } else {
      PutMembers(s[1..], e);
      assert s == [s[0]] + s[1..];
    }
  }

  lemma {:induction false} PutDistinct(s: seq<Entry>, e: Entry)
    requires Distinct(s)
    ensures Distinct(Put(s, e))
  {
    if s != [] && s[0].key != e.key {
      PutDistinct(s[1..], e);
      PutMembers(s[1..], e);
      var rest := Put(s[1..], e);
      forall j | 0 <= j < |rest|
        ensures rest[j].key != s[0].key
      {
        assert rest[j] in rest;
      }
    }
  }

  lemma {:induction false} PutPlaces(s: seq<Entry>, e: Entry)
    ensures Find(s, e.key).None? ==> Put(s, e) == s + [e]
    ensures Find(s, e.key).Some? ==> |Put(s, e)| == |s|
  {
    if s == [] {
    } else if s[0].key != e.key {
      PutPlaces(s[1..], e);
      assert s == [s[0]] + s[1..];
    }
  }

  lemma PutSpec(s: seq<Entry>, e: Entry)
    requires Distinct(s)
    ensures Distinct(Put(s, e))
    ensures forall x :: x in Put(s, e) <==> x == e || (x in s && x.key != e.key)
    ensures Find(s, e.key).None? ==> Put(s, e) == s + [e]
    ensures Find(s, e.key).Some? ==> |Put(s, e)| == |s|
  {
    PutMembers(s, e);
    PutDistinct(s, e);
    PutPlaces(s, e);
  }

  /** Like a Python dict, the store keeps a known key in its place and adds a new one at the end. */
  lemma {:induction false} PutKeepsPlaces(s: seq<Entry>, e: Entry, i: nat)
    requires Distinct(s) && i <= |s|
    requires if i < |s| then s[i].key == e.key else forall x :: x in s ==> x.key != e.key
    ensures Put(s, e) == if i < |s| then s[i := e] else s + [e]
  {
    if s != [] && i > 0 {
      assert s == [s[0]] + s[1..];
      assert s[0].key != e.key;
      PutKeepsPlaces(s[1..], e, i - 1);
    }
  }

  lemma {:induction false} WithoutMembers(s: seq<Entry>, k: Key)
    requires Distinct(s)
    ensures forall x :: x in Without(s, k) <==> x in s && x.key != k
  {
    if s != [] {
      assert s == [s[0]] + s[1..];
      WithoutMembers(s[1..], k);
      if s[0].key == k {
        assert forall x :: x in s[1..] ==> x.key != k;
      }
    }
  }

  lemma {:induction false} WithoutSpec(s: seq<Entry>, k: Key)
    requires Distinct(s)
    ensures Distinct(Without(s, k))
    ensures forall x :: x in Without(s, k) <==> x in s && x.key != k
    ensures |Without(s, k)| == |s| - if Find(s, k).Some? then 1 else 0
  {
    WithoutMembers(s, k);
    if s != [] {
      WithoutSpec(s[1..], k);
      var rest := Without(s[1..], k);
      forall j | 0 <= j < |rest|
        ensures rest[j].key != s[0].key
      {
        assert rest[j] in rest && rest[j] in s[1..];
      }
      if s[0].key == k {
        FindSpec(s, k);
      }
    }
  }

  predicate Among(a: seq<Entry>, b: seq<Entry>) {
    forall i :: 0 <= i < |a| ==> a[i] in b
  }

  /** Dropping a list of distinct present entries removes exactly them. */
  lemma {:induction false} WithoutAllSpec(s: seq<Entry>, victims: seq<Entry>)
    requires Distinct(s) && Distinct(victims) && Among(victims, s)
    ensures var r := WithoutAll(s, victims);
            && Distinct(r) && |r| == |s| - |victims|
            && forall x :: x in r <==> x in s && x !in victims
    decreases |victims|
  {
    if victims != [] {
      var v, rest := victims[0], victims[1..];
      assert victims == [v] + rest && v in victims;
      FindSpec(s, v.key);
      WithoutSpec(s, v.key);
      forall i | 0 <= i < |rest|
        ensures rest[i] in Without(s, v.key)
      {
        assert rest[i] == victims[i + 1];
      }
      WithoutAllSpec(Without(s, v.key), rest);
      forall x | x in s
        ensures x.key == v.key <==> x == v
      {
        FindSpec(s, v.key);
      }
    }
  }

  lemma {:induction false} ExpiredSpec(s: seq<Entry>, now: real)
    requires Distinct(s)
    ensures Distinct(Expired(s, now)) && Among(Expired(s, now), s)
    ensures forall x :: x in Expired(s, now) <==> x in s && x.expiresAt <= now
  {
    if s != [] {
      assert s == [s[0]] + s[1..];
      ExpiredSpec(s[1..], now);
    }
  }

  lemma {:induction false} NoneExpired(s: seq<Entry>, now: real)
    requires forall i :: 0 <= i < |s| ==> s[i].expiresAt > now
    ensures Expired(s, now) == []
  {
    if s != [] {
      NoneExpired(s[1..], now);
    }
  }

  lemma {:induction false} InsertMembers(e: Entry, s: seq<Entry>)
    ensures |Insert(e, s)| == |s| + 1
    ensures forall x :: x in Insert(e, s) <==> x == e || x in s
  {
    if s != [] && e.expiresAt > s[0].expiresAt {
      assert s == [s[0]] + s[1..];
      InsertMembers(e, s[1..]);
    }
  }

  lemma {:induction false} InsertOrdered(e: Entry, s: seq<Entry>)
    requires Ordered(s)
    ensures Ordered(Insert(e, s))
  {
    if s != [] && e.expiresAt > s[0].expiresAt {
      InsertOrdered(e, s[1..]);
      InsertMembers(e, s[1..]);
      var r := Insert(e, s[1..]);
      forall j | 0 <= j < |r|
        ensures s[0].expiresAt <= r[j].expiresAt
      {
        assert r[j] in r;
        if r[j] != e {
          var i :| 0 <= i < |s[1..]| && s[1..][i] == r[j];
          assert s[i + 1] == r[j];
        }
      }
    }
  }

  lemma {:induction false} InsertDistinct(e: Entry, s: seq<Entry>)
    requires Distinct(s) && forall x :: x in s ==> x.key != e.key
    ensures Distinct(Insert(e, s))
  {
    if s != [] && e.expiresAt > s[0].expiresAt {
      assert s == [s[0]] + s[1..] && s[0] in s;
      InsertDistinct(e, s[1..]);
      InsertMembers(e, s[1..]);
      var r := Insert(e, s[1..]);
      forall j | 0 <= j < |r|
        ensures s[0].key != r[j].key
      {
        assert r[j] in r;
      }
    }
  }

  predicate Ordered(s: seq<Entry>) {
    forall i, j :: 0 <= i < j < |s| ==> s[i].expiresAt <= s[j].expiresAt
  }

  lemma {:induction false} ByExpirySize(s: seq<Entry>)
    ensures |ByExpiry(s)| == |s|
  {
    if s != [] {
      ByExpirySize(s[1..]);
      InsertMembers(s[0], ByExpiry(s[1..]));
    }
  }

  lemma {:induction false} ByExpiryMembers(s: seq<Entry>)
    ensures forall x :: x in ByExpiry(s) <==> x in s
  {
    if s != [] {
      assert s == [s[0]] + s[1..];
      ByExpiryMembers(s[1..]);
      InsertMembers(s[0], ByExpiry(s[1..]));
    }
  }

  lemma {:induction false} ByExpiryOrdered(s: seq<Entry>)
    ensures Ordered(ByExpiry(s))
  {
    if s != [] {
      ByExpiryOrdered(s[1..]);
      InsertOrdered(s[0], ByExpiry(s[1..]));
    }
  }

  lemma {:induction false} ByExpiryDistinct(s: seq<Entry>)
    requires Distinct(s)
    ensures Distinct(ByExpiry(s))
  {
    if s != [] {
      ByExpiryDistinct(s[1..]);
      var rest := ByExpiry(s[1..]);
      forall x | x in rest
        ensures x.key != s[0].key
      {
        ByExpiryMembers(s[1..]);
        var i :| 0 <= i < |s[1..]| && s[1..][i] == x;
        assert s[i + 1] == x;
      }
      InsertDistinct(s[0], rest);
    }
  }

  /** Stability: an entry added last with a maximal deadline sorts last. */
  lemma {:induction false} NewestSortsLast(s: seq<Entry>, e: Entry)
    requires forall x :: x in s ==> x.expiresAt <= e.expiresAt
    ensures ByExpiry(s + [e]) == ByExpiry(s) + [e]
  {
    if s == [] {
      assert s + [e] == [e];
    } else {
      assert (s + [e])[1..] == s[1..] + [e];
      NewestSortsLast(s[1..], e);
      InsertBeforeLast(s[0], ByExpiry(s[1..]), e);
    }
  }

  lemma {:induction false} InsertBeforeLast(x: Entry, s: seq<Entry>, e: Entry)
    requires x.expiresAt <= e.expiresAt
    ensures Insert(x, s + [e]) == Insert(x, s) + [e]
  {
    if s == [] {
      assert s + [e] == [e];
    } else if x.expiresAt > s[0].expiresAt {
      assert (s + [e])[1..] == s[1..] + [e];
      InsertBeforeLast(x, s[1..], e);
    } else {
      assert [x] + (s + [e]) == [x] + s + [e];
    }
  }

  // ---- Eviction ----

  /** What is left of a cache once the expired entries are dropped. */
  function LiveEntries(s: seq<Entry>, now: real): seq<Entry> { WithoutAll(s, Expired(s, now)) }

  lemma LiveEntriesSpec(s: seq<Entry>, now: real)
    requires Distinct(s)
    ensures Distinct(LiveEntries(s, now))
    ensures forall x :: x in LiveEntries(s, now) <==> x in s && x.expiresAt > now
  {
    ExpiredSpec(s, now);
    WithoutAllSpec(s, Expired(s, now));
  }

  /** Eviction brings the cache within its bound, keeps surviving entries as they are, and is fair: a victim was
      expired, or no survivor would have expired before it. */
  lemma EvictionSpec(s: seq<Entry>, maxsize: int, now: real)
    requires Distinct(s) && maxsize >= 0
    ensures var r := Evicted(s, maxsize, now);
            && Distinct(r) && |r| <= maxsize && (|s| <= maxsize ==> r == s)
            && (forall x :: x in r ==> x in s)
            && (forall victim, kept :: victim in s && victim !in r && kept in r ==> FairlyEvicted(victim, kept, now))
  {
    if |s| > maxsize {
      ExpiredSpec(s, now);
      WithoutAllSpec(s, Expired(s, now));
      var live := WithoutAll(s, Expired(s, now));
      if |live| > maxsize {
        OverflowSpec(live, maxsize);
      }
    }
  }

  predicate FairlyEvicted(victim: Entry, kept: Entry, now: real) {
    victim.expiresAt <= now || victim.expiresAt <= kept.expiresAt
  }

  lemma OverflowSpec(live: seq<Entry>, maxsize: int)
    requires Distinct(live) && 0 <= maxsize < |live|
    ensures var victims := ByExpiryOverflow(live, maxsize);
            var r := WithoutAll(live, victims);
            && Distinct(victims) && Among(victims, live)
            && Distinct(r) && |r| == maxsize
            && (forall x :: x in r <==> x in live && x !in victims)
            && (forall victim, kept :: victim in victims && kept in r ==> victim.expiresAt <= kept.expiresAt)
  {
    var victims := ByExpiryOverflow(live, maxsize);
    OverflowIsAmong(live, maxsize);
    WithoutAllSpec(live, victims);
    forall victim, kept | victim in victims && kept in live && kept !in victims
      ensures victim.expiresAt <= kept.expiresAt
    {
      OverflowExpiresFirst(live, maxsize, victim, kept);
    }
  }

  lemma OverflowIsAmong(live: seq<Entry>, maxsize: int)
    requires Distinct(live) && 0 <= maxsize < |live|
    ensures var victims := ByExpiryOverflow(live, maxsize);
            Distinct(victims) && Among(victims, live) && |victims| == |live| - maxsize
  {
    ByExpirySize(live);
    ByExpiryMembers(live);
    ByExpiryDistinct(live);
    var sorted := ByExpiry(live);
    forall i | 0 <= i < |live| - maxsize
      ensures sorted[i] in live
    {
      assert sorted[i] in sorted;
    }
  }

  lemma OverflowExpiresFirst(live: seq<Entry>, maxsize: int, victim: Entry, kept: Entry)
    requires 0 <= maxsize < |live|
    requires victim in ByExpiryOverflow(live, maxsize) && kept in live && kept !in ByExpiryOverflow(live, maxsize)
    ensures victim.expiresAt <= kept.expiresAt
  {
    ByExpirySize(live);
    ByExpiryMembers(live);
    ByExpiryOrdered(live);
    var sorted, n := ByExpiry(live), |live| - maxsize;
    var i :| 0 <= i < n && sorted[i] == victim;
    assert kept in sorted;
    var j :| 0 <= j < |sorted| && sorted[j] == kept;
    assert j >= n;
  }

  /** An entry that is last in insertion order, unexpired and of maximal deadline survives eviction. */
  lemma NewestSurvives(s: seq<Entry>, e: Entry, maxsize: int, now: real)
    requires Distinct(s + [e]) && maxsize > 0 && e.expiresAt > now
    requires forall x :: x in s ==> x.expiresAt <= e.expiresAt
    ensures e in Evicted(s + [e], maxsize, now)
  {
    var all := s + [e];
    assert all[|s|] == e;
    if |all| > maxsize {
      LiveEntriesSpec(all, now);
      NewestIsLastAlive(s, e, now);
      var live := LiveEntries(all, now);
      if |live| > maxsize {
        LastIsNoOverflow(live, e, maxsize);
        OverflowSpec(live, maxsize);
      }
    }
  }

  lemma NewestIsLastAlive(s: seq<Entry>, e: Entry, now: real)
    requires Distinct(s + [e]) && e.expiresAt > now
    ensures var live := LiveEntries(s + [e], now); live != [] && live[|live| - 1] == e
  {
    var all := s + [e];
    ExpiredSpec(all, now);
    forall v | v in Expired(all, now)
      ensures v.key != e.key
    {
      var i :| 0 <= i < |all| && all[i] == v;
      assert all[|s|] == e;
    }
    WithoutAllKeepsLast(s, e, Expired(all, now));
  }

  lemma LastIsNoOverflow(live: seq<Entry>, e: Entry, maxsize: int)
    requires Distinct(live) && 0 < maxsize < |live| && live[|live| - 1] == e
    requires forall x :: x in live ==> x.expiresAt <= e.expiresAt
    ensures e !in ByExpiryOverflow(live, maxsize)
  {
    var rest := live[..|live| - 1];
    assert live == rest + [e];
    forall x | x in rest
      ensures x.expiresAt <= e.expiresAt
    {
      assert x in live;
    }
    NewestSortsLast(rest, e);
    ByExpirySize(live);
    ByExpiryDistinct(live);
    var sorted := ByExpiry(live);
    assert sorted[|sorted| - 1] == e;
    assert forall i :: 0 <= i < |sorted| - 1 ==> sorted[i].key != sorted[|sorted| - 1].key;
  }

  lemma {:induction false} WithoutAllKeepsLast(s: seq<Entry>, e: Entry, victims: seq<Entry>)
    requires forall v :: v in victims ==> v.key != e.key
    ensures var r := WithoutAll(s + [e], victims); r != [] && r[|r| - 1] == e
    decreases |victims|
  {
    if victims != [] {
      assert victims[0] in victims;
      WithoutKeepsLast(s, e, victims[0].key);
      var r := Without(s + [e], victims[0].key);
      WithoutAllKeepsLast(r[..|r| - 1], e, victims[1..]);
      assert r == r[..|r| - 1] + [e];
    }
  }

  lemma {:induction false} WithoutKeepsLast(s: seq<Entry>, e: Entry, k: Key)
    requires e.key != k
    ensures var r := Without(s + [e], k); r != [] && r[|r| - 1] == e
  {
    if s == [] {
      assert s + [e] == [e];
    } else {
      assert (s + [e])[1..] == s[1..] + [e];
      WithoutKeepsLast(s[1..], e, k);
    }
  }

  // ---- Runs against an unbounded deadline map ----

  datatype Op = Get(key: Key, at: real) | Set(key: Key, value: string, at: real) | Pop(key: Key, at: real)

  type Deadlines = map<Key, (string, real)>

  /** The reference: every key keeps the value last set until its deadline; nothing is ever evicted for space. */
  function Reference(c: Config, m: Deadlines, op: Op): (Deadlines, Option<string>) {
    if !Enabled(c) then (m, None)
    else match op
      case Get(k, now) =>
        if k !in m then (m, None)
        else if m[k].1 <= now then (m - {k}, None)
        else (if c.refreshOnGet then m[k := (m[k].0, now + c.ttl as real)] else m, Some(m[k].0))
      case Set(k, v, now) => (m[k := (v, now + c.ttl as real)], None)
      case Pop(k, _) => (m - {k}, None)
  }

  function Perform(c: Config, s: seq<Entry>, op: Op): (seq<Entry>, Option<string>) {
    match op
    case Get(k, now) => AfterGet(c, s, k, now)
    case Set(k, v, now) => (AfterSet(c, s, k, v, now), None)
    case Pop(k, _) => (Without(s, k), None)
  }

  function RunCache(c: Config, s: seq<Entry>, ops: seq<Op>): seq<Entry>
    decreases |ops|
  {
    if ops == [] then s else RunCache(c, Perform(c, s, ops[0]).0, ops[1..])
  }

  function RunReference(c: Config, m: Deadlines, ops: seq<Op>): Deadlines
    decreases |ops|
  {
    if ops == [] then m else RunReference(c, Reference(c, m, ops[0]).0, ops[1..])
  }

  predicate Monotone(ops: seq<Op>, since: real) {
    && (forall i :: 0 <= i < |ops| ==> since <= ops[i].at)
    && forall i, j :: 0 <= i < j < |ops| ==> ops[i].at <= ops[j].at
  }

  /** Every cached entry is the reference's entry for its key, with a deadline no later than a fresh one. */
  ghost predicate Agrees(c: Config, s: seq<Entry>, m: Deadlines, now: real) {
    && Distinct(s)
    && (Enabled(c) ==> |s| <= c.maxsize)
    && (!Enabled(c) ==> s == [])
    && forall e :: e in s ==> Matches(c, e, m, now)
  }

  predicate Matches(c: Config, e: Entry, m: Deadlines, now: real) {
    e.key in m && m[e.key] == (e.value, e.expiresAt) && e.expiresAt <= now + c.ttl as real
  }

  lemma StepAgrees(c: Config, s: seq<Entry>, m: Deadlines, op: Op, since: real)
    requires Agrees(c, s, m, since) && since <= op.at
    ensures Agrees(c, Perform(c, s, op).0, Reference(c, m, op).0, op.at)
  {
    if Enabled(c) {
      match op
      case Get(k, now) => GetAgrees(c, s, m, k, now, since);
      case Set(k, v, now) => SetAgrees(c, s, m, k, v, now, since);
      case Pop(k, _) => WithoutSpec(s, k);
    }
  }

  lemma GetAgrees(c: Config, s: seq<Entry>, m: Deadlines, k: Key, now: real, since: real)
    requires Agrees(c, s, m, since) && since <= now && Enabled(c)
    ensures Agrees(c, AfterGet(c, s, k, now).0, Reference(c, m, Get(k, now)).0, now)
  {
    FindSpec(s, k);
    WithoutSpec(s, k);
    var (t, n) := (AfterGet(c, s, k, now).0, Reference(c, m, Get(k, now)).0);
    if Find(s, k).Some? {
      var was := Find(s, k).value;
      assert Matches(c, was, m, since);
      PutSpec(s, Entry(k, was.value, now + c.ttl as real));
    }
    forall x | x in t
      ensures Matches(c, x, n, now)
    {
      assert x in s ==> Matches(c, x, m, since);
      assert x in s && x.key == k ==> Find(s, k) == Some(x);
    }
  }

  lemma SetAgrees(c: Config, s: seq<Entry>, m: Deadlines, k: Key, v: string, now: real, since: real)
    requires Agrees(c, s, m, since) && since <= now && Enabled(c)
    ensures Agrees(c, AfterSet(c, s, k, v, now), m[k := (v, now + c.ttl as real)], now)
  {
    var e := Entry(k, v, now + c.ttl as real);
    PutSpec(s, e);
    EvictionSpec(Put(s, e), c.maxsize, now);
    forall x | x in Evicted(Put(s, e), c.maxsize, now)
      ensures Matches(c, x, m[k := (v, e.expiresAt)], now)
    {
      assert x in Put(s, e);
      assert x == e || (x in s && Matches(c, x, m, since));
    }
  }

  lemma {:induction false} RunAgrees(c: Config, s: seq<Entry>, m: Deadlines, ops: seq<Op>, since: real)
    requires Agrees(c, s, m, since) && Monotone(ops, since)
    ensures var end := if ops == [] then since else ops[|ops| - 1].at;
            Agrees(c, RunCache(c, s, ops), RunReference(c, m, ops), end)
    decreases |ops|
  {
    if ops != [] {
      StepAgrees(c, s, m, ops[0], since);
      RunAgrees(c, Perform(c, s, ops[0]).0, Reference(c, m, ops[0]).0, ops[1..], ops[0].at);
    }
  }

  /** Over every run with a non-decreasing clock: the cache never exceeds its bound; a hit returns exactly what the
      reference returns, so the most recently set value inside its lifetime; and a key just set is always found. */
  lemma CacheIsSound(c: Config, ops: seq<Op>, k: Key, v: string, now: real)
    requires Monotone(ops, 0.0) && 0.0 <= now && (ops != [] ==> ops[|ops| - 1].at <= now)
    ensures var s, m := RunCache(c, [], ops), RunReference(c, map[], ops);
            && (Enabled(c) ==> |s| <= c.maxsize)
            && (AfterGet(c, s, k, now).1.Some? ==> AfterGet(c, s, k, now).1 == Reference(c, m, Get(k, now)).1)
            && (Enabled(c) ==> Find(AfterSet(c, s, k, v, now), k) == Some(Entry(k, v, now + c.ttl as real)))
  {
    var s, m := RunCache(c, [], ops), RunReference(c, map[], ops);
    RunAgrees(c, [], map[], ops, 0.0);
    FindSpec(s, k);
    if Enabled(c) {
      JustSetIsFound(c, s, m, k, v, if ops == [] then 0.0 else ops[|ops| - 1].at, now);
    }
  }

  lemma JustSetIsFound(c: Config, s: seq<Entry>, m: Deadlines, k: Key, v: string, since: real, now: real)
    requires Enabled(c) && Agrees(c, s, m, since) && since <= now
    ensures Find(AfterSet(c, s, k, v, now), k) == Some(Entry(k, v, now + c.ttl as real))
  {
    var e := Entry(k, v, now + c.ttl as real);
    FindSpec(s, k);
    PutSpec(s, e);
    EvictionSpec(Put(s, e), c.maxsize, now);
    if Find(s, k).None? {
      forall x | x in s
        ensures x.expiresAt <= e.expiresAt
      {
        assert Matches(c, x, m, since);
      }
      NewestSurvives(s, e, c.maxsize, now);
    }
    FindSpec(Evicted(Put(s, e), c.maxsize, now), k);
  }

  function LiveKeys(m: Deadlines, now: real): set<Key> {
    set k | k in m && m[k].1 > now
  }

  /** The cache has lost no key that is still inside its lifetime. */
  ghost predicate Complete(s: seq<Entry>, m: Deadlines, now: real) {
    forall k :: k in LiveKeys(m, now) ==> Find(s, k).Some?
  }

  function Keys(s: seq<Entry>): set<Key> {
    set e | e in s :: e.key
  }

  lemma {:induction false} KeysSize(s: seq<Entry>)
    requires Distinct(s)
    ensures |Keys(s)| == |s|
  {
    if s != [] {
      KeysSize(s[1..]);
      assert s == [s[0]] + s[1..];
      assert s[0].key !in Keys(s[1..]) by {
        FindSpec(s, s[0].key);
      }
      assert Keys(s) == {s[0].key} + Keys(s[1..]);
    }
  }

  /** A miss the reference would have served happens only under pressure: as long as no more than `maxsize` keys are
      live at once, every get returns what the reference returns. */
  lemma NoPressureNoLoss(c: Config, ops: seq<Op>, k: Key, now: real)
    requires Enabled(c) && Monotone(ops, 0.0) && 0.0 <= now && (ops != [] ==> ops[|ops| - 1].at <= now)
    requires forall i :: 0 <= i < |ops| ==> |LiveKeys(RunReference(c, map[], ops[..i + 1]), ops[i].at)| <= c.maxsize
    ensures AfterGet(c, RunCache(c, [], ops), k, now).1 == Reference(c, RunReference(c, map[], ops), Get(k, now)).1
  {
    RunComplete(c, [], map[], ops, 0.0);
    RunAgrees(c, [], map[], ops, 0.0);
    var s, m := RunCache(c, [], ops), RunReference(c, map[], ops);
    FindSpec(s, k);
    if k in m && m[k].1 > now {
      assert k in LiveKeys(m, if ops == [] then 0.0 else ops[|ops| - 1].at);
      assert Find(s, k).Some?;
    }
  }

  lemma {:induction false} RunComplete(c: Config, s: seq<Entry>, m: Deadlines, ops: seq<Op>, since: real)
    requires Enabled(c) && Agrees(c, s, m, since) && Complete(s, m, since) && Monotone(ops, since)
    requires forall i :: 0 <= i < |ops| ==> |LiveKeys(RunReference(c, m, ops[..i + 1]), ops[i].at)| <= c.maxsize
    ensures Complete(RunCache(c, s, ops), RunReference(c, m, ops), if ops == [] then since else ops[|ops| - 1].at)
    decreases |ops|
  {
    if ops != [] {
      var t, n := Perform(c, s, ops[0]).0, Reference(c, m, ops[0]).0;
      StepAgrees(c, s, m, ops[0], since);
      assert ops[..0 + 1] == [ops[0]] && [ops[0]][1..] == [];
      assert RunReference(c, m, ops[..0 + 1]) == n;
      StepComplete(c, s, m, ops[0], since);
      forall i | 0 <= i < |ops[1..]|
        ensures |LiveKeys(RunReference(c, n, ops[1..][..i + 1]), ops[1..][i].at)| <= c.maxsize
      {
        assert ops[..i + 2][1..] == ops[1..][..i + 1] && ops[..i + 2][0] == ops[0];
        assert |LiveKeys(RunReference(c, m, ops[..(i + 1) + 1]), ops[i + 1].at)| <= c.maxsize;
      }
      RunComplete(c, t, n, ops[1..], ops[0].at);
    }
  }

  lemma StepComplete(c: Config, s: seq<Entry>, m: Deadlines, op: Op, since: real)
    requires Enabled(c) && Agrees(c, s, m, since) && Complete(s, m, since) && since <= op.at
    requires |LiveKeys(Reference(c, m, op).0, op.at)| <= c.maxsize
    ensures Complete(Perform(c, s, op).0, Reference(c, m, op).0, op.at)
  {
    var k, t := op.key, Perform(c, s, op).0;
    StepAgrees(c, s, m, op, since);
    forall other | other in LiveKeys(Reference(c, m, op).0, op.at)
      ensures Find(t, other).Some?
    {
      if other != k {
        FindSpec(s, other);
        assert other in LiveKeys(m, since);
        OthersStay(c, s, m, op, since, Find(s, other).value);
        FindSpec(t, other);
      } else {
        OwnStays(c, s, m, op, since);
      }
    }
  }

  lemma FewKeysFewEntries(s: seq<Entry>, keys: set<Key>)
    requires Distinct(s) && forall y :: y in s ==> y.key in keys
    ensures |s| <= |keys|
  {
    KeysSize(s);
    SubsetSize(Keys(s), keys);
  }

  lemma LiveStaysWhenRoom(all: seq<Entry>, maxsize: int, now: real, x: Entry)
    requires Distinct(all) && maxsize >= 0 && |LiveEntries(all, now)| <= maxsize && x in all && x.expiresAt > now
    ensures x in Evicted(all, maxsize, now)
  {
    LiveEntriesSpec(all, now);
  }

  lemma SetKeepsLive(c: Config, s: seq<Entry>, m: Deadlines, e: Entry, now: real, since: real, x: Entry)
    requires Enabled(c) && Agrees(c, s, m, since) && since <= now
    requires |LiveKeys(m[e.key := (e.value, e.expiresAt)], now)| <= c.maxsize
    requires x in Put(s, e) && x.expiresAt > now
    ensures x in Evicted(Put(s, e), c.maxsize, now)
  {
    PutMembers(s, e);
    PutDistinct(s, e);
    var all, n := Put(s, e), m[e.key := (e.value, e.expiresAt)];
    LiveEntriesSpec(all, now);
    forall y | y in LiveEntries(all, now)
      ensures y.key in LiveKeys(n, now)
    {
      assert y == e || Matches(c, y, m, since);
    }
    FewKeysFewEntries(LiveEntries(all, now), LiveKeys(n, now));
    LiveStaysWhenRoom(all, c.maxsize, now, x);
  }

  lemma OthersStay(c: Config, s: seq<Entry>, m: Deadlines, op: Op, since: real, e: Entry)
    requires Enabled(c) && Agrees(c, s, m, since) && since <= op.at
    requires |LiveKeys(Reference(c, m, op).0, op.at)| <= c.maxsize
    requires e in s && e.key != op.key && e.expiresAt > op.at
    ensures e in Perform(c, s, op).0
  {
    match op
    case Get(k, now) => GetKeepsOther(c, s, k, now, e);
    case Set(k, v, now) => SetKeepsOther(c, s, m, op, since, e);
    case Pop(k, _) => WithoutMembers(s, k);
  }

  lemma GetKeepsOther(c: Config, s: seq<Entry>, k: Key, now: real, e: Entry)
    requires Distinct(s) && e in s && e.key != k
    ensures e in AfterGet(c, s, k, now).0
  {
    WithoutMembers(s, k);
    if Find(s, k).Some? {
      PutSpec(s, Entry(k, Find(s, k).value.value, now + c.ttl as real));
    }
  }

  lemma SetKeepsOther(c: Config, s: seq<Entry>, m: Deadlines, op: Op, since: real, e: Entry)
    requires Enabled(c) && Agrees(c, s, m, since) && since <= op.at && op.Set?
    requires |LiveKeys(Reference(c, m, op).0, op.at)| <= c.maxsize
    requires e in s && e.key != op.key && e.expiresAt > op.at
    ensures e in Perform(c, s, op).0
  {
    var put := Entry(op.key, op.value, op.at + c.ttl as real);
    assert e in Put(s, put) by {
      PutSpec(s, put);
    }
    SetKeepsLive(c, s, m, put, op.at, since, e);
  }

  lemma OwnStays(c: Config, s: seq<Entry>, m: Deadlines, op: Op, since: real)
    requires Enabled(c) && Agrees(c, s, m, since) && Complete(s, m, since) && since <= op.at
    requires |LiveKeys(Reference(c, m, op).0, op.at)| <= c.maxsize
    requires op.key in LiveKeys(Reference(c, m, op).0, op.at)
    ensures Find(Perform(c, s, op).0, op.key).Some?
  {
    match op
    case Get(k, now) => GotStays(c, s, m, k, now, since);
    case Set(k, v, now) => JustSetIsFound(c, s, m, k, v, since, now);
    case Pop(_, _) =>
  }

  lemma GotStays(c: Config, s: seq<Entry>, m: Deadlines, k: Key, now: real, since: real)
    requires Enabled(c) && Agrees(c, s, m, since) && Complete(s, m, since) && since <= now
    requires k in LiveKeys(Reference(c, m, Get(k, now)).0, now)
    ensures Find(AfterGet(c, s, k, now).0, k).Some?
  {
    FindSpec(s, k);
    assert k in LiveKeys(m, since);
    assert Matches(c, Find(s, k).value, m, since);
    PutSpec(s, Entry(k, Find(s, k).value.value, now + c.ttl as real));
    FindSpec(AfterGet(c, s, k, now).0, k);
  }
}

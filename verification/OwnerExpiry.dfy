/** In memory, owners and bindings expire on their own: exactly when a served binding has lost its owner. */
module OwnerExpiry {
  import opened Basics
  import opened TtlCache

  // ---- How a key inside its lifetime can be missing from the cache ----

  /** The live entries an eviction removes for space: the soonest to expire of more than there is room for. */
  function Victims(all: seq<Entry>, maxsize: int, now: real): seq<Entry>
    requires maxsize >= 0
  {
    if |all| <= maxsize then []
    else
      var live := WithoutAll(all, Expired(all, now));
      if |live| <= maxsize then [] else ByExpiryOverflow(live, maxsize)
  }

  /** Setting another key overflows the cache at this key's expense. */
  predicate PushedOut(c: Config, s: seq<Entry>, op: Op, k: Key) {
    && Enabled(c) && op.Set? && op.key != k && Find(s, k).Some? && Find(s, k).value.expiresAt > op.at
    && Find(s, k).value in Victims(Put(s, Entry(op.key, op.value, op.at + c.ttl as real)), c.maxsize, op.at)
  }

  /** The key was pushed out by some operation and has not been set since. */
  predicate Lost(c: Config, s: seq<Entry>, lost: bool, ops: seq<Op>, k: Key)
    decreases |ops|
  {
    if ops == [] then lost
    else Lost(c, Perform(c, s, ops[0]).0, LostAfter(c, s, lost, ops[0], k), ops[1..], k)
  }

  predicate LostAfter(c: Config, s: seq<Entry>, lost: bool, op: Op, k: Key) {
    if op.Set? && op.key == k then false else lost || PushedOut(c, s, op, k)
  }

  /** A key inside its lifetime is missing from the cache exactly when it was lost. */
  predicate LossKnown(s: seq<Entry>, m: Deadlines, now: real, lost: bool, k: Key) {
    k in m && m[k].1 > now ==> (Find(s, k).None? <==> lost)
  }

  lemma SurvivesUnlessVictim(all: seq<Entry>, maxsize: int, now: real, e: Entry)
    requires Distinct(all) && maxsize >= 0 && e in all && e.expiresAt > now
    ensures e in Evicted(all, maxsize, now) <==> e !in Victims(all, maxsize, now)
  {
    if |all| > maxsize {
      ExpiredSpec(all, now);
      WithoutAllSpec(all, Expired(all, now));
      var live := WithoutAll(all, Expired(all, now));
      if |live| > maxsize {
        OverflowSpec(live, maxsize);
      }
    }
  }

  lemma PutFinds(s: seq<Entry>, e: Entry, k: Key)
    requires Distinct(s)
    ensures Distinct(Put(s, e)) && Find(Put(s, e), k) == if k == e.key then Some(e) else Find(s, k)
  {
    FindSpec(s, k);
    PutSpec(s, e);
    FindSpec(Put(s, e), k);
  }

  lemma EvictedFinds(all: seq<Entry>, maxsize: int, now: real, k: Key)
    requires Distinct(all) && maxsize >= 0 && (Find(all, k).Some? ==> Find(all, k).value.expiresAt > now)
    ensures Find(Evicted(all, maxsize, now), k).None? <==> Find(all, k).None? || Find(all, k).value in Victims(all, maxsize, now)
  {
    FindSpec(all, k);
    EvictionSpec(all, maxsize, now);
    FindSpec(Evicted(all, maxsize, now), k);
    if Find(all, k).Some? {
      SurvivesUnlessVictim(all, maxsize, now, Find(all, k).value);
    }
  }

  lemma OtherSetLoses(c: Config, s: seq<Entry>, op: Op, k: Key)
    requires Enabled(c) && Distinct(s) && op.Set? && op.key != k && (Find(s, k).Some? ==> Find(s, k).value.expiresAt > op.at)
    ensures Find(Perform(c, s, op).0, k).None? <==> Find(s, k).None? || PushedOut(c, s, op, k)
  {
    var e := Entry(op.key, op.value, op.at + c.ttl as real);
    PutFinds(s, e, k);
    EvictedFinds(Put(s, e), c.maxsize, op.at, k);
    OtherSetEffect(c, s, op, k, e, Put(s, e));
  }

  lemma OtherSetEffect(c: Config, s: seq<Entry>, op: Op, k: Key, e: Entry, all: seq<Entry>)
    requires Enabled(c) && op.Set? && op.key != k && (Find(s, k).Some? ==> Find(s, k).value.expiresAt > op.at)
    requires e == Entry(op.key, op.value, op.at + c.ttl as real) && all == Put(s, e) && Find(all, k) == Find(s, k)
    requires Find(Evicted(all, c.maxsize, op.at), k).None? <==>
             Find(all, k).None? || Find(all, k).value in Victims(all, c.maxsize, op.at)
    ensures Find(Perform(c, s, op).0, k).None? <==> Find(s, k).None? || PushedOut(c, s, op, k)
  {
  }

  lemma StepLossKnown(c: Config, s: seq<Entry>, m: Deadlines, op: Op, since: real, lost: bool, k: Key)
    requires Enabled(c) && Agrees(c, s, m, since) && since <= op.at && LossKnown(s, m, since, lost, k)
    ensures LossKnown(Perform(c, s, op).0, Reference(c, m, op).0, op.at, LostAfter(c, s, lost, op, k), k)
  {
    FindSpec(s, k);
    if Find(s, k).Some? {
      assert Matches(c, Find(s, k).value, m, since);
    }
    match op
    case Set(x, v, now) =>
      if x == k {
        JustSetIsFound(c, s, m, op.key, op.value, since, op.at);
      } else if k in m && m[k].1 > now {
        OtherSetLoses(c, s, op, k);
      }
    case Get(x, now) => GetSpares(c, s, x, now, k);
    case Pop(x, _) => WithoutFinds(s, x, k);
  }

  lemma WithoutFinds(s: seq<Entry>, x: Key, k: Key)
    requires Distinct(s)
    ensures Find(Without(s, x), k) == if x == k then None else Find(s, k)
  {
    WithoutSpec(s, x);
    FindSpec(s, k);
    FindSpec(Without(s, x), k);
  }

  lemma GetSpares(c: Config, s: seq<Entry>, x: Key, now: real, k: Key)
    requires Distinct(s)
    ensures x != k ==> Find(AfterGet(c, s, x, now).0, k) == Find(s, k)
    ensures Find(s, k).None? ==> Find(AfterGet(c, s, x, now).0, k).None?
    ensures Find(s, k).Some? && Find(s, k).value.expiresAt > now ==> Find(AfterGet(c, s, x, now).0, k).Some?
  {
    WithoutFinds(s, x, k);
    var e := Entry(x, if Find(s, x).Some? then Find(s, x).value.value else "", now + c.ttl as real);
    PutFinds(s, e, k);
    GetEffect(c, s, x, now, k, e);
  }

  lemma GetEffect(c: Config, s: seq<Entry>, x: Key, now: real, k: Key, e: Entry)
    requires Find(Without(s, x), k) == if x == k then None else Find(s, k)
    requires Find(s, x).Some? ==> e == Entry(x, Find(s, x).value.value, now + c.ttl as real)
    requires Find(Put(s, e), k) == (if k == x then Some(e) else Find(s, k))
    ensures x != k ==> Find(AfterGet(c, s, x, now).0, k) == Find(s, k)
    ensures Find(s, k).None? ==> Find(AfterGet(c, s, x, now).0, k).None?
    ensures Find(s, k).Some? && Find(s, k).value.expiresAt > now ==> Find(AfterGet(c, s, x, now).0, k).Some?
  {
  }

  lemma {:induction false} RunLossKnown(c: Config, s: seq<Entry>, m: Deadlines, ops: seq<Op>, since: real, lost: bool, k: Key)
    requires Enabled(c) && Agrees(c, s, m, since) && Monotone(ops, since) && LossKnown(s, m, since, lost, k)
    ensures LossKnown(RunCache(c, s, ops), RunReference(c, m, ops), if ops == [] then since else ops[|ops| - 1].at,
                      Lost(c, s, lost, ops, k), k)
    decreases |ops|
  {
    if ops != [] {
      StepAgrees(c, s, m, ops[0], since);
      StepLossKnown(c, s, m, ops[0], since, lost, k);
      RunLossKnown(c, Perform(c, s, ops[0]).0, Reference(c, m, ops[0]).0, ops[1..], ops[0].at,
                   LostAfter(c, s, lost, ops[0], k), k);
    }
  }

  /** A get misses exactly when the reference holds no live entry for the key or the key was pushed out since it was
      last set. */
  lemma MissIff(c: Config, ops: seq<Op>, k: Key, now: real)
    requires Enabled(c) && Monotone(ops, 0.0) && 0.0 <= now && (ops != [] ==> ops[|ops| - 1].at <= now)
    ensures var s, m := RunCache(c, [], ops), RunReference(c, map[], ops);
            AfterGet(c, s, k, now).1.None? <==> !(k in m && m[k].1 > now) || Lost(c, [], false, ops, k)
  {
    var s, m := RunCache(c, [], ops), RunReference(c, map[], ops);
    RunAgrees(c, [], map[], ops, 0.0);
    RunLossKnown(c, [], map[], ops, 0.0, false, k);
    FindSpec(s, k);
    if Find(s, k).Some? {
      assert Matches(c, Find(s, k).value, m, if ops == [] then 0.0 else ops[|ops| - 1].at);
    }
  }

  /** A key is pushed out only under pressure: more than maxsize keys are inside their lifetimes at that moment. */
  lemma PushedOutUnderPressure(c: Config, s: seq<Entry>, m: Deadlines, op: Op, since: real, k: Key)
    requires Agrees(c, s, m, since) && since <= op.at && PushedOut(c, s, op, k)
    ensures |LiveKeys(Reference(c, m, op).0, op.at)| > c.maxsize
  {
    if |LiveKeys(Reference(c, m, op).0, op.at)| <= c.maxsize {
      PushedOutIsVictim(c, s, op, k);
      SetKeepsLive(c, s, m, Entry(op.key, op.value, op.at + c.ttl as real), op.at, since, Find(s, k).value);
    }
  }

  lemma PushedOutIsVictim(c: Config, s: seq<Entry>, op: Op, k: Key)
    requires Distinct(s) && PushedOut(c, s, op, k)
    ensures var all := Put(s, Entry(op.key, op.value, op.at + c.ttl as real));
            Find(s, k).value in all && Find(s, k).value !in Evicted(all, c.maxsize, op.at)
  {
    var e := Entry(op.key, op.value, op.at + c.ttl as real);
    FindSpec(s, k);
    PutSpec(s, e);
    SurvivesUnlessVictim(Put(s, e), c.maxsize, op.at, Find(s, k).value);
  }

  // ---- Bindings and owners ----

  /** The two caches of the in-memory repository: reading an owner refreshes it, reading a binding does not. */
  function Bindings(ttl: int, maxsize: int): Config { Config(ttl, maxsize, false) }

  function Owners(ttl: int, maxsize: int): Config { Config(ttl, maxsize, true) }

  predicate UpTo(ops: seq<Op>, now: real) { Monotone(ops, 0.0) && 0.0 <= now && (ops != [] ==> ops[|ops| - 1].at <= now) }

  /** A binding that is served at `now` has no served owner exactly when no owner is recorded inside its lifetime, or
      the owner was pushed out of its cache and not set again. */
  lemma BindingOutlivesOwnerIff(ttl: int, maxsize: int, bindingOps: seq<Op>, ownerOps: seq<Op>, identity: string, contextId: string,
                                sessionId: string, now: real)
    requires UpTo(bindingOps, now) && UpTo(ownerOps, now)
    requires AfterGet(Bindings(ttl, maxsize), RunCache(Bindings(ttl, maxsize), [], bindingOps), BindingKey(identity, contextId), now).1
             == Some(sessionId)
    ensures var k, o := SessionKey(sessionId), Owners(ttl, maxsize);
            var bindings, owners := RunReference(Bindings(ttl, maxsize), map[], bindingOps), RunReference(o, map[], ownerOps);
            && BindingKey(identity, contextId) in bindings && now < bindings[BindingKey(identity, contextId)].1
            && (AfterGet(o, RunCache(o, [], ownerOps), k, now).1.None? <==>
                  k !in owners || owners[k].1 <= now || Lost(o, [], false, ownerOps, k))
  {
    CacheIsSound(Bindings(ttl, maxsize), bindingOps, BindingKey(identity, contextId), "", now);
    MissIff(Owners(ttl, maxsize), ownerOps, SessionKey(sessionId), now);
  }

  /** It needs no eviction: a caller reads the owner, which refreshes it, and writes the binding in a later lock section;
      between the two deadlines the binding is served and its owner is gone, however large the caches are. */
  lemma OwnerExpiresFirst(ttl: int, maxsize: int, identity: string, contextId: string, sessionId: string,
                          recorded: real, read: real, bound: real, now: real)
    requires ttl > 0 && maxsize > 0 && 0.0 <= recorded <= read < recorded + ttl as real
    requires read <= bound <= now && read + ttl as real <= now < bound + ttl as real
    ensures var k, b := SessionKey(sessionId), BindingKey(identity, contextId);
            var owners := RunCache(Owners(ttl, maxsize), [], [Set(k, identity, recorded), Get(k, read)]);
            var bindings := RunCache(Bindings(ttl, maxsize), [], [Set(b, sessionId, bound)]);
            && AfterGet(Bindings(ttl, maxsize), bindings, b, now).1 == Some(sessionId)
            && AfterGet(Owners(ttl, maxsize), owners, k, now).1 == None
  {
    var k, b, o := SessionKey(sessionId), BindingKey(identity, contextId), Owners(ttl, maxsize);
    var set0, get1 := Set(k, identity, recorded), Get(k, read);
    var e, f := Entry(k, identity, recorded + ttl as real), Entry(k, identity, read + ttl as real);
    assert Put([], e) == [e] && Perform(o, [], set0).0 == [e];
    assert Find([e], k) == Some(e) && Put([e], f) == [f] + [e][1..] == [f];
    assert Perform(o, [e], get1).0 == [f];
    assert [set0, get1][1..] == [get1] && [get1][1..] == [];
    assert RunCache(o, [e], [get1]) == RunCache(o, [f], []) == [f];
    assert RunCache(o, [], [set0, get1]) == [f];
    assert Find([f], k) == Some(f);
    var g, bind := Entry(b, sessionId, bound + ttl as real), Set(b, sessionId, bound);
    assert Put([], g) == [g] && Perform(Bindings(ttl, maxsize), [], bind).0 == [g];
    assert [bind][1..] == [] && RunCache(Bindings(ttl, maxsize), [], [bind]) == [g];
    assert Find([g], b) == Some(g);
  }
}

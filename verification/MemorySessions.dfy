/** The session manager over the in-memory repository, whose owners and bindings expire: when the owner of a session
 *  that is still served is someone else. */
module MemorySessions {
  import opened Basics
  import opened TtlCache
  import opened OwnerExpiry
  import R = SessionRepository
  import M = SessionManagement

  datatype Limits = Limits(ttl: int, maxsize: int, claimTtl: real)

  datatype Memory = Memory(bindings: seq<Entry>, owners: seq<Entry>, claims: R.Claims)

  function O(c: Limits): Config { Owners(c.ttl, c.maxsize) }

  function B(c: Limits): Config { Bindings(c.ttl, c.maxsize) }

  // ---- The lock sections over the two caches ----

  /** The owner as a read at `now` finds it; the read refreshes it. */
  function OwnerAt(c: Limits, m: Memory, sessionId: string, now: real): Option<string> {
    AfterGet(O(c), m.owners, SessionKey(sessionId), now).1
  }

  function Read(c: Limits, m: Memory, sessionId: string, now: real): Memory {
    m.(owners := AfterGet(O(c), m.owners, SessionKey(sessionId), now).0)
  }

  function Own(c: Limits, m: Memory, sessionId: string, identity: string, now: real): Memory {
    m.(owners := AfterSet(O(c), m.owners, SessionKey(sessionId), identity, now))
  }

  function Bound(c: Limits, m: Memory, identity: string, contextId: string, sessionId: string, now: real): Memory {
    m.(bindings := AfterSet(B(c), m.bindings, BindingKey(identity, contextId), sessionId, now))
  }

  predicate Refused(c: Limits, m: Memory, identity: string, sessionId: string, now: real) {
    M.Foreign(OwnerAt(c, m, sessionId, now), identity) || M.Foreign(R.Holder(m.claims, sessionId, now), identity)
  }

  function AfterClaim(c: Limits, m: Memory, identity: string, sessionId: string, now: real): (Memory, M.Outcome<bool>) {
    var n := Read(c, m, sessionId, now).(claims := R.Pruned(m.claims, now));
    if Refused(c, m, identity, sessionId, now) then (n, M.Forbidden)
    else if OwnerAt(c, m, sessionId, now) == Some(identity) then (n, M.Ok(false))
    else (n.(claims := R.Claimed(m.claims, sessionId, identity, now, c.claimTtl)), M.Ok(true))
  }

  function AfterFinalize(c: Limits, m: Memory, identity: string, sessionId: string, now: real): (Memory, M.Outcome<()>) {
    var n := Read(c, m, sessionId, now).(claims := R.Pruned(m.claims, now));
    if Refused(c, m, identity, sessionId, now) then (n, M.Forbidden)
    else (Own(c, n, sessionId, identity, now).(claims := R.Cleared(n.claims, sessionId, Some(identity))), M.Ok(()))
  }

  predicate Unowned(owner: Option<string>) { owner.None? || owner.value == "" }

  function AfterCreated(c: Limits, m: Memory, identity: string, contextId: string, sessionId: string, now: real): (Memory, M.Outcome<string>) {
    var owner, n := OwnerAt(c, m, sessionId, now), Read(c, m, sessionId, now);
    if M.Foreign(owner, identity) then (n, M.Forbidden)
    else
      var b := Bound(c, n, identity, contextId, sessionId, now);
      (if Unowned(owner) then Own(c, b, sessionId, identity, now) else b, M.Ok(sessionId))
  }

  /** The manager's lock sections with the in-memory repository behind them. */
  class MemorySessionManager {
    const limits: Limits
    const repository: R.MemorySessionStateRepository

    constructor (limits: Limits)
      ensures Valid() && fresh(repository) && fresh(repository.sessions) && fresh(repository.sessionOwners)
      ensures View() == Memory([], [], map[]) && this.limits == limits
    {
      this.limits := limits;
      repository := new R.MemorySessionStateRepository(limits.ttl, limits.maxsize, limits.claimTtl);
    }

    ghost predicate Valid()
      reads repository, repository.sessions, repository.sessionOwners
    {
      && repository.Valid() && repository.ttl == limits.claimTtl && repository.sessions != repository.sessionOwners
      && repository.sessions.Settings() == B(limits) && repository.sessionOwners.Settings() == O(limits)
      && Distinct(repository.sessions.store) && Distinct(repository.sessionOwners.store)
    }

    ghost function View(): Memory
      requires Valid()
      reads repository, repository.sessions, repository.sessionOwners
    {
      Memory(repository.sessions.store, repository.sessionOwners.store, repository.Claims())
    }

    method ClaimPreferredSession(identity: string, sessionId: string, now: real) returns (r: M.Outcome<bool>)
      requires Valid()
      modifies repository, repository.sessionOwners
      ensures Valid() && (View(), r) == AfterClaim(limits, old(View()), identity, sessionId, now)
    {
      StaysDistinct(O(limits), repository.sessionOwners.store, SessionKey(sessionId), identity, now);
      var owner := repository.GetOwner(sessionId, now);
      var pendingOwner := repository.GetPendingClaim(sessionId, now);
      if owner.Some? && owner.value != "" && owner.value != identity {
        return M.Forbidden;
      }
      if pendingOwner.Some? && pendingOwner.value != "" && pendingOwner.value != identity {
        return M.Forbidden;
      }
      if owner == Some(identity) {
        return M.Ok(false);
      }
      repository.SetPendingClaim(sessionId, identity, now);
      M.PruningTwice(old(View()).claims, now);
      r := M.Ok(true);
    }

    method FinalizeSessionClaim(identity: string, sessionId: string, now: real) returns (r: M.Outcome<()>)
      requires Valid()
      modifies repository, repository.sessionOwners
      ensures Valid() && (View(), r) == AfterFinalize(limits, old(View()), identity, sessionId, now)
    {
      StaysDistinct(O(limits), repository.sessionOwners.store, SessionKey(sessionId), identity, now);
      var owner := repository.GetOwner(sessionId, now);
      var pendingOwner := repository.GetPendingClaim(sessionId, now);
      if owner.Some? && owner.value != "" && owner.value != identity {
        return M.Forbidden;
      }
      if pendingOwner.Some? && pendingOwner.value != "" && pendingOwner.value != identity {
        return M.Forbidden;
      }
      StaysDistinct(O(limits), repository.sessionOwners.store, SessionKey(sessionId), identity, now);
      repository.SetOwner(sessionId, identity, now);
      repository.ClearPendingClaim(sessionId, Some(identity));
      r := M.Ok(());
    }

    method FinishCreate(identity: string, contextId: string, sessionId: string, now: real) returns (r: M.Outcome<string>)
      requires Valid()
      modifies repository.sessions, repository.sessionOwners
      ensures Valid() && (View(), r) == AfterCreated(limits, old(View()), identity, contextId, sessionId, now)
    {
      StaysDistinct(O(limits), repository.sessionOwners.store, SessionKey(sessionId), identity, now);
      var owner := repository.GetOwner(sessionId, now);
      if owner.Some? && owner.value != "" && owner.value != identity {
        return M.Forbidden;
      }
      StaysDistinct(B(limits), repository.sessions.store, BindingKey(identity, contextId), sessionId, now);
      repository.SetSession(identity, contextId, sessionId, now);
      if owner.None? || owner.value == "" {
        StaysDistinct(O(limits), repository.sessionOwners.store, SessionKey(sessionId), identity, now);
        repository.SetOwner(sessionId, identity, now);
      }
      r := M.Ok(sessionId);
    }

    method BindSession(identity: string, contextId: string, sessionId: string, now: real)
      requires Valid()
      modifies repository.sessions
      ensures Valid() && View() == Bound(limits, old(View()), identity, contextId, sessionId, now)
    {
      StaysDistinct(B(limits), repository.sessions.store, BindingKey(identity, contextId), sessionId, now);
      repository.SetSession(identity, contextId, sessionId, now);
    }
  }

  lemma StaysDistinct(c: Config, s: seq<Entry>, k: Key, value: string, now: real)
    requires Distinct(s)
    ensures Distinct(AfterGet(c, s, k, now).0) && Distinct(AfterSet(c, s, k, value, now))
  {
    GetEntries(c, s, k, now);
    SetEntries(c, s, k, value, now);
  }

  /** A get drops an entry or refreshes its deadline; it never changes a value. */
  lemma GetEntries(c: Config, s: seq<Entry>, k: Key, now: real)
    requires Distinct(s)
    ensures Distinct(AfterGet(c, s, k, now).0)
    ensures forall x :: x in AfterGet(c, s, k, now).0 ==> x in s || RefreshOf(x, s, k)
    ensures AfterGet(c, s, k, now).1.Some? ==>
              Find(s, k).Some? && Find(s, k).value in s && Find(s, k).value.key == k && AfterGet(c, s, k, now).1.value == Find(s, k).value.value
  {
    FindSpec(s, k);
    WithoutSpec(s, k);
    var e := Entry(k, if Find(s, k).Some? then Find(s, k).value.value else "", now + c.ttl as real);
    PutMembers(s, e);
    PutDistinct(s, e);
    GetCases(c, s, k, now, e);
  }

  predicate RefreshOf(x: Entry, s: seq<Entry>, k: Key) {
    x.key == k && Find(s, k).Some? && Find(s, k).value in s && x.value == Find(s, k).value.value
  }

  lemma GetCases(c: Config, s: seq<Entry>, k: Key, now: real, e: Entry)
    requires Find(s, k).Some? ==> e == Entry(k, Find(s, k).value.value, now + c.ttl as real)
    ensures AfterGet(c, s, k, now).0 in [s, Without(s, k)] || (Find(s, k).Some? && AfterGet(c, s, k, now).0 == Put(s, e))
  {
  }

  lemma SetEntries(c: Config, s: seq<Entry>, k: Key, value: string, now: real)
    requires Distinct(s)
    ensures var t := AfterSet(c, s, k, value, now);
            Distinct(t) && forall x :: x in t ==> (x in s && x.key != k) || (x.key == k && x.value == value) || !Enabled(c)
    ensures !Enabled(c) ==> AfterSet(c, s, k, value, now) == s
  {
    if Enabled(c) {
      var e := Entry(k, value, now + c.ttl as real);
      PutMembers(s, e);
      PutDistinct(s, e);
      EvictionSpec(Put(s, e), c.maxsize, now);
    }
  }
}

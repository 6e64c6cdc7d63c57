/** The session-state repositories: bindings, owners and pending claims, in the database and in memory. */
module SessionRepository {
  import opened Basics
  import T = TtlCache

  datatype Claim = Claim(identity: string, expiresAt: real)

  /** Pending claims by session; a claim counts only before its deadline. */
  type Claims = map<string, Claim>

  function Pruned(m: Claims, now: real): Claims {
    map s | s in m && m[s].expiresAt > now :: m[s]
  }

  function Holder(m: Claims, sessionId: string, now: real): Option<string> {
    if sessionId in m && m[sessionId].expiresAt > now then Some(m[sessionId].identity) else None
  }

  function Claimed(m: Claims, sessionId: string, identity: string, now: real, ttl: real): Claims {
    if ttl <= 0.0 then Pruned(m, now) - {sessionId}
    else Pruned(m, now)[sessionId := Claim(identity, now + ttl)]
  }

  function Cleared(m: Claims, sessionId: string, identity: Option<string>): Claims {
    if identity.None? || (sessionId in m && m[sessionId].identity == identity.value) then m - {sessionId} else m
  }

  /** A row of the claims table; rows written by older versions lack the deadline, or both timestamps. */
  datatype ClaimRow = ClaimRow(identity: string, updatedAt: Option<real>, expiresAt: Option<real>)

  function Deadline(row: ClaimRow, ttl: real): Option<real> {
    if row.expiresAt.Some? then row.expiresAt
    else if row.updatedAt.Some? then Some(row.updatedAt.value + if ttl > 0.0 then ttl else 0.0)
    else None
  }

  /** The rows the pruning DELETE selects. */
  predicate PrunedRow(row: ClaimRow, now: real, ttl: real) {
    || ttl <= 0.0
    || (row.expiresAt.Some? && row.expiresAt.value <= now)
    || (row.expiresAt.None? && row.updatedAt.Some? && row.updatedAt.value <= now - ttl)
    || (row.expiresAt.None? && row.updatedAt.None?)
  }

  class DatabaseSessionStateRepository {
    const ttl: real
    var bindings: map<(string, string), string>
    var owners: map<string, string>
    var claimRows: map<string, ClaimRow>

    constructor (ttl: real, claimRows: map<string, ClaimRow>)
      ensures bindings == map[] && owners == map[] && this.ttl == ttl && this.claimRows == claimRows
    {
      this.ttl, this.claimRows := ttl, claimRows;
      bindings, owners := map[], map[];
    }

    /** With claims switched off no row counts; otherwise a row counts until its own or its inferred deadline. */
    function Claims(): Claims
      reads this`claimRows
    {
      if ttl <= 0.0 then map[]
      else map s | s in claimRows && Deadline(claimRows[s], ttl).Some?
             :: Claim(claimRows[s].identity, Deadline(claimRows[s], ttl).value)
    }

    method GetSession(identity: string, contextId: string) returns (sessionId: Option<string>)
      ensures sessionId == if (identity, contextId) in bindings then Some(bindings[(identity, contextId)]) else None
    {
      sessionId := if (identity, contextId) in bindings then Some(bindings[(identity, contextId)]) else None;
    }

    method SetSession(identity: string, contextId: string, sessionId: string)
      modifies this`bindings
      ensures bindings == old(bindings)[(identity, contextId) := sessionId]
    {
      bindings := bindings[(identity, contextId) := sessionId];
    }

    method PopSession(identity: string, contextId: string)
      modifies this`bindings
      ensures bindings == old(bindings) - {(identity, contextId)}
    {
      bindings := bindings - {(identity, contextId)};
    }

    method GetOwner(sessionId: string) returns (owner: Option<string>)
      ensures owner == if sessionId in owners then Some(owners[sessionId]) else None
    {
      owner := if sessionId in owners then Some(owners[sessionId]) else None;
    }

    method SetOwner(sessionId: string, identity: string)
      modifies this`owners
      ensures owners == old(owners)[sessionId := identity]
    {
      owners := owners[sessionId := identity];
    }

    method PruneExpired(now: real)
      modifies this`claimRows
      ensures Claims() == Pruned(old(Claims()), now)
      ensures ttl <= 0.0 ==> claimRows == map[]
    {
      claimRows := map s | s in claimRows && !PrunedRow(claimRows[s], now, ttl) :: claimRows[s];
    }

    method GetPendingClaim(sessionId: string, now: real) returns (holder: Option<string>)
      modifies this`claimRows
      ensures holder == Holder(old(Claims()), sessionId, now)
      ensures Claims() == Pruned(old(Claims()), now)
    {
      PruneExpired(now);
      assert sessionId in Pruned(old(Claims()), now) ==> sessionId in claimRows;
      if sessionId !in claimRows {
        return None;
      }
      var row := claimRows[sessionId];
      var deadline := Deadline(row, ttl);
      if deadline.None? || deadline.value <= now {
        claimRows := claimRows - {sessionId};
        return None;
      }
      holder := Some(row.identity);
    }

    method SetPendingClaim(sessionId: string, identity: string, now: real)
      modifies this`claimRows
      ensures Claims() == Claimed(old(Claims()), sessionId, identity, now, ttl)
    {
      PruneExpired(now);
      if ttl <= 0.0 {
        claimRows := claimRows - {sessionId};
        return;
      }
      claimRows := claimRows[sessionId := ClaimRow(identity, Some(now), Some(now + ttl))];
    }

    method ClearPendingClaim(sessionId: string, identity: Option<string>)
      modifies this`claimRows
      ensures Claims() == Cleared(old(Claims()), sessionId, identity)
    {
      if sessionId in claimRows && (identity.None? || claimRows[sessionId].identity == identity.value) {
        claimRows := claimRows - {sessionId};
      }
    }
  }

  class MemorySessionStateRepository {
    const ttl: real
    const sessions: T.TtlCache
    const sessionOwners: T.TtlCache
    var pendingSessionClaims: map<string, string>
    var claimExpiries: map<string, real>

    constructor (cacheTtl: int, maxsize: int, ttl: real)
      ensures Valid() && Claims() == map[] && fresh(sessions) && fresh(sessionOwners)
      ensures sessions.store == [] && sessionOwners.store == [] && this.ttl == ttl
      ensures sessions.Settings() == T.Config(cacheTtl, maxsize, false)
      ensures sessionOwners.Settings() == T.Config(cacheTtl, maxsize, true)
    {
      this.ttl := ttl;
      sessions := new T.TtlCache(cacheTtl, maxsize, false);
      sessionOwners := new T.TtlCache(cacheTtl, maxsize, true);
      pendingSessionClaims, claimExpiries := map[], map[];
    }

    /** The two dicts of pending claims always have the same keys. */
    ghost predicate Valid()
      reads this`pendingSessionClaims, this`claimExpiries
    {
      pendingSessionClaims.Keys == claimExpiries.Keys
    }

    ghost function Claims(): Claims
      reads this`pendingSessionClaims, this`claimExpiries
      requires Valid()
    {
      map s | s in pendingSessionClaims :: Claim(pendingSessionClaims[s], claimExpiries[s])
    }

    method GetSession(identity: string, contextId: string, now: real) returns (sessionId: Option<string>)
      requires T.Distinct(sessions.store)
      modifies sessions
      ensures (sessions.store, sessionId)
              == T.AfterGet(sessions.Settings(), old(sessions.store), T.BindingKey(identity, contextId), now)
    {
      sessionId := sessions.Get(T.BindingKey(identity, contextId), now);
    }

    method SetSession(identity: string, contextId: string, sessionId: string, now: real)
      modifies sessions
      ensures sessions.store == T.AfterSet(sessions.Settings(), old(sessions.store), T.BindingKey(identity, contextId), sessionId, now)
    {
      sessions.Set(T.BindingKey(identity, contextId), sessionId, now);
    }

    method GetOwner(sessionId: string, now: real) returns (owner: Option<string>)
      requires T.Distinct(sessionOwners.store)
      modifies sessionOwners
      ensures (sessionOwners.store, owner)
              == T.AfterGet(sessionOwners.Settings(), old(sessionOwners.store), T.SessionKey(sessionId), now)
    {
      owner := sessionOwners.Get(T.SessionKey(sessionId), now);
    }

    method SetOwner(sessionId: string, identity: string, now: real)
      modifies sessionOwners
      ensures sessionOwners.store
              == T.AfterSet(sessionOwners.Settings(), old(sessionOwners.store), T.SessionKey(sessionId), identity, now)
    {
      sessionOwners.Set(T.SessionKey(sessionId), identity, now);
    }

    method PrunePendingClaims(now: real)
      requires Valid()
      modifies this`pendingSessionClaims, this`claimExpiries
      ensures Valid() && Claims() == Pruned(old(Claims()), now)
    {
      ghost var was := Claims();
      var expired := set s | s in claimExpiries && claimExpiries[s] <= now;
      while expired != {}
        invariant Valid()
        invariant forall s :: s in expired ==> s in was && was[s].expiresAt <= now
        invariant Pruned(was, now).Keys <= Claims().Keys <= was.Keys
        invariant forall s :: s in Claims() ==> Claims()[s] == was[s] && (s in expired || was[s].expiresAt > now)
        decreases |expired|
      {
        var s :| s in expired;
        pendingSessionClaims := pendingSessionClaims - {s};
        claimExpiries := claimExpiries - {s};
        expired := expired - {s};
      }
    }

    method GetPendingClaim(sessionId: string, now: real) returns (holder: Option<string>)
      requires Valid()
      modifies this`pendingSessionClaims, this`claimExpiries
      ensures Valid() && holder == Holder(old(Claims()), sessionId, now)
      ensures Claims() == Pruned(old(Claims()), now)
    {
      PrunePendingClaims(now);
      assert sessionId in pendingSessionClaims <==> sessionId in Claims();
      holder := if sessionId in pendingSessionClaims then Some(pendingSessionClaims[sessionId]) else None;
    }

    method SetPendingClaim(sessionId: string, identity: string, now: real)
      requires Valid()
      modifies this`pendingSessionClaims, this`claimExpiries
      ensures Valid() && Claims() == Claimed(old(Claims()), sessionId, identity, now, ttl)
    {
      PrunePendingClaims(now);
      if ttl <= 0.0 {
        ClearPendingClaim(sessionId, None);
        return;
      }
      pendingSessionClaims := pendingSessionClaims[sessionId := identity];
      claimExpiries := claimExpiries[sessionId := now + ttl];
    }

    method ClearPendingClaim(sessionId: string, identity: Option<string>)
      requires Valid()
      modifies this`pendingSessionClaims, this`claimExpiries
      ensures Valid() && Claims() == Cleared(old(Claims()), sessionId, identity)
    {
      if identity.None? || (sessionId in pendingSessionClaims && pendingSessionClaims[sessionId] == identity.value) {
        pendingSessionClaims := pendingSessionClaims - {sessionId};
        claimExpiries := claimExpiries - {sessionId};
      }
    }
  }

  /** In memory a binding can outlive the owner of its session: with room for one owner, recording the owner of a second
      session evicts the first, whose binding is still served. */
  lemma BindingOutlivesOwner(ttl: int, identity: string, contextId: string, first: string, second: string)
    requires ttl > 1 && first != second
    ensures var bindings := T.AfterSet(T.Config(ttl, 1, false), [], T.BindingKey(identity, contextId), first, 0.0);
            var owned := T.AfterSet(T.Config(ttl, 1, true), [], T.SessionKey(first), identity, 0.0);
            var owners := T.AfterSet(T.Config(ttl, 1, true), owned, T.SessionKey(second), identity, 1.0);
            && T.AfterGet(T.Config(ttl, 1, true), owned, T.SessionKey(first), 0.0).1 == Some(identity)
            && T.AfterGet(T.Config(ttl, 1, false), bindings, T.BindingKey(identity, contextId), 1.0).1 == Some(first)
            && T.AfterGet(T.Config(ttl, 1, true), owners, T.SessionKey(first), 1.0).1 == None
  {
    var a, b := T.Entry(T.SessionKey(first), identity, ttl as real), T.Entry(T.SessionKey(second), identity, 1.0 + ttl as real);
    assert [a][1..] == [] && [a, b][1..] == [b] && [b][1..] == [];
    assert T.Put([a], b) == [a, b];
    assert ttl as real >= 2.0;
    T.NoneExpired([a, b], 1.0);
    assert T.ByExpiry([b]) == [b] && T.ByExpiry([a, b]) == [a, b];
    assert [a, b][..1] == [a];
    assert T.Without([a, b], a.key) == [b];
    assert T.WithoutAll([a, b], [a]) == [b];
    assert T.Find([b], a.key) == None;
  }
}

/** The session manager, one method per lock section, and the claim guard of the JSON-RPC handlers. */
module SessionManagement {
  import opened Basics
  import opened SessionRepository

  datatype Outcome<+T> = Ok(value: T) | Forbidden

  type BindingKey = (string, string)

  /** What the manager keeps between two lock sections. Upstream creates are numbered as they start. */
  datatype State = State(
    bindings: map<BindingKey, string>,
    owners: map<string, string>,
    claims: Claims,
    inflight: map<BindingKey, nat>,
    nextCreate: nat)

  datatype Begun = Existing(sessionId: string) | Awaiting(create: nat)

  /** Python truthiness: an absent or empty identity does not count as someone else's. */
  predicate Foreign(holder: Option<string>, identity: string) {
    holder.Some? && holder.value != "" && holder.value != identity
  }

  predicate Refused(s: State, identity: string, sessionId: string, now: real) {
    Foreign(Lookup(s.owners, sessionId), identity) || Foreign(Holder(s.claims, sessionId, now), identity)
  }

  // ---- The lock sections as functions ----

  function AfterClaim(s: State, identity: string, sessionId: string, now: real, ttl: real): (State, Outcome<bool>) {
    var t := s.(claims := Pruned(s.claims, now));
    if Refused(s, identity, sessionId, now) then (t, Forbidden)
    else if Lookup(s.owners, sessionId) == Some(identity) then (t, Ok(false))
    else (s.(claims := Claimed(s.claims, sessionId, identity, now, ttl)), Ok(true))
  }

  function AfterFinalize(s: State, identity: string, sessionId: string, now: real): (State, Outcome<()>) {
    var t := s.(claims := Pruned(s.claims, now));
    if Refused(s, identity, sessionId, now) then (t, Forbidden)
    else (t.(owners := s.owners[sessionId := identity], claims := Cleared(t.claims, sessionId, Some(identity))), Ok(()))
  }

  function AfterRelease(s: State, identity: string, sessionId: string): State {
    s.(claims := Cleared(s.claims, sessionId, Some(identity)))
  }

  function AfterBind(s: State, identity: string, contextId: string, sessionId: string): State {
    s.(bindings := s.bindings[(identity, contextId) := sessionId])
  }

  function AfterBegin(s: State, identity: string, contextId: string): (State, Begun) {
    var key := (identity, contextId);
    if key in s.bindings && s.bindings[key] != "" then (s, Existing(s.bindings[key]))
    else if key in s.inflight then (s, Awaiting(s.inflight[key]))
    else (s.(inflight := s.inflight[key := s.nextCreate], nextCreate := s.nextCreate + 1), Awaiting(s.nextCreate))
  }

  /** A create stops being in flight only if it is still the one registered for its key. */
  function Settled(s: State, key: BindingKey, create: nat): State {
    if Lookup(s.inflight, key) == Some(create) then s.(inflight := s.inflight - {key}) else s
  }

  function AfterCreated(s: State, identity: string, contextId: string, create: nat, sessionId: string): (State, Outcome<string>) {
    var owner := Lookup(s.owners, sessionId);
    var t := Settled(s, (identity, contextId), create);
    if Foreign(owner, identity) then (t, Forbidden)
    else
      var u := AfterBind(t, identity, contextId, sessionId);
      (if owner.None? || owner.value == "" then u.(owners := u.owners[sessionId := identity]) else u, Ok(sessionId))
  }

  function AfterPop(s: State, identity: string, contextId: string): (State, Option<nat>) {
    var key := (identity, contextId);
    (s.(bindings := s.bindings - {key}, inflight := s.inflight - {key}), Lookup(s.inflight, key))
  }

  // ---- The manager object ----

  class SessionManager {
    const repository: DatabaseSessionStateRepository
    var inflight: map<BindingKey, nat>
    var nextCreate: nat

    constructor (repository: DatabaseSessionStateRepository)
      ensures this.repository == repository && inflight == map[] && nextCreate == 0
    {
      this.repository, inflight, nextCreate := repository, map[], 0;
    }

    ghost function View(): State
      reads this, repository
    {
      State(repository.bindings, repository.owners, repository.Claims(), inflight, nextCreate)
    }

    method ClaimPreferredSession(identity: string, sessionId: string, now: real) returns (r: Outcome<bool>)
      modifies repository
      ensures (View(), r) == AfterClaim(old(View()), identity, sessionId, now, repository.ttl)
    {
      var owner := repository.GetOwner(sessionId);
      var pendingOwner := repository.GetPendingClaim(sessionId, now);
      if owner.Some? && owner.value != "" && owner.value != identity {
        return Forbidden;
      }
      if pendingOwner.Some? && pendingOwner.value != "" && pendingOwner.value != identity {
        return Forbidden;
      }
      if owner == Some(identity) {
        return Ok(false);
      }
      repository.SetPendingClaim(sessionId, identity, now);
      PruningTwice(old(repository.Claims()), now);
      r := Ok(true);
    }

    method FinalizeSessionClaim(identity: string, sessionId: string, now: real) returns (r: Outcome<()>)
      modifies repository
      ensures (View(), r) == AfterFinalize(old(View()), identity, sessionId, now)
    {
      var owner := repository.GetOwner(sessionId);
      var pendingOwner := repository.GetPendingClaim(sessionId, now);
      if owner.Some? && owner.value != "" && owner.value != identity {
        return Forbidden;
      }
      if pendingOwner.Some? && pendingOwner.value != "" && pendingOwner.value != identity {
        return Forbidden;
      }
      repository.SetOwner(sessionId, identity);
      repository.ClearPendingClaim(sessionId, Some(identity));
      r := Ok(());
    }

    method ReleasePreferredSessionClaim(identity: string, sessionId: string)
      modifies repository
      ensures View() == AfterRelease(old(View()), identity, sessionId)
    {
      repository.ClearPendingClaim(sessionId, Some(identity));
    }

    method BindSession(identity: string, contextId: string, sessionId: string)
      modifies repository
      ensures View() == AfterBind(old(View()), identity, contextId, sessionId)
    {
      repository.SetSession(identity, contextId, sessionId);
    }

    method BeginCreate(identity: string, contextId: string) returns (r: Begun)
      modifies this
      ensures (View(), r) == AfterBegin(old(View()), identity, contextId)
    {
      var existing := repository.GetSession(identity, contextId);
      if existing.Some? && existing.value != "" {
        return Existing(existing.value);
      }
      var key := (identity, contextId);
      if key !in inflight {
        inflight := inflight[key := nextCreate];
        nextCreate := nextCreate + 1;
      }
      r := Awaiting(inflight[key]);
    }

    method Settle(key: BindingKey, create: nat)
      modifies this`inflight
      ensures View() == Settled(old(View()), key, create)
    {
      if key in inflight && inflight[key] == create {
        inflight := inflight - {key};
      }
    }

    method FinishCreate(identity: string, contextId: string, create: nat, sessionId: string) returns (r: Outcome<string>)
      modifies this`inflight, repository
      ensures (View(), r) == AfterCreated(old(View()), identity, contextId, create, sessionId)
    {
      var owner := repository.GetOwner(sessionId);
      if owner.Some? && owner.value != "" && owner.value != identity {
        Settle((identity, contextId), create);
        return Forbidden;
      }
      repository.SetSession(identity, contextId, sessionId);
      if owner.None? || owner.value == "" {
        repository.SetOwner(sessionId, identity);
      }
      Settle((identity, contextId), create);
      r := Ok(sessionId);
    }

    method PopCachedSession(identity: string, contextId: string) returns (create: Option<nat>)
      modifies this`inflight, repository
      ensures (View(), create) == AfterPop(old(View()), identity, contextId)
    {
      repository.PopSession(identity, contextId);
      var key := (identity, contextId);
      create := if key in inflight then Some(inflight[key]) else None;
      inflight := inflight - {key};
    }
  }

  lemma PruningTwice(m: Claims, now: real)
    ensures Pruned(Pruned(m, now), now) == Pruned(m, now)
  {
  }

  // ---- The claim guard ----

  datatype Guard = Guard(identity: Option<string>, sessionId: Option<string>, pending: bool, finalized: bool)
  {
    /** A guard without an identity or a session claims nothing. */
    predicate Engaged() {
      identity.Some? && identity.value != "" && sessionId.Some? && sessionId.value != ""
    }

    /** The guard has opened a claim it must still finalise or release. */
    predicate Owes() { pending && !finalized && Engaged() }
  }

  function AfterEnter(g: Guard, s: State, now: real, ttl: real): (Guard, State, Outcome<()>) {
    if !g.Engaged() then (g, s, Ok(()))
    else
      var (t, claimed) := AfterClaim(s, g.identity.value, g.sessionId.value, now, ttl);
      (g.(pending := if claimed.Ok? then claimed.value else g.pending), t, if claimed.Ok? then Ok(()) else Forbidden)
  }

  function AfterGuardFinalize(g: Guard, s: State, now: real): (Guard, State, Outcome<()>) {
    if !g.Owes() then (g, s, Ok(()))
    else
      var (t, r) := AfterFinalize(s, g.identity.value, g.sessionId.value, now);
      (g.(finalized := r.Ok?), t, r)
  }

  function AfterExit(g: Guard, s: State): State {
    if g.Owes() then AfterRelease(s, g.identity.value, g.sessionId.value) else s
  }

  class SessionClaimGuard {
    const manager: SessionManager
    const identity: Option<string>
    const sessionId: Option<string>
    var pending: bool
    var finalized: bool

    constructor (manager: SessionManager, identity: Option<string>, sessionId: Option<string>)
      ensures this.manager == manager && this.identity == identity && this.sessionId == sessionId && !pending && !finalized
    {
      this.manager, this.identity, this.sessionId, pending, finalized := manager, identity, sessionId, false, false;
    }

    function View(): Guard
      reads this`pending, this`finalized
    {
      Guard(identity, sessionId, pending, finalized)
    }

    method Enter(now: real) returns (r: Outcome<()>)
      modifies this`pending, manager.repository
      ensures (View(), manager.View(), r) == AfterEnter(old(View()), old(manager.View()), now, manager.repository.ttl)
    {
      r := Ok(());
      if identity.Some? && identity.value != "" && sessionId.Some? && sessionId.value != "" {
        var claimed := manager.ClaimPreferredSession(identity.value, sessionId.value, now);
        match claimed
        case Ok(value) => pending := value;
        case Forbidden => r := Forbidden;
      }
    }

    method Finalize(now: real) returns (r: Outcome<()>)
      modifies this`finalized, manager.repository
      ensures (View(), manager.View(), r) == AfterGuardFinalize(old(View()), old(manager.View()), now)
    {
      r := Ok(());
      if pending && !finalized && identity.Some? && identity.value != "" && sessionId.Some? && sessionId.value != "" {
        r := manager.FinalizeSessionClaim(identity.value, sessionId.value, now);
        finalized := r.Ok?;
      }
    }

    method Exit()
      modifies manager.repository
      ensures manager.View() == AfterExit(View(), old(manager.View()))
    {
      if pending && !finalized && identity.Some? && identity.value != "" && sessionId.Some? && sessionId.value != "" {
        manager.ReleasePreferredSessionClaim(identity.value, sessionId.value);
      }
    }
  }

  // ---- The life of a guard ----

  /** Between entering and leaving, the guard's user may finalise, and other requests may change anything. */
  datatype Turn = TryFinalize(now: real) | Others(after: State)

  function Turns(g: Guard, s: State, turns: seq<Turn>): (Guard, State)
    decreases |turns|
  {
    if turns == [] then (g, s)
    else
      match turns[0]
      case TryFinalize(now) => var (h, t, _) := AfterGuardFinalize(g, s, now); Turns(h, t, turns[1..])
      case Others(t) => Turns(g, t, turns[1..])
  }

  /** How many of the finalise calls reach the manager and succeed. */
  function Finalisations(g: Guard, s: State, turns: seq<Turn>): nat
    decreases |turns|
  {
    if turns == [] then 0
    else
      match turns[0]
      case TryFinalize(now) =>
        var (h, t, r) := AfterGuardFinalize(g, s, now);
        (if g.Owes() && r.Ok? then 1 else 0) + Finalisations(h, t, turns[1..])
      case Others(t) => Finalisations(g, t, turns[1..])
  }

  lemma {:induction false} TurnsKeepGuard(g: Guard, s: State, turns: seq<Turn>)
    ensures var (h, _) := Turns(g, s, turns);
            h == g.(finalized := g.finalized || Finalisations(g, s, turns) > 0)
    ensures Finalisations(g, s, turns) <= if g.Owes() then 1 else 0
    decreases |turns|
  {
    if turns != [] {
      match turns[0]
      case TryFinalize(now) =>
        var (h, t, _) := AfterGuardFinalize(g, s, now);
        TurnsKeepGuard(h, t, turns[1..]);
      case Others(t) => TurnsKeepGuard(g, t, turns[1..]);
    }
  }

  /** Whatever happens in between, a guard finalises at most once and only a claim it opened; and leaving it releases
      that claim exactly if it opened one and did not finalise it, and otherwise changes nothing. */
  lemma GuardReleasesWhatItOpened(identity: Option<string>, sessionId: Option<string>, s: State, now: real, ttl: real, turns: seq<Turn>)
    ensures var g := Guard(identity, sessionId, false, false);
            var (entered, s1, r) := AfterEnter(g, s, now, ttl);
            var (left, s2) := Turns(entered, s1, turns);
            var claimed := g.Engaged() && AfterClaim(s, identity.value, sessionId.value, now, ttl).1 == Ok(true);
            var finals := Finalisations(entered, s1, turns);
            && finals <= (if claimed then 1 else 0)
            && AfterExit(left, s2) == if claimed && finals == 0 then AfterRelease(s2, identity.value, sessionId.value) else s2
  {
    var (entered, s1, r) := AfterEnter(Guard(identity, sessionId, false, false), s, now, ttl);
    TurnsKeepGuard(entered, s1, turns);
  }
}

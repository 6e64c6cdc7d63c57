/** Claims over the in-memory repository: a granted claim excludes everyone else, in every run of the manager's sections. */
module MemoryLeases {
  import opened Basics
  import opened TtlCache
  import opened MemorySessions
  import opened MemoryTakeover
  import R = SessionRepository
  import M = SessionManagement

  /** The session's pending claim is this identity's, until the deadline. */
  predicate Leased(w: World, identity: string, sessionId: string, deadline: real) {
    && sessionId in w.memory.claims && w.memory.claims[sessionId].identity == identity
    && w.memory.claims[sessionId].expiresAt == deadline && w.now < deadline
  }

  /** Who is refused: the owner is asked for at that instant, so one whose entry is gone refuses nobody. */
  lemma AnswersIff(c: Limits, w: World, identity: string, sessionId: string, at: real)
    ensures var claims, owner := w.memory.claims, OwnerAt(c, w.memory, sessionId, at);
            var closed := || (owner.Some? && owner.value != "" && owner.value != identity)
                          || (sessionId in claims && at < claims[sessionId].expiresAt
                              && claims[sessionId].identity != "" && claims[sessionId].identity != identity);
            var claimed := AfterClaim(c, w.memory, identity, sessionId, at).1;
            && (claimed == M.Forbidden <==> closed)
            && (claimed == M.Ok(false) <==> !closed && owner == Some(identity))
            && (AfterFinalize(c, w.memory, identity, sessionId, at).1 == M.Forbidden <==> closed)
  {
  }

  /** The events by which an identity claims a session. */
  predicate Claims(w: World, e: Event, identity: string, sessionId: string) {
    match e
    case ClaimSession(i, s, _) => i == identity && s == sessionId
    case Prefer(r, i, _, s, _) => r !in w.active && i == identity && s == sessionId
    case _ => false
  }

  /** The requests of the claim's own holder that renew, finalise or release it. */
  predicate TouchesOwnClaim(e: Event, identity: string, sessionId: string) {
    (e.ClaimSession? || e.Prefer? || e.FinalizeClaim? || e.FinalizeBinding? || e.ReleaseClaim?)
    && e.identity == identity && e.sessionId == sessionId
  }

  lemma GrantedClaimIsLease(c: Limits, w: World, e: Event, identity: string, sessionId: string)
    requires c.claimTtl > 0.0 && Claims(w, e, identity, sessionId) && w.now <= e.at
    requires AfterClaim(c, w.memory, identity, sessionId, e.at).1 == M.Ok(true)
    ensures Leased(Step(c, w, e), identity, sessionId, e.at + c.claimTtl)
  {
  }

  /** A finalise makes the caller the live owner and ends its claim; no claim but its own ends before its time. */
  lemma FinaliseOwnsAndEndsClaim(c: Limits, w: World, identity: string, sessionId: string, at: real, x: string)
    requires c.ttl > 0 && c.maxsize > 0 && Sound(c, w) && w.now <= at && AfterFinalize(c, w.memory, identity, sessionId, at).1.Ok?
    ensures var v := Step(c, w, FinalizeClaim(identity, sessionId, at));
            && OwnerAt(c, v.memory, sessionId, at) == Some(identity) && Lookup(v.record, sessionId) == Some(identity)
            && !(sessionId in v.memory.claims && v.memory.claims[sessionId].identity == identity)
            && (x in w.memory.claims && at < w.memory.claims[x].expiresAt
                && (x != sessionId || w.memory.claims[x].identity != identity)
                ==> x in v.memory.claims && v.memory.claims[x] == w.memory.claims[x])
  {
    var k, ops := SessionKey(sessionId), w.ownerOps + [Get(SessionKey(sessionId), at)];
    LogGrows(O(c), w.memory.owners, w.ownerOps, Get(k, at), w.now);
    RunAgrees(O(c), [], map[], ops, 0.0);
    JustSetIsFound(O(c), RunCache(O(c), [], ops), RunReference(O(c), map[], ops), k, identity, at, at);
  }

  /** A release ends the caller's own claim, before or after its deadline, and touches no one else's. */
  lemma ReleaseIsOwn(c: Limits, w: World, identity: string, sessionId: string, at: real, x: string)
    requires w.now <= at
    ensures var claims := Step(c, w, ReleaseClaim(identity, sessionId, at)).memory.claims;
            && !(sessionId in claims && claims[sessionId].identity == identity)
            && (x in w.memory.claims && (x != sessionId || w.memory.claims[x].identity != identity)
                ==> x in claims && claims[x] == w.memory.claims[x])
  {
  }

  /** A popped binding is not served. */
  lemma PoppedIsNotServed(c: Limits, w: World, identity: string, contextId: string, at: real)
    requires w.now <= at && Distinct(w.memory.bindings)
    ensures var m := Step(c, w, PopSession(identity, contextId, at)).memory;
            AfterGet(B(c), m.bindings, BindingKey(identity, contextId), at).1 == None
  {
    WithoutSpec(w.memory.bindings, BindingKey(identity, contextId));
    var m := Step(c, w, PopSession(identity, contextId, at)).memory;
    FindSpec(m.bindings, BindingKey(identity, contextId));
  }

  lemma LeaseSurvives(c: Limits, w: World, e: Event, identity: string, sessionId: string, deadline: real)
    requires Leased(w, identity, sessionId, deadline) && identity != "" && !TouchesOwnClaim(e, identity, sessionId)
    requires Step(c, w, e).now < deadline
    ensures Leased(Step(c, w, e), identity, sessionId, deadline)
  {
    if e.at >= w.now {
      match e
      case Prefer(_, i, _, s, at) => OthersClaimSpares(c, w, i, s, at, identity, sessionId, deadline);
      case ClaimSession(i, s, at) => OthersClaimSpares(c, w, i, s, at, identity, sessionId, deadline);
      case FinalizeClaim(i, s, at) => OthersFinalizeSpares(c, w, i, s, at, identity, sessionId, deadline);
      case FinalizeBinding(_, i, _, s, at) => OthersFinalizeSpares(c, w, i, s, at, identity, sessionId, deadline);
      case _ =>
    }
  }

  lemma OthersClaimSpares(c: Limits, w: World, i: string, s: string, at: real, identity: string, sessionId: string, deadline: real)
    requires Leased(w, identity, sessionId, deadline) && identity != "" && (i, s) != (identity, sessionId) && w.now <= at < deadline
    ensures var claims := AfterClaim(c, w.memory, i, s, at).0.claims;
            sessionId in claims && claims[sessionId] == w.memory.claims[sessionId]
  {
  }

  lemma OthersFinalizeSpares(c: Limits, w: World, i: string, s: string, at: real, identity: string, sessionId: string, deadline: real)
    requires Leased(w, identity, sessionId, deadline) && identity != "" && (i, s) != (identity, sessionId) && w.now <= at < deadline
    ensures var claims := AfterFinalize(c, w.memory, i, s, at).0.claims;
            sessionId in claims && claims[sessionId] == w.memory.claims[sessionId]
  {
  }

  lemma {:induction false} ClockAdvances(c: Limits, w: World, events: seq<Event>)
    ensures Run(c, w, events).now >= w.now
    decreases |events|
  {
    if events != [] {
      ClockAdvances(c, Step(c, w, events[0]), events[1..]);
    }
  }

  lemma {:induction false} LeaseHolds(c: Limits, w: World, events: seq<Event>, identity: string, sessionId: string, deadline: real)
    requires Leased(w, identity, sessionId, deadline) && identity != ""
    requires forall e :: e in events ==> !TouchesOwnClaim(e, identity, sessionId)
    requires Run(c, w, events).now < deadline
    ensures Leased(Run(c, w, events), identity, sessionId, deadline)
    decreases |events|
  {
    if events != [] {
      assert events[0] in events;
      ClockAdvances(c, Step(c, w, events[0]), events[1..]);
      LeaseSurvives(c, w, events[0], identity, sessionId, deadline);
      LeaseHolds(c, Step(c, w, events[0]), events[1..], identity, sessionId, deadline);
    }
  }

  /** Once a claim is granted, and until its lifetime is over or its holder finalises, renews or releases it, every other
      identity's claim and finalise of the session is refused, whatever becomes of the cached owners meanwhile. */
  lemma GrantedClaimExcludes(c: Limits, w: World, e: Event, events: seq<Event>, identity: string, sessionId: string, other: string,
                             at: real)
    requires c.claimTtl > 0.0 && identity != "" && other != identity && Claims(w, e, identity, sessionId) && w.now <= e.at
    requires AfterClaim(c, w.memory, identity, sessionId, e.at).1 == M.Ok(true)
    requires forall x :: x in events ==> !TouchesOwnClaim(x, identity, sessionId)
    requires Run(c, Step(c, w, e), events).now <= at < e.at + c.claimTtl
    ensures var v := Run(c, Step(c, w, e), events);
            && AfterClaim(c, v.memory, other, sessionId, at).1 == M.Forbidden
            && AfterFinalize(c, v.memory, other, sessionId, at).1 == M.Forbidden
  {
    GrantedClaimIsLease(c, w, e, identity, sessionId);
    LeaseHolds(c, Step(c, w, e), events, identity, sessionId, e.at + c.claimTtl);
    AnswersIff(c, Run(c, Step(c, w, e), events), other, sessionId, at);
  }
}

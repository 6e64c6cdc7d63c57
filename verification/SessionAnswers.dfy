/** What callers of the session manager are answered, and what a later caller is answered because of it. */
module SessionAnswers {
  import opened Basics
  import opened SessionRepository
  import opened SessionManagement
  import opened SessionProtocol

  // ---- Who is refused ----

  /** A session is closed to an identity while it has another, named owner or another's named claim is pending. */
  predicate ClosedTo(w: World, identity: string, sessionId: string) {
    var s := w.st;
    || (sessionId in s.owners && s.owners[sessionId] != "" && s.owners[sessionId] != identity)
    || (sessionId in s.claims && w.now < s.claims[sessionId].expiresAt
        && s.claims[sessionId].identity != "" && s.claims[sessionId].identity != identity)
  }

  /** Claims and finalises are refused exactly for closed sessions; the owner needs no claim, everyone else gets one. */
  lemma AnswersIff(w: World, identity: string, sessionId: string)
    ensures var claimed := AfterClaim(w.st, identity, sessionId, w.now, w.ttl).1;
            && (claimed == Forbidden <==> ClosedTo(w, identity, sessionId))
            && (claimed == Ok(false) <==> !ClosedTo(w, identity, sessionId) && Owns(w.st, identity, sessionId))
    ensures AfterFinalize(w.st, identity, sessionId, w.now).1 == Forbidden <==> ClosedTo(w, identity, sessionId)
  {
  }

  // ---- A granted claim ----

  /** The events by which an identity claims a session: on its own, or on the way to binding it. */
  predicate Claims(w: World, e: Event, identity: string, sessionId: string) {
    match e
    case ClaimSession(i, s) => i == identity && s == sessionId
    case Prefer(r, i, _, s) => r !in w.active && i == identity && s == sessionId
    case _ => false
  }

  lemma GrantedClaimIsLease(w: World, e: Event, identity: string, sessionId: string)
    requires w.ttl > 0.0 && Claims(w, e, identity, sessionId)
    requires AfterClaim(w.st, identity, sessionId, w.now, w.ttl).1 == Ok(true)
    ensures Step(w, e).now == w.now && Step(w, e).ttl == w.ttl
    ensures Leased(Step(w, e), identity, sessionId, w.now + w.ttl)
  {
  }

  /** With claims switched off a claim is granted but nothing is recorded. */
  lemma SwitchedOffRecordsNothing(w: World, e: Event, identity: string, sessionId: string)
    requires w.ttl <= 0.0 && Claims(w, e, identity, sessionId)
    requires AfterClaim(w.st, identity, sessionId, w.now, w.ttl).1 == Ok(true)
    ensures sessionId !in Step(w, e).st.claims
  {
  }

  /** Once a claim is granted, and until its lifetime is over or its holder finalises, renews or releases it, whatever
      else happens, every other identity's claim and finalise of the session is refused. */
  lemma GrantedClaimExcludes(w: World, e: Event, events: seq<Event>, identity: string, sessionId: string, other: string)
    requires w.ttl > 0.0 && identity != "" && other != identity && Claims(w, e, identity, sessionId)
    requires AfterClaim(w.st, identity, sessionId, w.now, w.ttl).1 == Ok(true)
    requires forall x :: x in events ==> !TouchesOwnClaim(x, identity, sessionId)
    requires Run(Step(w, e), events).now < w.now + w.ttl
    ensures var v := Run(Step(w, e), events);
            && AfterClaim(v.st, other, sessionId, v.now, v.ttl).1 == Forbidden
            && AfterFinalize(v.st, other, sessionId, v.now).1 == Forbidden
  {
    GrantedClaimIsLease(w, e, identity, sessionId);
    LeaseHolds(Step(w, e), events, identity, sessionId, w.now + w.ttl);
    LeaseExcludes(Run(Step(w, e), events), identity, other, sessionId, w.now + w.ttl);
  }

  /** A finalise makes the caller the owner and ends its claim; no other session's owner changes, and no claim but its
      own ends before its time. */
  lemma FinaliseOwnsAndEndsClaim(w: World, identity: string, sessionId: string, x: string)
    requires AfterFinalize(w.st, identity, sessionId, w.now).1.Ok?
    ensures var v := Step(w, FinalizeClaim(identity, sessionId));
            && Owns(v.st, identity, sessionId) && (identity, sessionId) in v.finalized
            && !(sessionId in v.st.claims && v.st.claims[sessionId].identity == identity)
            && (x != sessionId ==> Lookup(v.st.owners, x) == Lookup(w.st.owners, x))
            && (x in w.st.claims && w.now < w.st.claims[x].expiresAt && (x != sessionId || w.st.claims[x].identity != identity)
                ==> x in v.st.claims && v.st.claims[x] == w.st.claims[x])
            && (x in v.st.claims ==> w.now < v.st.claims[x].expiresAt)
            && v.st.bindings == w.st.bindings && v.st.inflight == w.st.inflight
  {
  }

  // ---- The claim guard ----

  /** A guard that has opened a claim keeps everyone else out for the claim's lifetime. */
  lemma EnteredGuardExcludes(g: Guard, s: State, now: real, ttl: real, later: real, other: string)
    requires ttl > 0.0 && now <= later < now + ttl && !g.pending && AfterEnter(g, s, now, ttl).0.pending
    requires other != g.identity.value
    ensures var t := AfterEnter(g, s, now, ttl).1;
            && AfterClaim(t, other, g.sessionId.value, later, ttl).1 == Forbidden
            && AfterFinalize(t, other, g.sessionId.value, later).1 == Forbidden
  {
  }

  // ---- A bound session ----

  /** The event pops or rewrites the binding of one key. */
  predicate TouchesBinding(w: World, e: Event, identity: string, contextId: string) {
    match e
    case PopSession(i, c) => i == identity && c == contextId
    case Bind(r) => r in w.active && w.active[r].identity == identity && w.active[r].contextId == contextId
    case Resume(r) => r in w.active && w.active[r].identity == identity && w.active[r].contextId == contextId
    case _ => false
  }

  predicate LeavesBinding(w: World, events: seq<Event>, identity: string, contextId: string)
    decreases |events|
  {
    events != [] ==>
      !TouchesBinding(w, events[0], identity, contextId) && LeavesBinding(Step(w, events[0]), events[1..], identity, contextId)
  }

  lemma BindingStays(w: World, e: Event, identity: string, contextId: string)
    requires !TouchesBinding(w, e, identity, contextId)
    ensures Lookup(Step(w, e).st.bindings, (identity, contextId)) == Lookup(w.st.bindings, (identity, contextId))
  {
    match e
    case Resume(r) =>
      if r in w.active && w.active[r].Waiting? && w.active[r].create in w.results && w.results[w.active[r].create].Created? {
        var a := w.active[r];
        CreatedEffect(w.st, a.identity, a.contextId, a.create, w.results[a.create].sessionId);
      }
    case Bind(_) =>
    case PopSession(_, _) =>
    case _ => OthersSpareBindings(w, e);
  }

  lemma {:induction false} BoundStays(w: World, events: seq<Event>, identity: string, contextId: string)
    requires LeavesBinding(w, events, identity, contextId)
    ensures Lookup(Run(w, events).st.bindings, (identity, contextId)) == Lookup(w.st.bindings, (identity, contextId))
    decreases |events|
  {
    if events != [] {
      BindingStays(w, events[0], identity, contextId);
      BoundStays(Step(w, events[0]), events[1..], identity, contextId);
    }
  }

  /** A session once bound is what every later caller of its key is served, until it is popped or bound anew. */
  lemma BoundIsServed(w: World, request: nat, events: seq<Event>)
    requires request in w.active && w.active[request].Binding? && w.active[request].sessionId != ""
    requires LeavesBinding(Step(w, Bind(request)), events, w.active[request].identity, w.active[request].contextId)
    ensures var a := w.active[request];
            AfterBegin(Run(Step(w, Bind(request)), events).st, a.identity, a.contextId).1 == Existing(a.sessionId)
  {
    BoundStays(Step(w, Bind(request)), events, w.active[request].identity, w.active[request].contextId);
  }

  /** The same for a session that was created: its waiter is given it unless another, named identity owns it, and it is
      served from then on. */
  lemma CreatedIsServed(w: World, request: nat, events: seq<Event>)
    requires request in w.active && w.active[request].Waiting? && w.active[request].create in w.results
    requires w.results[w.active[request].create].Created?
    requires LeavesBinding(Step(w, Resume(request)), events, w.active[request].identity, w.active[request].contextId)
    ensures var a, v := w.active[request], Step(w, Resume(request));
            var s := w.results[a.create].sessionId;
            if s in w.st.owners && w.st.owners[s] != "" && w.st.owners[s] != a.identity
            then v.returned == w.returned && v.st.bindings == w.st.bindings && v.st.owners == w.st.owners
            else
              && v.returned == w.returned + [Returned(a.identity, a.contextId, a.create, s)]
              && Owns(v.st, a.identity, s)
              && (s != "" ==> AfterBegin(Run(v, events).st, a.identity, a.contextId).1 == Existing(s))
  {
    var a := w.active[request];
    BoundStays(Step(w, Resume(request)), events, a.identity, a.contextId);
  }

  /** An owner that prefers its session, when no one else's claim is pending, needs no claim and is served it once it has
      bound it. */
  lemma OwnerIsServed(w: World, request: nat, identity: string, contextId: string, sessionId: string)
    requires request !in w.active && sessionId != "" && Owns(w.st, identity, sessionId) && !ClosedTo(w, identity, sessionId)
    ensures var v := Run(w, [Prefer(request, identity, contextId, sessionId), Bind(request)]);
            AfterBegin(v.st, identity, contextId).1 == Existing(sessionId)
  {
    AnswersIff(w, identity, sessionId);
    var v := Step(w, Prefer(request, identity, contextId, sessionId));
    assert v.active[request] == Binding(identity, contextId, sessionId);
    BoundIsServed(v, request, []);
    assert [Prefer(request, identity, contextId, sessionId), Bind(request)][1..] == [Bind(request)] && [Bind(request)][1..] == [];
    assert Run(v, [Bind(request)]) == Run(Step(v, Bind(request)), []);
  }

  /** So is whoever finalises a session on the way to binding it. */
  lemma FinalisedIsServed(w: World, request: nat, identity: string, contextId: string, sessionId: string)
    requires request !in w.active && sessionId != "" && !ClosedTo(w, identity, sessionId)
    ensures var v := Run(w, [FinalizeBinding(request, identity, contextId, sessionId), Bind(request)]);
            Owns(v.st, identity, sessionId) && AfterBegin(v.st, identity, contextId).1 == Existing(sessionId)
  {
    AnswersIff(w, identity, sessionId);
    var v := Step(w, FinalizeBinding(request, identity, contextId, sessionId));
    assert v.active[request] == Binding(identity, contextId, sessionId);
    BoundIsServed(v, request, []);
    assert [FinalizeBinding(request, identity, contextId, sessionId), Bind(request)][1..] == [Bind(request)] && [Bind(request)][1..] == [];
    assert Run(v, [Bind(request)]) == Run(Step(v, Bind(request)), []);
  }

  /** After a pop the next caller of the key starts a create of its own. */
  lemma PoppedStartsAnew(w: World, identity: string, contextId: string, request: nat)
    requires request !in w.active
    ensures var v := Step(w, PopSession(identity, contextId));
            && AfterBegin(v.st, identity, contextId).1 == Awaiting(v.st.nextCreate)
            && Step(v, Begin(request, identity, contextId)).active[request] == Waiting(identity, contextId, v.st.nextCreate)
  {
  }

  // ---- Rows of older versions ----

  /** A claim row without a deadline counts from its last update, one without either not at all. */
  lemma OlderRowsCount(r: DatabaseSessionStateRepository, sessionId: string, now: real)
    requires r.ttl > 0.0 && sessionId in r.claimRows && r.claimRows[sessionId].expiresAt.None?
    ensures var row := r.claimRows[sessionId];
            Holder(r.Claims(), sessionId, now)
            == if row.updatedAt.Some? && now < row.updatedAt.value + r.ttl then Some(row.identity) else None
  {
  }
}

/** Every interleaving of the session manager's lock sections: ownership, single flight and claim leases. */
module SessionProtocol {
  import opened Basics
  import opened SessionRepository
  import opened SessionManagement

  /** How an upstream create ends. A cancelled waiter cancels the create it awaits. */
  datatype CreateResult = Created(sessionId: string) | CreateFailed | CreateCancelled

  /** A request between two of its lock sections. */
  datatype Activity =
    | Waiting(identity: string, contextId: string, create: nat)
    | Binding(identity: string, contextId: string, sessionId: string)

  datatype Returned = Returned(identity: string, contextId: string, create: nat, sessionId: string)

  datatype World = World(
    st: State,
    now: real,
    ttl: real,
    active: map<nat, Activity>,
    keyOf: map<nat, BindingKey>,
    results: map<nat, CreateResult>,
    popped: set<nat>,
    returned: seq<Returned>,
    finalized: set<(string, string)>)

  datatype Event =
    | Tick(to: real)
    | Begin(request: nat, identity: string, contextId: string)
    | Settle(create: nat, result: CreateResult)
    | Resume(request: nat)
    | Prefer(request: nat, identity: string, contextId: string, sessionId: string)
    | FinalizeBinding(request: nat, identity: string, contextId: string, sessionId: string)
    | Bind(request: nat)
    | ClaimSession(identity: string, sessionId: string)
    | FinalizeClaim(identity: string, sessionId: string)
    | ReleaseClaim(identity: string, sessionId: string)
    | PopSession(identity: string, contextId: string)

  function Initial(ttl: real): World {
    World(State(map[], map[], map[], map[], 0), 0.0, ttl, map[], map[], map[], {}, [], {})
  }

  function Step(w: World, e: Event): World {
    match e
    case Tick(to) => if to >= w.now then w.(now := to) else w
    case Begin(r, i, c) => if r in w.active then w else OnBegin(w, r, i, c)
    case Settle(t, result) =>
      if t < w.st.nextCreate && t !in w.results then w.(results := w.results[t := result]) else w
    case Resume(r) =>
      if r in w.active && w.active[r].Waiting? && w.active[r].create in w.results then OnResume(w, r, w.active[r]) else w
    case Prefer(r, i, c, s) => if r in w.active then w else OnPrefer(w, r, i, c, s)
    case FinalizeBinding(r, i, c, s) => if r in w.active then w else OnFinalizeBinding(w, r, i, c, s)
    case Bind(r) => if r in w.active && w.active[r].Binding? then OnBind(w, r, w.active[r]) else w
    case ClaimSession(i, s) => w.(st := AfterClaim(w.st, i, s, w.now, w.ttl).0)
    case FinalizeClaim(i, s) => OnFinalize(w, i, s)
    case ReleaseClaim(i, s) => w.(st := AfterRelease(w.st, i, s))
    case PopSession(i, c) =>
      var (t, create) := AfterPop(w.st, i, c);
      w.(st := t, popped := w.popped + if create.Some? then {create.value} else {})
  }

  function OnBegin(w: World, r: nat, i: string, c: string): World {
    var (t, begun) := AfterBegin(w.st, i, c);
    match begun
    case Existing(_) => w
    case Awaiting(create) =>
      w.(st := t, active := w.active[r := Waiting(i, c, create)],
         keyOf := if t.nextCreate > w.st.nextCreate then w.keyOf[create := (i, c)] else w.keyOf)
  }

  function OnResume(w: World, r: nat, a: Activity): World
    requires a.Waiting? && a.create in w.results
  {
    var v := w.(active := w.active - {r});
    match w.results[a.create]
    case CreateCancelled => v
    case CreateFailed => v.(st := Settled(w.st, (a.identity, a.contextId), a.create))
    case Created(s) =>
      var (t, result) := AfterCreated(w.st, a.identity, a.contextId, a.create, s);
      v.(st := t, returned := w.returned + if result.Ok? then [Returned(a.identity, a.contextId, a.create, result.value)] else [])
  }

  function OnPrefer(w: World, r: nat, i: string, c: string, s: string): World {
    var (t, result) := AfterClaim(w.st, i, s, w.now, w.ttl);
    w.(st := t, active := if result == Ok(false) then w.active[r := Binding(i, c, s)] else w.active)
  }

  function OnFinalize(w: World, i: string, s: string): World {
    var (t, result) := AfterFinalize(w.st, i, s, w.now);
    w.(st := t, finalized := w.finalized + if result.Ok? then {(i, s)} else {})
  }

  function OnFinalizeBinding(w: World, r: nat, i: string, c: string, s: string): World {
    var v := OnFinalize(w, i, s);
    if AfterFinalize(w.st, i, s, w.now).1.Ok? then v.(active := w.active[r := Binding(i, c, s)]) else v
  }

  function OnBind(w: World, r: nat, a: Activity): World
    requires a.Binding?
  {
    w.(st := AfterBind(w.st, a.identity, a.contextId, a.sessionId), active := w.active - {r})
  }

  function Run(w: World, events: seq<Event>): World
    decreases |events|
  {
    if events == [] then w else Run(Step(w, events[0]), events[1..])
  }

  // ---- Ownership ----

  predicate Owns(s: State, identity: string, sessionId: string) {
    sessionId in s.owners && s.owners[sessionId] == identity
  }

  /** What a completed create changes: on success the binding, and an owner where there was none. */
  lemma CreatedEffect(s: State, i: string, c: string, create: nat, id: string)
    ensures var (t, result) := AfterCreated(s, i, c, create, id);
            && t.claims == s.claims && t.nextCreate == s.nextCreate
            && t.inflight == Settled(s, (i, c), create).inflight
            && (result.Ok? ==> result.value == id && t.bindings == s.bindings[(i, c) := id] && (i != "" ==> Owns(t, i, id)))
            && (result.Forbidden? ==> t.bindings == s.bindings && t.owners == s.owners)
            && (forall o, x :: o != "" && Owns(s, o, x) ==> Owns(t, o, x))
  {
  }

  lemma FinalizeEffect(s: State, i: string, id: string, now: real)
    ensures var (t, result) := AfterFinalize(s, i, id, now);
            && t == s.(owners := t.owners, claims := t.claims)
            && (result.Ok? ==> Owns(t, i, id))
            && (forall o, x :: o != "" && Owns(s, o, x) ==> Owns(t, o, x))
  {
  }

  lemma OwnerStays(w: World, e: Event, identity: string, sessionId: string)
    requires Owns(w.st, identity, sessionId) && identity != ""
    ensures Owns(Step(w, e).st, identity, sessionId)
  {
    match e
    case Resume(r) =>
      if r in w.active && w.active[r].Waiting? && w.active[r].create in w.results && w.results[w.active[r].create].Created? {
        var a := w.active[r];
        CreatedEffect(w.st, a.identity, a.contextId, a.create, w.results[a.create].sessionId);
      }
    case FinalizeBinding(_, i, _, s) => FinalizeEffect(w.st, i, s, w.now);
    case FinalizeClaim(i, s) => FinalizeEffect(w.st, i, s, w.now);
    case _ => OnlyFinalizingChangesOwners(w, e);
  }

  lemma OnlyFinalizingChangesOwners(w: World, e: Event)
    requires !e.Resume? && !e.FinalizeBinding? && !e.FinalizeClaim?
    ensures Step(w, e).st.owners == w.st.owners
  {
  }

  /** A session's owner, once set, never changes, whatever the requests do and however they interleave. */
  lemma {:induction false} OwnersAreWriteOnce(w: World, events: seq<Event>, identity: string, sessionId: string)
    requires Owns(w.st, identity, sessionId) && identity != ""
    ensures Owns(Run(w, events).st, identity, sessionId)
    decreases |events|
  {
    if events != [] {
      OwnerStays(w, events[0], identity, sessionId);
      OwnersAreWriteOnce(Step(w, events[0]), events[1..], identity, sessionId);
    }
  }

  /** The exception: the empty identity owns nothing for good, because it is taken for no owner at all. */
  lemma EmptyOwnerIsReplaced(w: World, sessionId: string, identity: string)
    requires Owns(w.st, "", sessionId) && identity != "" && !Foreign(Holder(w.st.claims, sessionId, w.now), identity)
    ensures Owns(Step(w, FinalizeClaim(identity, sessionId)).st, identity, sessionId)
  {
  }

  /** The step records a named owner for the session, under the guards of finalising or of completing a create. */
  predicate Supplants(w: World, e: Event, sessionId: string) {
    match e
    case FinalizeClaim(i, s) => s == sessionId && i != "" && !Refused(w.st, i, s, w.now)
    case FinalizeBinding(r, i, _, s) => r !in w.active && s == sessionId && i != "" && !Refused(w.st, i, s, w.now)
    case Resume(r) =>
      && r in w.active && w.active[r].Waiting? && w.active[r].create in w.results
      && w.results[w.active[r].create] == Created(sessionId) && w.active[r].identity != ""
      && !Foreign(Lookup(w.st.owners, sessionId), w.active[r].identity)
    case _ => false
  }

  /** A recorded owner is replaced by a step exactly if it is the empty identity and the step records a named one. */
  lemma OwnerReplacedIff(w: World, e: Event, identity: string, sessionId: string)
    requires Owns(w.st, identity, sessionId)
    ensures !Owns(Step(w, e).st, identity, sessionId) <==> identity == "" && Supplants(w, e, sessionId)
  {
    if identity != "" {
      OwnerStays(w, e, identity, sessionId);
    } else if e.Resume? {
      EmptyOwnerOnResume(w, e, sessionId);
    } else if !e.FinalizeClaim? && !e.FinalizeBinding? {
      OnlyFinalizingChangesOwners(w, e);
    }
  }

  lemma EmptyOwnerOnResume(w: World, e: Event, sessionId: string)
    requires Owns(w.st, "", sessionId) && e.Resume?
    ensures !Owns(Step(w, e).st, "", sessionId) <==> Supplants(w, e, sessionId)
  {
  }

  /** It happens from the start: the empty identity finalises a session, and then another identity does. */
  lemma EmptyOwnerIsReachable(ttl: real, sessionId: string, identity: string)
    requires identity != ""
    ensures Owns(Run(Initial(ttl), [FinalizeClaim("", sessionId)]).st, "", sessionId)
    ensures Owns(Run(Initial(ttl), [FinalizeClaim("", sessionId), FinalizeClaim(identity, sessionId)]).st, identity, sessionId)
  {
    var first, second := FinalizeClaim("", sessionId), FinalizeClaim(identity, sessionId);
    var w := Step(Initial(ttl), first);
    assert [first][1..] == [] && [first, second][1..] == [second] && [second][1..] == [];
    assert Run(Initial(ttl), [first]) == Run(w, []) == w;
    assert w.st.claims == map[];
    EmptyOwnerIsReplaced(w, sessionId, identity);
    assert Run(Initial(ttl), [first, second]) == Run(w, [second]) == Run(Step(w, second), []);
  }

  // ---- The invariant of all interleavings ----

  /** Every binding belongs to the session's owner, at each lock release and for the bindings still to be written. */
  ghost predicate BindingsOwned(w: World) {
    && (forall k :: k in w.st.bindings && k.0 != "" ==> Owns(w.st, k.0, w.st.bindings[k]))
    && (forall r :: r in w.active && w.active[r].Binding? && w.active[r].identity != "" ==>
          Owns(w.st, w.active[r].identity, w.active[r].sessionId))
    && (forall f :: f in w.finalized && f.0 != "" ==> Owns(w.st, f.0, f.1))
  }

  /** Creates are known by number, and one that is neither settled nor popped is the one in flight for its key. */
  ghost predicate FlightsTracked(w: World) {
    && (forall t: nat :: t in w.keyOf <==> t < w.st.nextCreate)
    && (forall k :: k in w.st.inflight ==> KnownCreate(w, k, w.st.inflight[k]))
    && (forall r :: r in w.active && w.active[r].Waiting? ==>
          KnownCreate(w, (w.active[r].identity, w.active[r].contextId), w.active[r].create))
    && (forall t :: t in w.results ==> t in w.keyOf)
    && (forall t :: t in w.keyOf && Flying(w, t) ==> Lookup(w.st.inflight, w.keyOf[t]) == Some(t))
  }

  predicate KnownCreate(w: World, key: BindingKey, create: nat) {
    create in w.keyOf && w.keyOf[create] == key
  }

  predicate Flying(w: World, create: nat) {
    create < w.st.nextCreate && create !in w.results && create !in w.popped
  }

  ghost predicate ReturnsAgree(w: World) {
    forall i :: 0 <= i < |w.returned| ==>
      var x := w.returned[i];
      x.create in w.results && w.results[x.create] == Created(x.sessionId) && (x.identity != "" ==> Owns(w.st, x.identity, x.sessionId))
  }

  lemma StepKeepsBindings(w: World, e: Event)
    requires BindingsOwned(w)
    ensures BindingsOwned(Step(w, e))
  {
    var v := Step(w, e);
    forall i, s | i != "" && Owns(w.st, i, s)
      ensures Owns(v.st, i, s)
    {
      OwnerStays(w, e, i, s);
    }
    NewBindingsOwned(w, e);
    NewActivitiesOwned(w, e);
    NewFinalizationsOwned(w, e);
  }

  /** Whatever a step binds, is about to bind, or finalises, it has made the caller the owner of. */
  lemma NewBindingsOwned(w: World, e: Event)
    requires BindingsOwned(w)
    ensures var v := Step(w, e);
            forall k :: k in v.st.bindings && k.0 != "" ==>
              (k in w.st.bindings && w.st.bindings[k] == v.st.bindings[k]) || Owns(v.st, k.0, v.st.bindings[k])
  {
    match e
    case Resume(r) =>
      if r in w.active && w.active[r].Waiting? && w.active[r].create in w.results && w.results[w.active[r].create].Created? {
        var a := w.active[r];
        CreatedEffect(w.st, a.identity, a.contextId, a.create, w.results[a.create].sessionId);
      }
    case Bind(r) =>
    case PopSession(_, _) =>
    case _ => OthersSpareBindings(w, e);
  }

  lemma OthersSpareBindings(w: World, e: Event)
    requires !e.Resume? && !e.Bind? && !e.PopSession?
    ensures Step(w, e).st.bindings == w.st.bindings
  {
    if e.FinalizeBinding? || e.FinalizeClaim? {
      FinalizeEffect(w.st, e.identity, e.sessionId, w.now);
    }
  }

  lemma NewActivitiesOwned(w: World, e: Event)
    requires BindingsOwned(w)
    ensures var v := Step(w, e);
            forall r :: r in v.active && v.active[r].Binding? && v.active[r].identity != "" ==>
              (r in w.active && w.active[r] == v.active[r]) || Owns(v.st, v.active[r].identity, v.active[r].sessionId)
  {
    match e
    case Begin(_, _, _) =>
    case Resume(_) =>
    case Prefer(_, _, _, _) =>
    case FinalizeBinding(_, _, _, _) =>
    case Bind(_) =>
    case _ => assert Step(w, e).active == w.active;
  }

  lemma NewFinalizationsOwned(w: World, e: Event)
    requires BindingsOwned(w)
    ensures var v := Step(w, e);
            forall f :: f in v.finalized && f.0 != "" ==> f in w.finalized || Owns(v.st, f.0, f.1)
  {
    match e
    case FinalizeBinding(_, _, _, _) =>
    case FinalizeClaim(_, _) =>
    case _ => assert Step(w, e).finalized == w.finalized;
  }

  lemma StepKeepsFlights(w: World, e: Event)
    requires FlightsTracked(w)
    ensures FlightsTracked(Step(w, e))
  {
    match e
    case Begin(r, i, c) =>
      if r !in w.active {
        BeginKeepsFlights(w, r, i, c);
      }
    case Resume(r) =>
      if r in w.active && w.active[r].Waiting? && w.active[r].create in w.results {
        ResumeKeepsFlights(w, r, w.active[r]);
      }
    case PopSession(i, c) => PopKeepsFlights(w, i, c);
    case _ => OthersKeepFlights(w, e);
  }

  lemma OthersKeepFlights(w: World, e: Event)
    requires FlightsTracked(w) && !e.Begin? && !e.Resume? && !e.PopSession?
    ensures FlightsTracked(Step(w, e))
  {
    OthersSpareFlights(w, e);
    var v := Step(w, e);
    assert forall k, t: nat :: KnownCreate(w, k, t) ==> KnownCreate(v, k, t);
  }

  lemma ClaimEffect(s: State, i: string, id: string, now: real, ttl: real)
    ensures var t := AfterClaim(s, i, id, now, ttl).0; t == s.(claims := t.claims)
  {
  }

  /** The step changes neither creates nor who waits for them, and takes back no result. */
  predicate FlightsSpared(w: World, v: World) {
    && v.st.inflight == w.st.inflight && v.st.nextCreate == w.st.nextCreate && v.keyOf == w.keyOf && v.popped == w.popped
    && (forall r :: r in v.active && v.active[r].Waiting? ==> r in w.active && w.active[r] == v.active[r])
    && (forall t :: t in w.results ==> t in v.results)
    && (forall t :: t in v.results ==> t in w.results || t < w.st.nextCreate)
  }

  lemma OthersSpareFlights(w: World, e: Event)
    requires !e.Begin? && !e.Resume? && !e.PopSession?
    ensures FlightsSpared(w, Step(w, e))
  {
    match e
    case Prefer(r, i, c, s) => PreferSparesFlights(w, e);
    case FinalizeBinding(_, _, _, _) => FinalizeBindingSparesFlights(w, e);
    case FinalizeClaim(i, s) => FinalizeEffect(w.st, i, s, w.now);
    case ClaimSession(i, s) => ClaimEffect(w.st, i, s, w.now, w.ttl);
    case Bind(_) =>
    case Tick(_) =>
    case Settle(_, _) =>
    case ReleaseClaim(_, _) =>
  }

  lemma PreferSparesFlights(w: World, e: Event)
    requires e.Prefer?
    ensures FlightsSpared(w, Step(w, e))
  {
    ClaimEffect(w.st, e.identity, e.sessionId, w.now, w.ttl);
  }

  lemma FinalizeBindingSparesFlights(w: World, e: Event)
    requires e.FinalizeBinding?
    ensures FlightsSpared(w, Step(w, e))
  {
    FinalizeEffect(w.st, e.identity, e.sessionId, w.now);
  }

  lemma BeginKeepsFlights(w: World, r: nat, i: string, c: string)
    requires FlightsTracked(w) && r !in w.active
    ensures FlightsTracked(OnBegin(w, r, i, c))
  {
    var v := OnBegin(w, r, i, c);
    assert forall k, t: nat :: KnownCreate(w, k, t) ==> KnownCreate(v, k, t);
  }

  lemma ResumeKeepsFlights(w: World, r: nat, a: Activity)
    requires FlightsTracked(w) && r in w.active && w.active[r] == a && a.Waiting? && a.create in w.results
    ensures FlightsTracked(OnResume(w, r, a))
  {
    var v := OnResume(w, r, a);
    if w.results[a.create].Created? {
      CreatedEffect(w.st, a.identity, a.contextId, a.create, w.results[a.create].sessionId);
    }
    assert v.st.inflight == w.st.inflight || v.st.inflight == Settled(w.st, (a.identity, a.contextId), a.create).inflight;
    assert forall k, t: nat :: KnownCreate(w, k, t) ==> KnownCreate(v, k, t);
  }

  lemma PopKeepsFlights(w: World, i: string, c: string)
    requires FlightsTracked(w)
    ensures FlightsTracked(Step(w, PopSession(i, c)))
  {
    var v := Step(w, PopSession(i, c));
    assert forall k, t: nat :: KnownCreate(w, k, t) ==> KnownCreate(v, k, t);
    forall t | t in v.keyOf && Flying(v, t)
      ensures Lookup(v.st.inflight, v.keyOf[t]) == Some(t)
    {
      assert Flying(w, t);
    }
  }

  lemma StepKeepsReturns(w: World, e: Event)
    requires ReturnsAgree(w)
    ensures ReturnsAgree(Step(w, e))
  {
    forall i, s | i != "" && Owns(w.st, i, s)
      ensures Owns(Step(w, e).st, i, s)
    {
      OwnerStays(w, e, i, s);
    }
  }

  lemma {:induction false} RunKeeps(w: World, events: seq<Event>)
    requires BindingsOwned(w) && FlightsTracked(w) && ReturnsAgree(w)
    ensures var v := Run(w, events); BindingsOwned(v) && FlightsTracked(v) && ReturnsAgree(v)
    decreases |events|
  {
    if events != [] {
      StepKeepsBindings(w, events[0]);
      StepKeepsFlights(w, events[0]);
      StepKeepsReturns(w, events[0]);
      RunKeeps(Step(w, events[0]), events[1..]);
    }
  }

  /** At every lock release each binding points to a session its identity owns, so a session served from the cache is
      always the caller's own. */
  lemma CachedSessionsAreOwned(ttl: real, events: seq<Event>, identity: string, contextId: string)
    requires identity != ""
    ensures var w := Run(Initial(ttl), events);
            && ((identity, contextId) in w.st.bindings ==> Owns(w.st, identity, w.st.bindings[(identity, contextId)]))
            && (AfterBegin(w.st, identity, contextId).1.Existing? ==>
                  Owns(w.st, identity, AfterBegin(w.st, identity, contextId).1.sessionId))
  {
    RunKeeps(Initial(ttl), events);
  }

  /** While a create is in flight for a key no second one is in flight, and a caller arriving for the key starts none:
      it is served from the cache or waits on that very create. */
  lemma SingleFlight(ttl: real, events: seq<Event>, create: nat, other: nat, request: nat)
    requires var w := Run(Initial(ttl), events); Flying(w, create)
    ensures var w := Run(Initial(ttl), events);
            && create in w.keyOf
            && (Flying(w, other) && other in w.keyOf && w.keyOf[other] == w.keyOf[create] ==> other == create)
            && var (i, c) := w.keyOf[create];
               && Step(w, Begin(request, i, c)).st.nextCreate == w.st.nextCreate
               && (AfterBegin(w.st, i, c).1.Existing? || AfterBegin(w.st, i, c).1 == Awaiting(create))
  {
    RunKeeps(Initial(ttl), events);
  }

  /** Everyone who waited on one create was given the same session, and owns it. */
  lemma WaitersShareTheSession(ttl: real, events: seq<Event>, i: nat, j: nat)
    requires var w := Run(Initial(ttl), events); i < |w.returned| && j < |w.returned| && w.returned[i].create == w.returned[j].create
    ensures var w := Run(Initial(ttl), events);
            && w.returned[i].sessionId == w.returned[j].sessionId
            && (w.returned[i].identity != "" ==> Owns(w.st, w.returned[i].identity, w.returned[i].sessionId))
  {
    RunKeeps(Initial(ttl), events);
  }

  /** A waiter on an older create, however that create ended, never removes a newer one from flight. */
  lemma OlderCreateSparesNewer(w: World, request: nat, key: BindingKey, newer: nat)
    requires request in w.active && w.active[request].Waiting? && w.active[request].create != newer
    requires Lookup(w.st.inflight, key) == Some(newer)
    ensures Lookup(Step(w, Resume(request)).st.inflight, key) == Some(newer)
  {
    var a := w.active[request];
    if a.create in w.results {
      SettledSparesNewer(w.st, (a.identity, a.contextId), a.create, key, newer);
      if w.results[a.create].Created? {
        CreatedEffect(w.st, a.identity, a.contextId, a.create, w.results[a.create].sessionId);
      }
    }
  }

  lemma SettledSparesNewer(s: State, settled: BindingKey, create: nat, key: BindingKey, newer: nat)
    requires create != newer && Lookup(s.inflight, key) == Some(newer)
    ensures Lookup(Settled(s, settled, create).inflight, key) == Some(newer)
  {
  }

  /** A cancelled create is never taken out of flight by its waiters: until the binding is popped, every later caller of
      its key is attached to the cancelled create, so no new create starts. */
  lemma {:induction false} CancelledCreateSticks(w: World, events: seq<Event>, create: nat)
    requires FlightsTracked(w) && create in w.results && w.results[create] == CreateCancelled
    requires create in w.keyOf && Lookup(w.st.inflight, w.keyOf[create]) == Some(create)
    requires forall e :: e in events ==> !(e.PopSession? && (e.identity, e.contextId) == w.keyOf[create])
    ensures var v := Run(w, events);
            && Lookup(v.st.inflight, w.keyOf[create]) == Some(create)
            && create in v.results && v.results[create] == CreateCancelled
    decreases |events|
  {
    if events != [] {
      assert events[0] in events;
      var v := Step(w, events[0]);
      StepKeepsFlights(w, events[0]);
      CancelledCreateStays(w, events[0], create);
      CancelledCreateSticks(v, events[1..], create);
    }
  }

  lemma CancelledCreateStays(w: World, e: Event, create: nat)
    requires FlightsTracked(w) && create in w.results && w.results[create] == CreateCancelled
    requires create in w.keyOf && Lookup(w.st.inflight, w.keyOf[create]) == Some(create)
    requires !(e.PopSession? && (e.identity, e.contextId) == w.keyOf[create])
    ensures var v := Step(w, e);
            && create in v.keyOf && v.keyOf[create] == w.keyOf[create]
            && Lookup(v.st.inflight, w.keyOf[create]) == Some(create)
            && create in v.results && v.results[create] == CreateCancelled
  {
    ResultsStay(w, e);
    match e
    case Begin(_, _, _) => BeginSparesCreate(w, e, create);
    case Resume(_) => ResumeSparesCancelled(w, e, create);
    case PopSession(_, _) =>
    case _ => OthersSpareFlights(w, e);
  }

  lemma BeginSparesCreate(w: World, e: Event, create: nat)
    requires FlightsTracked(w) && e.Begin? && create in w.keyOf && Lookup(w.st.inflight, w.keyOf[create]) == Some(create)
    ensures var v := Step(w, e);
            create in v.keyOf && v.keyOf[create] == w.keyOf[create] && Lookup(v.st.inflight, w.keyOf[create]) == Some(create)
  {
  }

  lemma ResumeSparesCancelled(w: World, e: Event, create: nat)
    requires FlightsTracked(w) && e.Resume? && create in w.results && w.results[create] == CreateCancelled
    requires create in w.keyOf && Lookup(w.st.inflight, w.keyOf[create]) == Some(create)
    ensures Step(w, e).keyOf == w.keyOf && Lookup(Step(w, e).st.inflight, w.keyOf[create]) == Some(create)
  {
    if e.request in w.active && w.active[e.request].Waiting? && w.active[e.request].create in w.results {
      var a := w.active[e.request];
      assert KnownCreate(w, (a.identity, a.contextId), a.create);
      if w.results[a.create].Created? {
        CreatedEffect(w.st, a.identity, a.contextId, a.create, w.results[a.create].sessionId);
      }
    }
  }

  // ---- When a create leaves flight ----

  /** A waiter that resumes takes its create out of flight exactly unless the create was cancelled. */
  lemma ResumeSettlesIff(w: World, request: nat)
    requires request in w.active && w.active[request].Waiting? && w.active[request].create in w.results
    requires var a := w.active[request]; Lookup(w.st.inflight, (a.identity, a.contextId)) == Some(a.create)
    ensures var a := w.active[request];
            Lookup(Step(w, Resume(request)).st.inflight, (a.identity, a.contextId)) == Some(a.create)
            <==> w.results[a.create] == CreateCancelled
  {
  }

  /** A waiter on the create has resumed with its result at hand. */
  ghost predicate Resumes(w: World, e: Event, create: nat) {
    e.Resume? && e.request in w.active && w.active[e.request].Waiting? && w.active[e.request].create == create && create in w.results
  }

  ghost predicate HasResumed(w: World, resumed: bool, events: seq<Event>, create: nat)
    decreases |events|
  {
    if events == [] then resumed
    else HasResumed(Step(w, events[0]), resumed || Resumes(w, events[0], create), events[1..], create)
  }

  /** A create that was begun and not popped is in flight until a waiter resumes with anything but a cancellation. */
  ghost predicate FlightDecided(w: World, resumed: bool, create: nat) {
    && (create !in w.results ==> !resumed)
    && (create in w.keyOf && create !in w.popped ==>
          (Lookup(w.st.inflight, w.keyOf[create]) == Some(create)
           <==> !resumed || w.results[create] == CreateCancelled))
    && (create !in w.keyOf ==> !resumed && create !in w.popped)
  }

  lemma StepDecides(w: World, e: Event, resumed: bool, create: nat)
    requires FlightsTracked(w) && FlightDecided(w, resumed, create)
    ensures FlightDecided(Step(w, e), resumed || Resumes(w, e, create), create)
  {
    match e
    case Begin(r, i, c) => BeginDecides(w, e, resumed, create);
    case Resume(r) => ResumeDecides(w, e, resumed, create);
    case PopSession(i, c) => PopDecides(w, e, resumed, create);
    case _ =>
      OthersSpareFlights(w, e);
      ResultsStay(w, e);
  }

  lemma ResultsStay(w: World, e: Event)
    ensures forall t :: t in w.results ==> t in Step(w, e).results && Step(w, e).results[t] == w.results[t]
  {
  }

  lemma BeginDecides(w: World, e: Event, resumed: bool, create: nat)
    requires FlightsTracked(w) && FlightDecided(w, resumed, create) && e.Begin?
    ensures FlightDecided(Step(w, e), resumed, create)
  {
  }

  lemma ResumeDecides(w: World, e: Event, resumed: bool, create: nat)
    requires FlightsTracked(w) && FlightDecided(w, resumed, create) && e.Resume?
    ensures FlightDecided(Step(w, e), resumed || Resumes(w, e, create), create)
  {
    if e.request in w.active && w.active[e.request].Waiting? && w.active[e.request].create in w.results {
      var a := w.active[e.request];
      assert KnownCreate(w, (a.identity, a.contextId), a.create);
      if w.results[a.create].Created? {
        CreatedEffect(w.st, a.identity, a.contextId, a.create, w.results[a.create].sessionId);
      }
    }
  }

  lemma PopDecides(w: World, e: Event, resumed: bool, create: nat)
    requires FlightsTracked(w) && FlightDecided(w, resumed, create) && e.PopSession?
    ensures FlightDecided(Step(w, e), resumed, create)
  {
  }

  lemma {:induction false} RunDecides(w: World, events: seq<Event>, resumed: bool, create: nat)
    requires FlightsTracked(w) && FlightDecided(w, resumed, create)
    ensures FlightDecided(Run(w, events), HasResumed(w, resumed, events, create), create)
    decreases |events|
  {
    if events != [] {
      StepKeepsFlights(w, events[0]);
      StepDecides(w, events[0], resumed, create);
      RunDecides(Step(w, events[0]), events[1..], resumed || Resumes(w, events[0], create), create);
    }
  }

  /** Over every run: once a waiter has resumed, a create that was not popped is still in flight exactly if it was
      cancelled; and until then it is in flight. */
  lemma SettledCreateLeavesIff(ttl: real, events: seq<Event>, create: nat)
    ensures var w := Run(Initial(ttl), events);
            create in w.keyOf && create !in w.popped ==>
              var flying, resumed := Lookup(w.st.inflight, w.keyOf[create]) == Some(create),
                                     HasResumed(Initial(ttl), false, events, create);
              && (resumed ==> create in w.results && (flying <==> w.results[create] == CreateCancelled))
              && (!resumed ==> flying)
  {
    RunDecides(Initial(ttl), events, false, create);
  }

  // ---- Claim leases ----

  /** The requests of the claim's own holder that renew, finalise or release it. */
  predicate TouchesOwnClaim(e: Event, identity: string, sessionId: string) {
    match e
    case Prefer(_, i, _, s) => i == identity && s == sessionId
    case FinalizeBinding(_, i, _, s) => i == identity && s == sessionId
    case ClaimSession(i, s) => i == identity && s == sessionId
    case FinalizeClaim(i, s) => i == identity && s == sessionId
    case ReleaseClaim(i, s) => i == identity && s == sessionId
    case _ => false
  }

  predicate Leased(w: World, identity: string, sessionId: string, deadline: real) {
    sessionId in w.st.claims && w.st.claims[sessionId] == Claim(identity, deadline) && w.now < deadline
  }

  predicate HoldsLease(m: Claims, identity: string, sessionId: string, deadline: real) {
    sessionId in m && m[sessionId] == Claim(identity, deadline)
  }

  lemma ClaimSparesLease(s: State, i: string, id: string, now: real, ttl: real, identity: string, sessionId: string, deadline: real)
    requires HoldsLease(s.claims, identity, sessionId, deadline) && now < deadline && identity != "" && (i, id) != (identity, sessionId)
    ensures HoldsLease(AfterClaim(s, i, id, now, ttl).0.claims, identity, sessionId, deadline)
  {
  }

  lemma FinalizeSparesLease(s: State, i: string, id: string, now: real, identity: string, sessionId: string, deadline: real)
    requires HoldsLease(s.claims, identity, sessionId, deadline) && now < deadline && identity != "" && (i, id) != (identity, sessionId)
    ensures HoldsLease(AfterFinalize(s, i, id, now).0.claims, identity, sessionId, deadline)
  {
  }

  lemma CreatesSpareClaims(w: World, e: Event)
    requires e.Begin? || e.Resume? || e.Settle? || e.Bind? || e.PopSession? || e.Tick?
    ensures Step(w, e).st.claims == w.st.claims
  {
    if e.Resume? && e.request in w.active && w.active[e.request].Waiting? && w.active[e.request].create in w.results {
      var a := w.active[e.request];
      if w.results[a.create].Created? {
        CreatedEffect(w.st, a.identity, a.contextId, a.create, w.results[a.create].sessionId);
      }
    }
  }

  lemma LeaseSurvives(w: World, e: Event, identity: string, sessionId: string, deadline: real)
    requires Leased(w, identity, sessionId, deadline) && identity != "" && !TouchesOwnClaim(e, identity, sessionId)
    requires Step(w, e).now < deadline
    ensures Leased(Step(w, e), identity, sessionId, deadline)
  {
    if e.Prefer? || e.ClaimSession? {
      ClaimsSpareLease(w, e, identity, sessionId, deadline);
    } else if e.FinalizeBinding? || e.FinalizeClaim? {
      FinalizesSpareLease(w, e, identity, sessionId, deadline);
    } else if !e.ReleaseClaim? {
      CreatesSpareClaims(w, e);
    }
  }

  lemma ClaimsSpareLease(w: World, e: Event, identity: string, sessionId: string, deadline: real)
    requires e.Prefer? || e.ClaimSession?
    requires Leased(w, identity, sessionId, deadline) && identity != "" && !TouchesOwnClaim(e, identity, sessionId)
    ensures HoldsLease(Step(w, e).st.claims, identity, sessionId, deadline)
  {
    ClaimSparesLease(w.st, e.identity, e.sessionId, w.now, w.ttl, identity, sessionId, deadline);
  }

  lemma FinalizesSpareLease(w: World, e: Event, identity: string, sessionId: string, deadline: real)
    requires e.FinalizeBinding? || e.FinalizeClaim?
    requires Leased(w, identity, sessionId, deadline) && identity != "" && !TouchesOwnClaim(e, identity, sessionId)
    ensures HoldsLease(Step(w, e).st.claims, identity, sessionId, deadline)
  {
    FinalizeSparesLease(w.st, e.identity, e.sessionId, w.now, identity, sessionId, deadline);
  }

  lemma {:induction false} ClockAdvances(w: World, events: seq<Event>)
    ensures Run(w, events).now >= w.now
    decreases |events|
  {
    if events != [] {
      ClockAdvances(Step(w, events[0]), events[1..]);
    }
  }

  /** Until its deadline, or until its holder finalises or releases it, a claim stays exactly as it was made. */
  lemma {:induction false} LeaseHolds(w: World, events: seq<Event>, identity: string, sessionId: string, deadline: real)
    requires Leased(w, identity, sessionId, deadline) && identity != ""
    requires forall e :: e in events ==> !TouchesOwnClaim(e, identity, sessionId)
    requires Run(w, events).now < deadline
    ensures Leased(Run(w, events), identity, sessionId, deadline)
    decreases |events|
  {
    if events != [] {
      assert events[0] in events;
      ClockAdvances(Step(w, events[0]), events[1..]);
      LeaseSurvives(w, events[0], identity, sessionId, deadline);
      LeaseHolds(Step(w, events[0]), events[1..], identity, sessionId, deadline);
    }
  }

  /** Under a live claim every claim or finalise of the session by someone else is refused and changes no owner, and
      someone else's release leaves the claim alone. */
  lemma LeaseExcludes(w: World, identity: string, other: string, sessionId: string, deadline: real)
    requires Leased(w, identity, sessionId, deadline) && identity != "" && other != identity
    ensures AfterClaim(w.st, other, sessionId, w.now, w.ttl).1 == Forbidden
    ensures AfterFinalize(w.st, other, sessionId, w.now).1 == Forbidden
    ensures AfterFinalize(w.st, other, sessionId, w.now).0.owners == w.st.owners
    ensures AfterRelease(w.st, other, sessionId) == w.st
  {
  }

  /** Of all the identities that ever race for a session, at most one finalises it. */
  lemma AtMostOneFinalizes(ttl: real, events: seq<Event>, a: string, b: string, sessionId: string)
    requires a != "" && b != ""
    requires var w := Run(Initial(ttl), events); (a, sessionId) in w.finalized && (b, sessionId) in w.finalized
    ensures a == b && Owns(Run(Initial(ttl), events).st, a, sessionId)
  {
    RunKeeps(Initial(ttl), events);
  }

  /** What a release takes away: the caller's own claim on the session, and nothing else. */
  lemma ReleaseIsOwn(s: State, identity: string, sessionId: string, now: real)
    ensures var t := AfterRelease(s, identity, sessionId);
            && Holder(t.claims, sessionId, now) != Some(identity)
            && (forall x :: x in s.claims && (x != sessionId || s.claims[x].identity != identity) ==> x in t.claims && t.claims[x] == s.claims[x])
            && t.claims.Keys <= s.claims.Keys && t == s.(claims := t.claims)
  {
  }
}

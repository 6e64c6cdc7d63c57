/** Runs of the session manager over the in-memory repository: how a session can pass to another owner while it is still
 *  served to the first. */
module MemoryTakeover {
  import opened Basics
  import opened TtlCache
  import opened OwnerExpiry
  import opened MemorySessions
  import R = SessionRepository
  import M = SessionManagement

  datatype Pending = Pending(identity: string, contextId: string, sessionId: string)

  /** Besides the repository: the requests that are about to bind, every operation on the owner cache so far, and from
   *  these the last owner set for each session and all that ever were. */
  datatype World = World(memory: Memory, now: real, active: map<nat, Pending>, ownerOps: seq<Op>,
                         record: map<string, string>, ever: set<(string, string)>)

  /** One lock section at a time; every section sees one instant of the clock. */
  datatype Event =
    | Begin(identity: string, contextId: string, at: real)
    | Finish(identity: string, contextId: string, sessionId: string, at: real)
    | Prefer(request: nat, identity: string, contextId: string, sessionId: string, at: real)
    | FinalizeBinding(request: nat, identity: string, contextId: string, sessionId: string, at: real)
    | Bind(request: nat, at: real)
    | ClaimSession(identity: string, sessionId: string, at: real)
    | FinalizeClaim(identity: string, sessionId: string, at: real)
    | ReleaseClaim(identity: string, sessionId: string, at: real)
    | PopSession(identity: string, contextId: string, at: real)

  function Initial(): World { World(Memory([], [], map[]), 0.0, map[], [], map[], {}) }

  /** A section that reads the owner, and may then set it. */
  function Reads(w: World, sessionId: string, at: real): World {
    w.(ownerOps := w.ownerOps + [Get(SessionKey(sessionId), at)])
  }

  function Sets(w: World, sessionId: string, identity: string, at: real): World {
    w.(ownerOps := w.ownerOps + [Set(SessionKey(sessionId), identity, at)],
       record := w.record[sessionId := identity], ever := w.ever + {(identity, sessionId)})
  }

  function Step(c: Limits, w: World, e: Event): World {
    if e.at < w.now then w else Handle(c, w.(now := e.at), e)
  }

  function Handle(c: Limits, w: World, e: Event): World {
    match e
    case Begin(i, x, at) => w.(memory := w.memory.(bindings := AfterGet(B(c), w.memory.bindings, BindingKey(i, x), at).0))
    case Finish(i, x, s, at) =>
      var (m, r) := AfterCreated(c, w.memory, i, x, s, at);
      var v := Reads(w, s, at).(memory := m);
      if r.Ok? && Unowned(OwnerAt(c, w.memory, s, at)) then Sets(v, s, i, at) else v
    case Prefer(r, i, x, s, at) => if r in w.active then w else OnPrefer(c, w, r, Pending(i, x, s), at)
    case FinalizeBinding(r, i, x, s, at) =>
      if r in w.active then w
      else
        var v := OnFinalize(c, w, i, s, at);
        if AfterFinalize(c, w.memory, i, s, at).1.Ok? then v.(active := w.active[r := Pending(i, x, s)]) else v
    case Bind(r, at) =>
      if r !in w.active then w
      else
        var b := w.active[r];
        w.(memory := Bound(c, w.memory, b.identity, b.contextId, b.sessionId, at), active := w.active - {r})
    case ClaimSession(i, s, at) => Reads(w, s, at).(memory := AfterClaim(c, w.memory, i, s, at).0)
    case FinalizeClaim(i, s, at) => OnFinalize(c, w, i, s, at)
    case ReleaseClaim(i, s, _) => w.(memory := w.memory.(claims := R.Cleared(w.memory.claims, s, Some(i))))
    case PopSession(i, x, _) => w.(memory := w.memory.(bindings := Without(w.memory.bindings, BindingKey(i, x))))
  }

  function OnPrefer(c: Limits, w: World, r: nat, b: Pending, at: real): World {
    var (m, result) := AfterClaim(c, w.memory, b.identity, b.sessionId, at);
    Reads(w, b.sessionId, at).(memory := m, active := if result == M.Ok(false) then w.active[r := b] else w.active)
  }

  function OnFinalize(c: Limits, w: World, i: string, s: string, at: real): World {
    var (m, r) := AfterFinalize(c, w.memory, i, s, at);
    var v := Reads(w, s, at).(memory := m);
    if r.Ok? then Sets(v, s, i, at) else v
  }

  function Run(c: Limits, w: World, events: seq<Event>): World
    decreases |events|
  {
    if events == [] then w else Run(c, Step(c, w, events[0]), events[1..])
  }

  // ---- The caches agree with the record ----

  /** A cached owner is the last one set. */
  ghost predicate OwnersRecorded(w: World) {
    Distinct(w.memory.owners) && forall x :: x in w.memory.owners ==> IsRecorded(w, x)
  }

  predicate IsRecorded(w: World, x: Entry) {
    x.key.SessionKey? && x.key.sessionId in w.record && w.record[x.key.sessionId] == x.value
  }

  /** Whoever holds a binding, or is about to, has been the session's owner. */
  ghost predicate BindingsEarned(w: World) {
    && Distinct(w.memory.bindings)
    && (forall x :: x in w.memory.bindings ==> IsEarned(w.ever, x))
    && (forall r :: r in w.active ==> (w.active[r].identity, w.active[r].sessionId) in w.ever)
    && (forall s :: s in w.record ==> (w.record[s], s) in w.ever)
  }

  predicate IsEarned(ever: set<(string, string)>, x: Entry) {
    x.key.BindingKey? && (x.key.identity, x.value) in ever
  }

  /** The owner cache is what its operations make it. */
  ghost predicate Logged(c: Limits, w: World) {
    UpTo(w.ownerOps, w.now) && w.memory.owners == RunCache(O(c), [], w.ownerOps)
  }

  ghost predicate Sound(c: Limits, w: World) { OwnersRecorded(w) && BindingsEarned(w) && Logged(c, w) }

  lemma {:induction false} RunSnoc(c: Config, s: seq<Entry>, ops: seq<Op>, op: Op)
    ensures RunCache(c, s, ops + [op]) == Perform(c, RunCache(c, s, ops), op).0
    decreases |ops|
  {
    if ops == [] {
      assert [] + [op] == [op] && [op][1..] == [];
    } else {
      assert (ops + [op])[1..] == ops[1..] + [op];
      RunSnoc(c, Perform(c, s, ops[0]).0, ops[1..], op);
    }
  }

  lemma LogGrows(c: Config, s: seq<Entry>, ops: seq<Op>, op: Op, now: real)
    requires UpTo(ops, now) && now <= op.at && s == RunCache(c, [], ops)
    ensures UpTo(ops + [op], op.at) && Perform(c, s, op).0 == RunCache(c, [], ops + [op])
  {
    RunSnoc(c, [], ops, op);
    var all := ops + [op];
    assert forall i :: 0 <= i < |ops| ==> all[i] == ops[i];
    if ops != [] {
      assert forall i :: 0 <= i < |ops| ==> ops[i].at <= ops[|ops| - 1].at;
    }
  }

  /** What a section that reads the owner leaves of the owner cache. */
  lemma ReadKeeps(c: Limits, w: World, v: World, s: string, at: real)
    requires OwnersRecorded(w) && Logged(c, w) && w.now <= at == v.now
    requires v.ownerOps == Reads(w, s, at).ownerOps && v.record == w.record && v.memory.owners == Read(c, w.memory, s, at).owners
    ensures OwnersRecorded(v) && Logged(c, v)
    ensures OwnerAt(c, w.memory, s, at).Some? ==> s in w.record && w.record[s] == OwnerAt(c, w.memory, s, at).value
  {
    LogGrows(O(c), w.memory.owners, w.ownerOps, Get(SessionKey(s), at), w.now);
    GetEntries(O(c), w.memory.owners, SessionKey(s), at);
    forall x | x in v.memory.owners
      ensures IsRecorded(v, x)
    {
      assert x in w.memory.owners ==> IsRecorded(w, x);
      if RefreshOf(x, w.memory.owners, SessionKey(s)) {
        assert IsRecorded(w, Find(w.memory.owners, SessionKey(s)).value);
        FindSpec(w.memory.owners, SessionKey(s));
      }
    }
    if OwnerAt(c, w.memory, s, at).Some? {
      assert IsRecorded(w, Find(w.memory.owners, SessionKey(s)).value);
    }
  }

  lemma SetKeeps(c: Limits, w: World, v: World, s: string, i: string, at: real)
    requires OwnersRecorded(w) && Logged(c, w) && w.now <= at == v.now
    requires v.ownerOps == Sets(w, s, i, at).ownerOps && v.record == w.record[s := i]
    requires v.memory.owners == Own(c, w.memory, s, i, at).owners
    ensures OwnersRecorded(v) && Logged(c, v)
  {
    LogGrows(O(c), w.memory.owners, w.ownerOps, Set(SessionKey(s), i, at), w.now);
    SetEntries(O(c), w.memory.owners, SessionKey(s), i, at);
    if !Enabled(O(c)) {
      DisabledStaysEmpty(O(c), w.ownerOps);
    }
    forall x | x in v.memory.owners
      ensures IsRecorded(v, x)
    {
      assert x in w.memory.owners ==> IsRecorded(w, x);
    }
  }

  lemma {:induction false} DisabledStaysEmpty(c: Config, ops: seq<Op>)
    requires !Enabled(c)
    ensures RunCache(c, [], ops) == []
    decreases |ops|
  {
    if ops != [] {
      assert Perform(c, [], ops[0]).0 == [];
      DisabledStaysEmpty(c, ops[1..]);
    }
  }

  // ---- Every section keeps that ----

  lemma FinalizeKeeps(c: Limits, w: World, i: string, s: string, at: real)
    requires Sound(c, w) && w.now == at
    ensures Sound(c, OnFinalize(c, w, i, s, at))
    ensures AfterFinalize(c, w.memory, i, s, at).1.Ok? ==> (i, s) in OnFinalize(c, w, i, s, at).ever
  {
    var (m, r) := AfterFinalize(c, w.memory, i, s, at);
    var u := Reads(w, s, at).(memory := Read(c, w.memory, s, at));
    ReadKeeps(c, w, u, s, at);
    if r.Ok? {
      SetKeeps(c, u, OnFinalize(c, w, i, s, at), s, i, at);
    }
    BindingsStayEarned(w, OnFinalize(c, w, i, s, at));
  }

  /** Nothing about bindings is lost when the record of owners only grows. */
  lemma BindingsStayEarned(w: World, v: World)
    requires BindingsEarned(w) && v.memory.bindings == w.memory.bindings && v.active == w.active && w.ever <= v.ever
    requires forall s :: s in v.record ==> (v.record[s], s) in v.ever
    ensures BindingsEarned(v)
  {
    forall x | x in v.memory.bindings
      ensures IsEarned(v.ever, x)
    {
      assert IsEarned(w.ever, x);
    }
  }

  lemma ClaimKeeps(c: Limits, w: World, i: string, s: string, at: real, active: map<nat, Pending>)
    requires Sound(c, w) && w.now == at
    requires forall r :: r in active ==>
               || (r in w.active && active[r] == w.active[r])
               || (active[r].identity == i && active[r].sessionId == s && AfterClaim(c, w.memory, i, s, at).1 == M.Ok(false))
    ensures Sound(c, Reads(w, s, at).(memory := AfterClaim(c, w.memory, i, s, at).0, active := active))
  {
    var v := Reads(w, s, at).(memory := AfterClaim(c, w.memory, i, s, at).0, active := active);
    ReadKeeps(c, w, v, s, at);
    BindingsStayEarned(w, v.(active := w.active));
  }

  lemma BoundKeeps(c: Limits, w: World, v: World, i: string, x: string, s: string, at: real)
    requires Sound(c, w) && (i, s) in w.ever
    requires v.memory == Bound(c, w.memory, i, x, s, at) && v.ever == w.ever && v.record == w.record && v.ownerOps == w.ownerOps
    requires v.now == w.now && forall r :: r in v.active ==> r in w.active && v.active[r] == w.active[r]
    ensures Sound(c, v)
  {
    SetEntries(B(c), w.memory.bindings, BindingKey(i, x), s, at);
    forall y | y in v.memory.bindings
      ensures IsEarned(v.ever, y)
    {
      assert y in w.memory.bindings ==> IsEarned(w.ever, y);
    }
    SameOwners(c, w, v);
  }

  lemma SameOwners(c: Limits, w: World, v: World)
    requires OwnersRecorded(w) && Logged(c, w) && v.now == w.now
    requires v.memory.owners == w.memory.owners && v.record == w.record && v.ownerOps == w.ownerOps
    ensures OwnersRecorded(v) && Logged(c, v)
  {
    forall y | y in v.memory.owners
      ensures IsRecorded(v, y)
    {
      assert IsRecorded(w, y);
    }
  }

  lemma FewerBindingsKeep(c: Limits, w: World, v: World)
    requires Sound(c, w) && v == w.(memory := w.memory.(bindings := v.memory.bindings)) && Distinct(v.memory.bindings)
    requires forall y :: y in v.memory.bindings ==> y in w.memory.bindings || exists k :: RefreshOf(y, w.memory.bindings, k)
    ensures Sound(c, v)
  {
    forall y | y in v.memory.bindings
      ensures IsEarned(v.ever, y)
    {
      if y in w.memory.bindings {
        assert IsEarned(w.ever, y);
      } else {
        var k :| RefreshOf(y, w.memory.bindings, k);
        FindSpec(w.memory.bindings, k);
        assert IsEarned(w.ever, Find(w.memory.bindings, k).value);
      }
    }
    SameOwners(c, w, v);
  }

  lemma FinishKeeps(c: Limits, w: World, e: Event)
    requires Sound(c, w) && w.now == e.at && e.Finish?
    ensures Sound(c, Handle(c, w, e))
  {
    var (i, x, s, at) := (e.identity, e.contextId, e.sessionId, e.at);
    var owner := OwnerAt(c, w.memory, s, at);
    var u := Reads(w, s, at).(memory := Read(c, w.memory, s, at));
    ReadKeeps(c, w, u, s, at);
    BindingsStayEarned(w, u);
    if !M.Foreign(owner, i) {
      if Unowned(owner) {
        var v := Sets(u, s, i, at).(memory := Own(c, u.memory, s, i, at));
        SetKeeps(c, u, v, s, i, at);
        BindingsStayEarned(u, v);
        BoundKeeps(c, v, Handle(c, w, e), i, x, s, at);
      } else {
        BoundKeeps(c, u, Handle(c, w, e), i, x, s, at);
      }
    }
  }

  lemma BindKeeps(c: Limits, w: World, e: Event)
    requires Sound(c, w) && w.now == e.at && e.Bind?
    ensures Sound(c, Handle(c, w, e))
  {
    if e.request in w.active {
      var b := w.active[e.request];
      BoundKeeps(c, w, Handle(c, w, e), b.identity, b.contextId, b.sessionId, e.at);
    }
  }

  lemma CacheReadKeeps(c: Limits, w: World, e: Event)
    requires Sound(c, w) && (e.Begin? || e.PopSession?)
    ensures Sound(c, Handle(c, w, e))
  {
    var k := BindingKey(e.identity, e.contextId);
    GetEntries(B(c), w.memory.bindings, k, e.at);
    WithoutSpec(w.memory.bindings, k);
    FewerBindingsKeep(c, w, Handle(c, w, e));
  }

  lemma PreferKeeps(c: Limits, w: World, e: Event)
    requires Sound(c, w) && w.now == e.at && e.Prefer?
    ensures Sound(c, Handle(c, w, e))
  {
    if e.request !in w.active {
      var b := Pending(e.identity, e.contextId, e.sessionId);
      ClaimKeeps(c, w, e.identity, e.sessionId, e.at, OnPrefer(c, w, e.request, b, e.at).active);
    }
  }

  lemma FinalizeBindingKeeps(c: Limits, w: World, e: Event)
    requires Sound(c, w) && w.now == e.at && e.FinalizeBinding?
    ensures Sound(c, Handle(c, w, e))
  {
    if e.request !in w.active {
      FinalizeKeeps(c, w, e.identity, e.sessionId, e.at);
      SameOwners(c, OnFinalize(c, w, e.identity, e.sessionId, e.at), Handle(c, w, e));
    }
  }

  lemma StepKeeps(c: Limits, w: World, e: Event)
    requires Sound(c, w)
    ensures Sound(c, Step(c, w, e))
  {
    if e.at >= w.now {
      SoundLater(c, w, e.at);
      HandleKeeps(c, w.(now := e.at), e);
    }
  }

  lemma HandleKeeps(c: Limits, w: World, e: Event)
    requires Sound(c, w) && w.now == e.at
    ensures Sound(c, Handle(c, w, e))
  {
    match e
    case Begin(_, _, _) => CacheReadKeeps(c, w, e);
    case PopSession(_, _, _) => CacheReadKeeps(c, w, e);
    case Finish(_, _, _, _) => FinishKeeps(c, w, e);
    case Prefer(_, _, _, _, _) => PreferKeeps(c, w, e);
    case ClaimSession(i, s, at) => ClaimKeeps(c, w, i, s, at, w.active);
    case FinalizeClaim(i, s, at) => FinalizeKeeps(c, w, i, s, at);
    case FinalizeBinding(_, _, _, _, _) => FinalizeBindingKeeps(c, w, e);
    case Bind(_, _) => BindKeeps(c, w, e);
    case ReleaseClaim(_, _, _) => SameOwners(c, w, Handle(c, w, e));
  }

  lemma SoundLater(c: Limits, w: World, at: real)
    requires Sound(c, w) && w.now <= at
    ensures Sound(c, w.(now := at))
  {
    var v := w.(now := at);
    forall y | y in v.memory.owners
      ensures IsRecorded(v, y)
    {
      assert IsRecorded(w, y);
    }
  }

  lemma {:induction false} RunKeeps(c: Limits, w: World, events: seq<Event>)
    requires Sound(c, w)
    ensures Sound(c, Run(c, w, events))
    decreases |events|
  {
    if events != [] {
      StepKeeps(c, w, events[0]);
      RunKeeps(c, Step(c, w, events[0]), events[1..]);
    }
  }

  // ---- Who was set last ----

  /** The identity that an event records as the owner of a session, under the guards of finalising and of completing a
   *  create. */
  function SetBy(c: Limits, w: World, e: Event, s: string): Option<string> {
    if e.at < w.now then None
    else
      match e
      case FinalizeClaim(i, x, at) => if x == s && !Refused(c, w.memory, i, s, at) then Some(i) else None
      case FinalizeBinding(r, i, _, x, at) => if r !in w.active && x == s && !Refused(c, w.memory, i, s, at) then Some(i) else None
      case Finish(i, _, x, at) =>
        if x == s && Unowned(OwnerAt(c, w.memory, s, at)) then Some(i) else None
      case _ => None
  }

  lemma StepRecords(c: Limits, w: World, e: Event, s: string)
    ensures Lookup(Step(c, w, e).record, s) == if SetBy(c, w, e, s).Some? then SetBy(c, w, e, s) else Lookup(w.record, s)
  {
  }

  /** The last identity recorded for the session during the run, if any, is not this one. */
  predicate SetByOther(c: Limits, w: World, flag: bool, events: seq<Event>, i: string, s: string)
    decreases |events|
  {
    if events == [] then flag
    else
      var setter := SetBy(c, w, events[0], s);
      SetByOther(c, Step(c, w, events[0]), if setter.Some? then setter.value != i else flag, events[1..], i, s)
  }

  lemma {:induction false} RecordTellsSetter(c: Limits, w: World, flag: bool, events: seq<Event>, i: string, s: string)
    requires flag <==> s in w.record && w.record[s] != i
    ensures var v := Run(c, w, events); SetByOther(c, w, flag, events, i, s) <==> s in v.record && v.record[s] != i
    decreases |events|
  {
    if events != [] {
      var setter := SetBy(c, w, events[0], s);
      StepRecords(c, w, events[0], s);
      RecordTellsSetter(c, Step(c, w, events[0]), if setter.Some? then setter.value != i else flag, events[1..], i, s);
    }
  }

  /** Over every run of the manager's sections with the in-memory repository: an identity that is served a session has
   *  once been recorded as its owner; and the session's live owner is someone else exactly if a live owner is found and
   *  someone else was recorded since. */
  lemma ForeignOwnerIff(c: Limits, events: seq<Event>, i: string, x: string, s: string, now: real)
    requires var w := Run(c, Initial(), events);
             w.now <= now && AfterGet(B(c), w.memory.bindings, BindingKey(i, x), now).1 == Some(s)
    ensures var w := Run(c, Initial(), events);
            var owner := OwnerAt(c, w.memory, s, now);
            && (i, s) in w.ever
            && (owner.Some? && owner != Some(i) <==> owner.Some? && SetByOther(c, Initial(), false, events, i, s))
  {
    RunKeeps(c, Initial(), events);
    RecordTellsSetter(c, Initial(), false, events, i, s);
    var w := Run(c, Initial(), events);
    GetEntries(B(c), w.memory.bindings, BindingKey(i, x), now);
    assert IsEarned(w.ever, Find(w.memory.bindings, BindingKey(i, x)).value);
    GetEntries(O(c), w.memory.owners, SessionKey(s), now);
    if OwnerAt(c, w.memory, s, now).Some? {
      assert IsRecorded(w, Find(w.memory.owners, SessionKey(s)).value);
    }
  }

  /** The recorded owner's entry has passed its deadline, or was pushed out of the cache and not set again. */
  predicate OwnerGone(c: Limits, w: World, s: string, at: real) {
    var owners := RunReference(O(c), map[], w.ownerOps);
    SessionKey(s) !in owners || owners[SessionKey(s)].1 <= at || Lost(O(c), [], false, w.ownerOps, SessionKey(s))
  }

  /** How someone else gets recorded: finalising takes a session over from its recorded, named owner exactly if no one
   *  else's claim is pending and the owner's entry is gone; completing a create, exactly if the owner's entry is gone. */
  lemma TakeoverIff(c: Limits, events: seq<Event>, i: string, j: string, x: string, s: string, at: real)
    requires c.ttl > 0 && c.maxsize > 0 && i != "" && j != i
    requires var w := Run(c, Initial(), events); w.now <= at && s in w.record && w.record[s] == i
    ensures var w := Run(c, Initial(), events);
            && (Step(c, w, FinalizeClaim(j, s, at)).record[s] == j <==>
                !M.Foreign(R.Holder(w.memory.claims, s, at), j) && OwnerGone(c, w, s, at))
            && (Step(c, w, Finish(j, x, s, at)).record[s] == j <==> OwnerGone(c, w, s, at))
  {
    var w := Run(c, Initial(), events);
    RunKeeps(c, Initial(), events);
    OwnerFoundIff(c, w, s, at);
    FinalizeRecords(c, w, j, s, at);
    StepRecords(c, w, Finish(j, x, s, at), s);
  }

  lemma FinalizeRecords(c: Limits, w: World, j: string, s: string, at: real)
    requires w.now <= at && s in w.record
    ensures Step(c, w, FinalizeClaim(j, s, at)).record
            == if Refused(c, w.memory, j, s, at) then w.record else w.record[s := j]
  {
  }

  lemma OwnerFoundIff(c: Limits, w: World, s: string, at: real)
    requires Sound(c, w) && w.now <= at && c.ttl > 0 && c.maxsize > 0 && s in w.record
    ensures OwnerAt(c, w.memory, s, at) == if OwnerGone(c, w, s, at) then None else Some(w.record[s])
  {
    UpToLater(w.ownerOps, w.now, at);
    MissIff(O(c), w.ownerOps, SessionKey(s), at);
    GetEntries(O(c), w.memory.owners, SessionKey(s), at);
    if OwnerAt(c, w.memory, s, at).Some? {
      assert IsRecorded(w, Find(w.memory.owners, SessionKey(s)).value);
    }
  }

  lemma UpToLater(ops: seq<Op>, now: real, at: real)
    requires UpTo(ops, now) && now <= at
    ensures UpTo(ops, at)
  {
  }

  ghost predicate EverRecorded(w: World) { forall i, s :: (i, s) in w.ever ==> s in w.record }

  lemma StepEverRecorded(c: Limits, w: World, e: Event)
    requires EverRecorded(w)
    ensures EverRecorded(Step(c, w, e))
  {
  }

  lemma {:induction false} RunEverRecorded(c: Limits, w: World, events: seq<Event>)
    requires EverRecorded(w)
    ensures EverRecorded(Run(c, w, events))
    decreases |events|
  {
    if events != [] {
      StepEverRecorded(c, w, events[0]);
      RunEverRecorded(c, Step(c, w, events[0]), events[1..]);
    }
  }

  /** Over every run: a served session has been owned, and its live owner is the one recorded last, or nobody exactly if
   *  that owner's entry is gone. */
  lemma ServedOwner(c: Limits, events: seq<Event>, i: string, x: string, s: string, now: real)
    requires var w := Run(c, Initial(), events);
             w.now <= now && AfterGet(B(c), w.memory.bindings, BindingKey(i, x), now).1 == Some(s)
    ensures var w := Run(c, Initial(), events);
            s in w.record && OwnerAt(c, w.memory, s, now) == if OwnerGone(c, w, s, now) then None else Some(w.record[s])
  {
    RunKeeps(c, Initial(), events);
    RunEverRecorded(c, Initial(), events);
    ForeignOwnerIff(c, events, i, x, s, now);
    OwnerFoundIff(c, Run(c, Initial(), events), s, now);
  }

  // ---- It happens ----

  /** One identity finalises a session, refreshes it by claiming it as its own, and binds it in a later section; between
   *  the two deadlines another identity finalises it. */
  function Takeover(a: string, b: string, x: string, s: string, read: real, bound: real, taken: real): seq<Event> {
    [FinalizeClaim(a, s, 0.0), Prefer(0, a, x, s, read), Bind(0, bound), FinalizeClaim(b, s, taken)]
  }

  lemma {:induction false} RunFour(c: Limits, w: World, e: Event, f: Event, g: Event, h: Event)
    ensures Run(c, w, [e, f, g, h]) == Step(c, Step(c, Step(c, Step(c, w, e), f), g), h)
  {
    assert [h][1..] == [] && [g, h][1..] == [h] && [f, g, h][1..] == [g, h] && [e, f, g, h][1..] == [f, g, h];
    assert Run(c, Step(c, Step(c, Step(c, w, e), f), g), [h]) == Step(c, Step(c, Step(c, Step(c, w, e), f), g), h);
    assert Run(c, Step(c, Step(c, w, e), f), [g, h]) == Run(c, Step(c, Step(c, Step(c, w, e), f), g), [h]);
  }

  lemma FirstEntry(c: Config, k: Key, value: string, now: real)
    requires Enabled(c)
    ensures AfterSet(c, [], k, value, now) == [Entry(k, value, now + c.ttl as real)]
  {
  }

  lemma OneEntry(c: Config, e: Entry, now: real)
    requires Enabled(c)
    ensures AfterGet(c, [e], e.key, now)
            == if e.expiresAt <= now then ([], None)
               else ([if c.refreshOnGet then Entry(e.key, e.value, now + c.ttl as real) else e], Some(e.value))
  {
    assert [e][1..] == [] && Find([e], e.key) == Some(e) && Without([e], e.key) == [];
    var f := Entry(e.key, e.value, now + c.ttl as real);
    assert Put([e], f) == [f] + [e][1..] == [f];
  }

  lemma FirstFinalize(c: Limits, w: World, i: string, s: string, at: real)
    requires c.ttl > 0 && c.maxsize > 0 && w.now <= at && w.memory.claims == map[]
    requires w.memory.owners == [] || exists e :: w.memory.owners == [e] && e.key == SessionKey(s) && e.expiresAt <= at
    ensures Step(c, w, FinalizeClaim(i, s, at)).memory == w.memory.(owners := [Entry(SessionKey(s), i, at + c.ttl as real)])
  {
    if w.memory.owners != [] {
      OneEntry(O(c), w.memory.owners[0], at);
    }
    FirstEntry(O(c), SessionKey(s), i, at);
    assert R.Pruned(w.memory.claims, at) == map[] && R.Cleared(map[], s, Some(i)) == map[];
  }

  lemma OwnerPrefers(c: Limits, w: World, a: string, x: string, s: string, at: real, deadline: real)
    requires c.ttl > 0 && c.maxsize > 0 && w.now <= at < deadline && 0 !in w.active && w.memory.claims == map[]
    requires w.memory.owners == [Entry(SessionKey(s), a, deadline)]
    ensures var v := Step(c, w, Prefer(0, a, x, s, at));
            && v.memory == w.memory.(owners := [Entry(SessionKey(s), a, at + c.ttl as real)])
            && v.active == w.active[0 := Pending(a, x, s)]
  {
    OneEntry(O(c), Entry(SessionKey(s), a, deadline), at);
    assert R.Pruned(w.memory.claims, at) == map[];
  }

  /** From the start: a session is served to one identity while it is owned by another. */
  lemma ForeignOwnerIsReachable(c: Limits, a: string, b: string, x: string, s: string, read: real, bound: real, taken: real)
    requires c.ttl > 0 && c.maxsize > 0 && a != b && a != ""
    requires 0.0 <= read < c.ttl as real && read <= bound <= taken && read + c.ttl as real <= taken < bound + c.ttl as real
    ensures var w := Run(c, Initial(), Takeover(a, b, x, s, read, bound, taken));
            && AfterGet(B(c), w.memory.bindings, BindingKey(a, x), taken).1 == Some(s)
            && OwnerAt(c, w.memory, s, taken) == Some(b)
  {
    var es := Takeover(a, b, x, s, read, bound, taken);
    RunFour(c, Initial(), es[0], es[1], es[2], es[3]);
    var w1 := Step(c, Initial(), es[0]);
    FirstFinalize(c, Initial(), a, s, 0.0);
    var w2 := Step(c, w1, es[1]);
    OwnerPrefers(c, w1, a, x, s, read, 0.0 + c.ttl as real);
    var w3 := Step(c, w2, es[2]);
    FirstEntry(B(c), BindingKey(a, x), s, bound);
    assert w3.memory.bindings == [Entry(BindingKey(a, x), s, bound + c.ttl as real)];
    assert w3.memory.owners == [Entry(SessionKey(s), a, read + c.ttl as real)];
    FirstFinalize(c, w3, b, s, taken);
    OneEntry(B(c), Entry(BindingKey(a, x), s, bound + c.ttl as real), taken);
    OneEntry(O(c), Entry(SessionKey(s), b, taken + c.ttl as real), taken);
  }
}

/** Both interrupt registries refine one timed map, and where they differ. */
module InterruptRefinement {
  import opened Basics
  import opened InterruptRegistry

  datatype Op =
    | Remember(id: string, body: Body, ttl: Option<real>, at: real)
    | Resolve(id: string, at: real)
    | Discard(id: string, at: real)
    | ListPending(identity: string, interruptType: Option<string>, at: real)

  datatype Reply = Done | Resolved(status: Status) | Pending(bindings: set<Binding>)

  /** The timed map: what was last remembered for each id, until it is discarded. */
  type Timed = map<string, Binding>

  function TimedStep(c: Settings, m: Timed, op: Op): Timed {
    match op
    case Remember(id, body, ttl, now) => m[id := Binding(id, body, Deadline(c, now, ttl))]
    case Discard(id, _) => m - {id}
    case _ => m
  }

  predicate LiveAt(m: Timed, id: string, now: real) {
    id in m && m[id].expiresAt > now
  }

  function TimedPending(m: Timed, identity: string, interruptType: Option<string>, now: real): set<Binding> {
    set id | id in m && Listed(m[id], identity, interruptType, now) :: m[id]
  }

  function MemoryStep(c: Settings, m: Memory, op: Op): (Memory, Reply) {
    match op
    case Remember(id, body, ttl, now) => (MemoryRemember(c, m, id, body, ttl, now), Done)
    case Resolve(id, now) => var (t, status) := MemoryResolve(c, m, id, now); (t, Resolved(status))
    case Discard(id, _) => (MemoryDiscard(m, id), Done)
    case ListPending(i, k, now) => var (t, bindings) := MemoryList(c, m, i, k, now); (t, Pending(bindings))
  }

  function DatabaseStep(c: Settings, t: Table, op: Op): (Table, Reply) {
    match op
    case Remember(id, body, ttl, now) => (DatabaseRemember(c, t, id, body, ttl, now), Done)
    case Resolve(id, now) => var (u, status) := DatabaseResolve(c, t, id, now); (u, Resolved(status))
    case Discard(id, _) => (t - {id}, Done)
    case ListPending(i, k, now) => var (u, bindings) := DatabaseList(t, i, k, now); (u, Pending(bindings))
  }

  datatype Worlds = Worlds(memory: Memory, table: Table, timed: Timed)

  function Step(c: Settings, w: Worlds, op: Op): Worlds {
    Worlds(MemoryStep(c, w.memory, op).0, DatabaseStep(c, w.table, op).0, TimedStep(c, w.timed, op))
  }

  function Run(c: Settings, w: Worlds, ops: seq<Op>): Worlds
    decreases |ops|
  {
    if ops == [] then w else Run(c, Step(c, w, ops[0]), ops[1..])
  }

  const Empty := Worlds(Memory(map[], map[]), map[], map[])

  predicate Monotone(ops: seq<Op>, since: real) {
    && (forall i :: 0 <= i < |ops| ==> since <= ops[i].at)
    && forall i, j :: 0 <= i < j < |ops| ==> ops[i].at <= ops[j].at
  }

  predicate RowFits(row: Row, b: Binding, now: real) {
    if row.expiresAt.Some? then row == Row(Some(b.body), Some(b.expiresAt), None)
    else row.body.None? && b.expiresAt <= now
  }

  /** Memory holds every live request, and nothing else but dead ones; tombstones, in either registry, stand for dead
      requests; and whenever memory can still answer "expired" so can the database, whose tombstones are written no
      earlier. */
  ghost predicate Related(c: Settings, w: Worlds, now: real) {
    forall id :: RelatedAt(c, w, id, now)
  }

  /** The replies a caller can tell apart: equal, except that the database may still say "expired" where memory has
      already forgotten. */
  predicate Agree(memory: Reply, database: Reply) {
    memory == database || (memory == Resolved(Missing) && database == Resolved(Expired))
  }

  /** What pruning leaves, id by id: live requests, and tombstones of what has just died or had not expired yet. */
  predicate PrunedAt(c: Settings, m: Memory, t: Memory, id: string, now: real) {
    var dies := id in m.requests && m.requests[id].expiresAt <= now;
    && (id in t.requests <==> id in m.requests && !dies)
    && (id in t.requests ==> t.requests[id] == m.requests[id])
    && (id in t.tombstones <==> if dies then c.tombstoneTtl > 0.0 else id in m.tombstones && m.tombstones[id] > now)
    && (id in t.tombstones ==> t.tombstones[id] == if dies then now + c.tombstoneTtl else m.tombstones[id])
  }

  lemma PruningAt(c: Settings, m: Memory, id: string, now: real)
    ensures PrunedAt(c, m, PrunedTombstones(PrunedRequests(c, m, now), now), id, now)
  {
  }

  /** A resolve of a held request leaves memory pruned as well. */
  lemma ResolvePrunes(c: Settings, m: Memory, id: string, now: real, x: string)
    requires id != ""
    ensures if id in m.requests then PrunedAt(c, m, MemoryResolve(c, m, id, now).0, x, now)
            else MemoryAt(m, MemoryResolve(c, m, id, now).0, x, now)
  {
  }

  /** One id of memory after a resolve that found nothing: only its tombstone may have been pruned. */
  predicate MemoryAt(m: Memory, t: Memory, id: string, now: real) {
    && (id in t.requests <==> id in m.requests)
    && (id in t.requests ==> t.requests[id] == m.requests[id])
    && (id in t.tombstones <==> id in m.tombstones && m.tombstones[id] > now)
    && (id in t.tombstones ==> t.tombstones[id] == m.tombstones[id])
  }

  /** One id seen by both registries and the timed map. */
  predicate RelatedAt(c: Settings, w: Worlds, id: string, now: real) {
    var m, t, timed := w.memory, w.table, w.timed;
    && (id in m.requests ==> id in timed && m.requests[id] == timed[id] && id in t && t[id].expiresAt.Some?)
    && (LiveAt(timed, id, now) ==> id in m.requests && id !in m.tombstones && id in t && t[id].expiresAt.Some?)
    && (id in m.tombstones ==>
          && id in timed && id in t && m.tombstones[id] <= now + c.tombstoneTtl && c.tombstoneTtl > 0.0
          && (t[id].expiresAt.Some? || (t[id].tombstoneExpiresAt.Some? && m.tombstones[id] <= t[id].tombstoneExpiresAt.value)))
    && (id in t ==> id in timed && RowFits(t[id], timed[id], now))
    && (id in timed ==> timed[id].requestId == id)
  }

  lemma StepRelatedAt(c: Settings, w: Worlds, op: Op, since: real, x: string)
    requires RelatedAt(c, w, x, since) && since <= op.at
    ensures RelatedAt(c, Step(c, w, op), x, op.at)
  {
    match op
    case Remember(id, _, _, now) => PruningAt(c, w.memory, x, now);
    case Resolve(id, now) =>
      if id != "" {
        ResolvePrunes(c, w.memory, id, now, x);
        ResolveRelatedAt(c, w, id, now, since, x);
      }
    case Discard(id, _) =>
    case ListPending(_, _, now) => PruningAt(c, w.memory, x, now);
  }

  lemma ResolveRelatedAt(c: Settings, w: Worlds, id: string, now: real, since: real, x: string)
    requires RelatedAt(c, w, x, since) && since <= now && id != ""
    requires PrunedAt(c, w.memory, MemoryResolve(c, w.memory, id, now).0, x, now)
             || MemoryAt(w.memory, MemoryResolve(c, w.memory, id, now).0, x, now)
    ensures RelatedAt(c, Step(c, w, Resolve(id, now)), x, now)
  {
    var t := DatabaseResolve(c, w.table, id, now).0;
    assert x != id ==> (x in t <==> x in PrunedTable(w.table, now)) && (x in t ==> t[x] == w.table[x]);
  }

  lemma {:induction false} RunRelated(c: Settings, w: Worlds, ops: seq<Op>, since: real)
    requires Related(c, w, since) && Monotone(ops, since)
    ensures Related(c, Run(c, w, ops), if ops == [] then since else ops[|ops| - 1].at)
    decreases |ops|
  {
    if ops != [] {
      forall x
        ensures RelatedAt(c, Step(c, w, ops[0]), x, ops[0].at)
      {
        assert RelatedAt(c, w, x, since);
        StepRelatedAt(c, w, ops[0], since, x);
      }
      RunRelated(c, Step(c, w, ops[0]), ops[1..], ops[0].at);
    }
  }

  /** After any operations with a non-decreasing clock, both registries report the same ids active with the same binding,
      exactly those the timed map holds alive; an id reported expired was remembered and has passed its deadline; and
      the only possible disagreement is memory saying "missing" where the database says "expired". */
  lemma RegistriesAgreeOnResolve(c: Settings, ops: seq<Op>, id: string, now: real)
    requires Monotone(ops + [Resolve(id, now)], 0.0)
    ensures var w := Run(c, Empty, ops);
            var m, d := MemoryResolve(c, w.memory, id, now).1, DatabaseResolve(c, w.table, id, now).1;
            && Agree(Resolved(m), Resolved(d))
            && (m.Active? <==> d.Active?) && (m.Active? <==> id != "" && LiveAt(w.timed, id, now))
            && (m.Active? ==> m.binding == d.binding == w.timed[id])
            && (d.Expired? ==> id in w.timed && w.timed[id].expiresAt <= now)
  {
    MonotonePrefix(ops, Resolve(id, now));
    RunRelated(c, Empty, ops, 0.0);
    var w := Run(c, Empty, ops);
    ResolveAgrees(c, w, id, now, if ops == [] then 0.0 else ops[|ops| - 1].at);
  }

  lemma MonotonePrefix(ops: seq<Op>, op: Op)
    requires Monotone(ops + [op], 0.0)
    ensures Monotone(ops, 0.0) && 0.0 <= op.at && (ops != [] ==> ops[|ops| - 1].at <= op.at)
  {
    var all := ops + [op];
    assert all[|ops|] == op && forall i :: 0 <= i < |ops| ==> all[i] == ops[i];
  }

  lemma ResolveAgrees(c: Settings, w: Worlds, id: string, now: real, since: real)
    requires Related(c, w, since) && since <= now
    ensures var m, d := MemoryResolve(c, w.memory, id, now).1, DatabaseResolve(c, w.table, id, now).1;
            && Agree(Resolved(m), Resolved(d))
            && (m.Active? <==> d.Active?) && (m.Active? <==> id != "" && LiveAt(w.timed, id, now))
            && (m.Active? ==> m.binding == d.binding == w.timed[id])
            && (d.Expired? ==> id in w.timed && w.timed[id].expiresAt <= now)
  {
    assert RelatedAt(c, w, id, since);
  }

  /** Both registries list the same pending requests, in the same order. */
  lemma RegistriesListTheSame(c: Settings, ops: seq<Op>, identity: string, interruptType: Option<string>, now: real,
                              inMemory: seq<Binding>, inDatabase: seq<Binding>)
    requires Monotone(ops + [ListPending(identity, interruptType, now)], 0.0)
    requires var w := Run(c, Empty, ops);
             && IsListing(inMemory, MemoryList(c, w.memory, identity, interruptType, now).1)
             && IsListing(inDatabase, DatabaseList(w.table, identity, interruptType, now).1)
    ensures inMemory == inDatabase
    ensures IsListing(inMemory, TimedPending(Run(c, Empty, ops).timed, identity, interruptType, now))
  {
    MonotonePrefix(ops, ListPending(identity, interruptType, now));
    RunRelated(c, Empty, ops, 0.0);
    var w := Run(c, Empty, ops);
    ListsAgree(c, w, identity, interruptType, now, if ops == [] then 0.0 else ops[|ops| - 1].at);
    ListingIsUnique(inMemory, inDatabase, TimedPending(w.timed, identity, interruptType, now));
  }

  lemma ListsAgree(c: Settings, w: Worlds, identity: string, interruptType: Option<string>, now: real, since: real)
    requires Related(c, w, since) && since <= now
    ensures var pending := TimedPending(w.timed, identity, interruptType, now);
            && MemoryList(c, w.memory, identity, interruptType, now).1 == pending
            && DatabaseList(w.table, identity, interruptType, now).1 == pending
  {
    var pending := TimedPending(w.timed, identity, interruptType, now);
    var inMemory := MemoryList(c, w.memory, identity, interruptType, now).1;
    var inTable := DatabaseList(w.table, identity, interruptType, now).1;
    forall b | b in pending
      ensures b in inMemory && b in inTable
    {
      var id :| id in w.timed && Listed(w.timed[id], identity, interruptType, now) && w.timed[id] == b;
      assert RelatedAt(c, w, id, since) && LiveAt(w.timed, id, since);
      PruningAt(c, w.memory, id, now);
      var t := DatabaseList(w.table, identity, interruptType, now).0;
      assert id in t && t[id] == Row(Some(b.body), Some(b.expiresAt), None) && b == Binding(id, b.body, b.expiresAt);
    }
    forall b | b in inMemory
      ensures b in pending
    {
      var t := MemoryList(c, w.memory, identity, interruptType, now).0;
      var id :| id in t.requests && Listed(t.requests[id], identity, interruptType, now) && t.requests[id] == b;
      PruningAt(c, w.memory, id, now);
      assert RelatedAt(c, w, id, since);
    }
    forall b | b in inTable
      ensures b in pending
    {
      var id :| id in w.table && w.table[id].body.Some? && w.table[id].expiresAt.Some?
                && b == Binding(id, w.table[id].body.value, w.table[id].expiresAt.value);
      assert RelatedAt(c, w, id, since);
    }
  }

  lemma {:induction false} DeadStaysDead(c: Settings, w: Worlds, ops: seq<Op>, id: string, now: real, later: real)
    requires !LiveAt(w.timed, id, now) && Monotone(ops, now) && (ops != [] ==> ops[|ops| - 1].at <= later) && now <= later
    requires forall op :: op in ops ==> !(op.Remember? && op.id == id)
    ensures !LiveAt(Run(c, w, ops).timed, id, later)
    decreases |ops|
  {
    if ops != [] {
      assert ops[0] in ops;
      DeadStaysDead(c, Step(c, w, ops[0]), ops[1..], id, ops[0].at, later);
    }
  }

  /** Once either registry has not answered "active", neither answers it again for that request, whatever happens in
      between, unless it is remembered anew. */
  lemma ExpiredStaysExpired(c: Settings, ops: seq<Op>, more: seq<Op>, id: string, now: real, later: real)
    requires Monotone(ops, 0.0) && 0.0 <= now <= later && (ops != [] ==> ops[|ops| - 1].at <= now)
    requires Monotone(more, now) && (more != [] ==> more[|more| - 1].at <= later)
    requires forall op :: op in more ==> !(op.Remember? && op.id == id)
    requires var w := Run(c, Empty, ops);
             !MemoryResolve(c, w.memory, id, now).1.Active? || !DatabaseResolve(c, w.table, id, now).1.Active?
    ensures var v := Run(c, Run(c, Empty, ops), more);
            !MemoryResolve(c, v.memory, id, later).1.Active? && !DatabaseResolve(c, v.table, id, later).1.Active?
  {
    var w, since := Run(c, Empty, ops), if ops == [] then 0.0 else ops[|ops| - 1].at;
    RunRelated(c, Empty, ops, 0.0);
    ResolveAgrees(c, w, id, now, since);
    if id != "" {
      DeadStaysDead(c, w, more, id, now, later);
    }
    RunRelated(c, w, more, since);
    ResolveAgrees(c, Run(c, w, more), id, later, if more == [] then since else more[|more| - 1].at);
  }

  /** The registries can disagree: listing at `t` makes memory bury an expired request, and once that tombstone has
      expired in turn memory has forgotten a request the database still calls expired. */
  lemma MemoryForgetsFirst(c: Settings, id: string, body: Body, identity: string, deadline: real, t: real, later: real)
    requires id != "" && c.tombstoneTtl > 0.0 && 0.0 <= deadline <= t && t + c.tombstoneTtl <= later
    ensures var w := Run(c, Empty, [Remember(id, body, Some(deadline), 0.0), ListPending(identity, None, t)]);
            MemoryResolve(c, w.memory, id, later).1 == Missing && DatabaseResolve(c, w.table, id, later).1 == Expired
  {
    var first, second := Remember(id, body, Some(deadline), 0.0), ListPending(identity, None, t);
    var w1 := Step(c, Empty, first);
    var w2 := Step(c, w1, second);
    assert [first, second][1..] == [second] && [second][1..] == [];
    assert Run(c, w1, [second]) == w2 && Run(c, Empty, [first, second]) == w2;
    assert id !in w2.memory.requests && w2.memory.tombstones[id] == t + c.tombstoneTtl;
    assert w2.table[id] == Row(Some(body), Some(deadline), None);
  }
}

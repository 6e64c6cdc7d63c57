/** When the two interrupt registries disagree, told from the history of operations alone. */
module InterruptDisagreement {
  import opened Basics
  import opened InterruptRegistry
  import opened InterruptRefinement

  /** What happened to each id since it was last remembered: its deadline, and when memory and the database noticed
      that it had passed. */
  datatype History = History(deadlines: map<string, real>, inMemory: map<string, real>, inTable: map<string, real>)

  const NoHistory := History(map[], map[], map[])

  predicate Passed(h: History, id: string, now: real) { id in h.deadlines && h.deadlines[id] <= now }

  /** Ids that memory still holds and would bury when it prunes now. */
  function Overdue(h: History, now: real): set<string> {
    set id | id in h.deadlines && Passed(h, id, now) && id !in h.inMemory
  }

  /** Memory prunes on every remember and list, and on a resolve of an id that it still holds. */
  predicate Prunes(h: History, op: Op) {
    match op
    case Remember(_, _, _, _) => true
    case ListPending(_, _, _) => true
    case Resolve(id, _) => id != "" && id in h.deadlines && id !in h.inMemory
    case Discard(_, _) => false
  }

  /** The database notices only the id it resolves. */
  predicate Notices(h: History, op: Op, id: string) {
    op == Resolve(id, op.at) && id != "" && Passed(h, id, op.at) && id !in h.inTable
  }

  function HistoryStep(c: Settings, h: History, op: Op): History {
    var buried := if Prunes(h, op) then h.inMemory + map id | id in Overdue(h, op.at) :: op.at else h.inMemory;
    match op
    case Remember(id, _, ttl, now) => History(h.deadlines[id := Deadline(c, now, ttl)], buried - {id}, h.inTable - {id})
    case Discard(id, _) => History(h.deadlines - {id}, buried - {id}, h.inTable - {id})
    case Resolve(id, now) => History(h.deadlines, buried, if Notices(h, op, id) then h.inTable[id := now] else h.inTable)
    case ListPending(_, _, _) => h.(inMemory := buried)
  }

  function HistoryRun(c: Settings, h: History, ops: seq<Op>): History
    decreases |ops|
  {
    if ops == [] then h else HistoryRun(c, HistoryStep(c, h, ops[0]), ops[1..])
  }

  // ---- The history tells the registries' states ----

  /** Memory notices first, or at the same resolve. */
  predicate Recorded(c: Settings, w: Worlds, h: History, id: string, now: real) {
    && (id in w.timed <==> id in h.deadlines)
    && (id in w.timed ==> w.timed[id].requestId == id && w.timed[id].expiresAt == h.deadlines[id])
    && (id in h.inTable ==> id in h.inMemory && h.inMemory[id] <= h.inTable[id])
    && MemoryRecorded(c, w.memory, w.timed, h, id, now)
    && TableRecorded(c, w.table, w.timed, h, id, now)
  }

  /** Memory holds a request until it buries it, and the tombstone from then on for its lifetime. */
  predicate MemoryRecorded(c: Settings, m: Memory, timed: Timed, h: History, id: string, now: real) {
    && (id in m.requests <==> id in h.deadlines && id !in h.inMemory)
    && (id in m.requests ==> id in timed && m.requests[id] == timed[id])
    && (id in h.inMemory ==> Passed(h, id, h.inMemory[id]) && h.inMemory[id] <= now)
    && (id in m.tombstones ==> id in h.inMemory && m.tombstones[id] == h.inMemory[id] + c.tombstoneTtl)
    && (id in h.inMemory && h.inMemory[id] + c.tombstoneTtl > now ==> id in m.tombstones)
  }

  /** The database keeps the row until it notices, and the tombstone from then on for its lifetime. */
  predicate TableRecorded(c: Settings, t: Table, timed: Timed, h: History, id: string, now: real) {
    && (id in t && t[id].expiresAt.Some? <==> id in h.deadlines && id !in h.inTable)
    && (id in t && t[id].expiresAt.Some? ==> id in timed && t[id] == Row(Some(timed[id].body), Some(timed[id].expiresAt), None))
    && (id in h.inTable ==> Passed(h, id, h.inTable[id]) && h.inTable[id] <= now)
    && (id in t && t[id].expiresAt.None? ==>
          && id in h.inTable && t[id].body.None?
          && t[id].tombstoneExpiresAt == if c.tombstoneTtl > 0.0 then Some(h.inTable[id] + c.tombstoneTtl) else None)
    && (id in h.inTable && h.inTable[id] + c.tombstoneTtl > now ==> id in t)
  }

  ghost predicate AllRecorded(c: Settings, w: Worlds, h: History, now: real) {
    forall id :: Recorded(c, w, h, id, now)
  }

  lemma StepMemoryRecorded(c: Settings, w: Worlds, h: History, op: Op, since: real, x: string)
    requires AllRecorded(c, w, h, since) && since <= op.at
    ensures MemoryRecorded(c, MemoryStep(c, w.memory, op).0, TimedStep(c, w.timed, op), HistoryStep(c, h, op), x, op.at)
  {
    assert Recorded(c, w, h, x, since);
    match op
    case Remember(id, _, _, now) => PruningAt(c, w.memory, x, now);
    case Resolve(id, now) =>
      assert Recorded(c, w, h, id, since);
      if id != "" {
        ResolveMemoryRecorded(c, w, h, id, now, since, x);
      }
    case Discard(id, _) =>
    case ListPending(_, _, now) => PruningAt(c, w.memory, x, now);
  }

  lemma ResolveMemoryRecorded(c: Settings, w: Worlds, h: History, id: string, now: real, since: real, x: string)
    requires Recorded(c, w, h, x, since) && Recorded(c, w, h, id, since) && since <= now && id != ""
    ensures MemoryRecorded(c, MemoryResolve(c, w.memory, id, now).0, w.timed, HistoryStep(c, h, Resolve(id, now)), x, now)
  {
    ResolvePrunes(c, w.memory, id, now, x);
    var m, g := MemoryResolve(c, w.memory, id, now).0, HistoryStep(c, h, Resolve(id, now));
    assert id in w.memory.requests <==> Prunes(h, Resolve(id, now));
    if id in w.memory.requests {
      assert PrunedHistory(h, g, x, now);
      PrunedRecorded(c, w.memory, m, w.timed, h, g, x, since, now);
    } else {
      UnprunedRecorded(c, w.memory, m, w.timed, h, g, x, since, now);
    }
  }

  /** One id of the history after memory has pruned: what was overdue is noticed now. */
  predicate PrunedHistory(h: History, g: History, x: string, now: real) {
    && g.deadlines == h.deadlines
    && (x in g.inMemory <==> x in h.inMemory || x in Overdue(h, now))
    && (x in g.inMemory ==> g.inMemory[x] == if x in Overdue(h, now) then now else h.inMemory[x])
  }

  lemma PrunedRecorded(c: Settings, m: Memory, n: Memory, timed: Timed, h: History, g: History, x: string, since: real, now: real)
    requires MemoryRecorded(c, m, timed, h, x, since) && since <= now
    requires x in timed ==> x in h.deadlines && timed[x].expiresAt == h.deadlines[x]
    requires PrunedAt(c, m, n, x, now) && PrunedHistory(h, g, x, now)
    ensures MemoryRecorded(c, n, timed, g, x, now)
  {
  }

  lemma UnprunedRecorded(c: Settings, m: Memory, n: Memory, timed: Timed, h: History, g: History, x: string, since: real, now: real)
    requires MemoryRecorded(c, m, timed, h, x, since) && since <= now
    requires MemoryAt(m, n, x, now) && g.deadlines == h.deadlines && g.inMemory == h.inMemory
    ensures MemoryRecorded(c, n, timed, g, x, now)
  {
  }

  lemma StepTableRecorded(c: Settings, w: Worlds, h: History, op: Op, since: real, x: string)
    requires Recorded(c, w, h, x, since) && since <= op.at
    ensures TableRecorded(c, DatabaseStep(c, w.table, op).0, TimedStep(c, w.timed, op), HistoryStep(c, h, op), x, op.at)
  {
    match op
    case Resolve(id, now) => ResolveTableRecorded(c, w, h, id, now, since, x);
    case _ =>
  }

  lemma ResolveTableRecorded(c: Settings, w: Worlds, h: History, id: string, now: real, since: real, x: string)
    requires Recorded(c, w, h, x, since) && since <= now
    ensures TableRecorded(c, DatabaseResolve(c, w.table, id, now).0, w.timed, HistoryStep(c, h, Resolve(id, now)), x, now)
  {
  }

  lemma StepRecorded(c: Settings, w: Worlds, h: History, op: Op, since: real, x: string)
    requires AllRecorded(c, w, h, since) && since <= op.at
    ensures Recorded(c, Step(c, w, op), HistoryStep(c, h, op), x, op.at)
  {
    assert Recorded(c, w, h, x, since);
    StepMemoryRecorded(c, w, h, op, since, x);
    StepTableRecorded(c, w, h, op, since, x);
    StepOrdered(c, w, h, op, since, x);
  }

  lemma StepOrdered(c: Settings, w: Worlds, h: History, op: Op, since: real, x: string)
    requires Recorded(c, w, h, x, since) && since <= op.at
    ensures var m, g := TimedStep(c, w.timed, op), HistoryStep(c, h, op);
            && (x in m <==> x in g.deadlines) && (x in m ==> m[x].requestId == x && m[x].expiresAt == g.deadlines[x])
            && (x in g.inTable ==> x in g.inMemory && g.inMemory[x] <= g.inTable[x])
  {
  }

  lemma {:induction false} RunRecorded(c: Settings, w: Worlds, h: History, ops: seq<Op>, since: real)
    requires AllRecorded(c, w, h, since) && Monotone(ops, since)
    ensures AllRecorded(c, Run(c, w, ops), HistoryRun(c, h, ops), if ops == [] then since else ops[|ops| - 1].at)
    decreases |ops|
  {
    if ops != [] {
      forall x
        ensures Recorded(c, Step(c, w, ops[0]), HistoryStep(c, h, ops[0]), x, ops[0].at)
      {
        StepRecorded(c, w, h, ops[0], since, x);
      }
      RunRecorded(c, Step(c, w, ops[0]), HistoryStep(c, h, ops[0]), ops[1..], ops[0].at);
    }
  }

  // ---- The exact condition ----

  /** Memory buried the request so early that its tombstone is gone, and the database has either not noticed yet or
      noticed so late that its own tombstone still stands. */
  predicate ForgottenByMemoryOnly(c: Settings, h: History, id: string, now: real) {
    && id in h.inMemory && h.inMemory[id] + c.tombstoneTtl <= now
    && (id in h.inTable ==> h.inTable[id] + c.tombstoneTtl > now)
  }

  lemma DisagreeAt(c: Settings, w: Worlds, h: History, id: string, now: real, since: real)
    requires Recorded(c, w, h, id, since) && since <= now
    ensures MemoryResolve(c, w.memory, id, now).1 != DatabaseResolve(c, w.table, id, now).1 <==>
            id != "" && ForgottenByMemoryOnly(c, h, id, now)
  {
  }

  /** After any operations with a non-decreasing clock, the registries answer a resolve differently exactly when memory
      buried the request at least a tombstone's lifetime ago while the database has not noticed, or noticed less long
      ago. */
  lemma RegistriesDisagreeIff(c: Settings, ops: seq<Op>, id: string, now: real)
    requires Monotone(ops + [Resolve(id, now)], 0.0)
    ensures var w, h := Run(c, Empty, ops), HistoryRun(c, NoHistory, ops);
            MemoryResolve(c, w.memory, id, now).1 != DatabaseResolve(c, w.table, id, now).1 <==>
            id != "" && ForgottenByMemoryOnly(c, h, id, now)
  {
    MonotonePrefix(ops, Resolve(id, now));
    forall x
      ensures Recorded(c, Empty, NoHistory, x, 0.0)
    {
    }
    RunRecorded(c, Empty, NoHistory, ops, 0.0);
    var w, h, since := Run(c, Empty, ops), HistoryRun(c, NoHistory, ops), if ops == [] then 0.0 else ops[|ops| - 1].at;
    assert Recorded(c, w, h, id, since);
    DisagreeAt(c, w, h, id, now, since);
  }

  /** The same in terms of what the registries hold before the call. */
  lemma RegistriesDisagreeIffHeld(c: Settings, ops: seq<Op>, id: string, now: real)
    requires Monotone(ops + [Resolve(id, now)], 0.0)
    ensures var m, t := Run(c, Empty, ops).memory, Run(c, Empty, ops).table;
            MemoryResolve(c, m, id, now).1 != DatabaseResolve(c, t, id, now).1 <==>
            && id != "" && id !in m.requests && !(id in m.tombstones && m.tombstones[id] > now)
            && id in t && (t[id].expiresAt.Some? || (t[id].tombstoneExpiresAt.Some? && t[id].tombstoneExpiresAt.value > now))
  {
    MonotonePrefix(ops, Resolve(id, now));
    RunRelated(c, Empty, ops, 0.0);
    assert RelatedAt(c, Run(c, Empty, ops), id, if ops == [] then 0.0 else ops[|ops| - 1].at);
  }

  /** One remember and one late list, then nothing for a tombstone's lifetime: the condition is met, so the registries
      disagree. */
  lemma ListingForgets(c: Settings, id: string, body: Body, identity: string, deadline: real, t: real, later: real)
    requires id != "" && c.tombstoneTtl > 0.0 && 0.0 <= deadline <= t && t + c.tombstoneTtl <= later
    ensures var ops := [Remember(id, body, Some(deadline), 0.0), ListPending(identity, None, t)];
            var w := Run(c, Empty, ops);
            && ForgottenByMemoryOnly(c, HistoryRun(c, NoHistory, ops), id, later)
            && MemoryResolve(c, w.memory, id, later).1 != DatabaseResolve(c, w.table, id, later).1
  {
    var first, second := Remember(id, body, Some(deadline), 0.0), ListPending(identity, None, t);
    var h1 := HistoryStep(c, NoHistory, first);
    assert [first, second][1..] == [second] && [second][1..] == [];
    assert h1.deadlines == map[id := deadline] && id !in h1.inMemory;
    assert id in Overdue(h1, t);
    assert HistoryRun(c, h1, [second]) == HistoryStep(c, h1, second);
    assert Monotone([first, second] + [Resolve(id, later)], 0.0);
    RegistriesDisagreeIff(c, [first, second], id, later);
  }
}

/** The interrupt registries, in memory and in the database. */
module InterruptRegistry {
  import opened Basics

  /** What a remembered request carries besides its id and its deadline. */
  datatype Body = Body(
    sessionId: string,
    interruptType: string,
    identity: Option<string>,
    credentialId: Option<string>,
    taskId: Option<string>,
    contextId: Option<string>,
    details: Option<string>)

  datatype Binding = Binding(requestId: string, body: Body, expiresAt: real)

  datatype Status = Active(binding: Binding) | Expired | Missing

  datatype Settings = Settings(requestTtl: real, tombstoneTtl: real)

  function Deadline(c: Settings, now: real, ttl: Option<real>): real {
    var t := if ttl.Some? then ttl.value else c.requestTtl;
    now + if t > 0.0 then t else 0.0
  }

  /** The requested type is stripped before it is compared. */
  predicate Listed(b: Binding, identity: string, interruptType: Option<string>, now: real) {
    b.body.identity == Some(identity) && (interruptType.None? || b.body.interruptType == Strip(interruptType.value)) && b.expiresAt > now
  }

  // ---- The order of a listing ----

  predicate Precedes(a: Binding, b: Binding) {
    a.expiresAt < b.expiresAt || (a.expiresAt == b.expiresAt && TextLess(a.requestId, b.requestId))
  }

  /** A listing: exactly these bindings, each once, by deadline and then by request id. */
  ghost predicate IsListing(list: seq<Binding>, bindings: set<Binding>) {
    && (forall b :: b in list <==> b in bindings)
    && forall i, j :: 0 <= i < j < |list| ==> Precedes(list[i], list[j])
  }

  lemma PrecedesIsStrictOrder(a: Binding, b: Binding, c: Binding)
    ensures !Precedes(a, a)
    ensures a.requestId != b.requestId ==> Precedes(a, b) || Precedes(b, a)
    ensures Precedes(a, b) && Precedes(b, c) ==> Precedes(a, c)
    ensures !(Precedes(a, b) && Precedes(b, a))
  {
    TextOrder(a.requestId, a.requestId);
    TextOrder(a.requestId, b.requestId);
    if TextLess(a.requestId, b.requestId) && TextLess(b.requestId, c.requestId) {
      TextTransitive(a.requestId, b.requestId, c.requestId);
    }
  }

  lemma FirstIsLeast(list: seq<Binding>, bindings: set<Binding>, b: Binding)
    requires IsListing(list, bindings) && b in bindings
    ensures list != [] && (b == list[0] || Precedes(list[0], b))
  {
    var i :| 0 <= i < |list| && list[i] == b;
  }

  /** A set of bindings has at most one listing. */
  lemma {:induction false} ListingIsUnique(a: seq<Binding>, b: seq<Binding>, bindings: set<Binding>)
    requires IsListing(a, bindings) && IsListing(b, bindings)
    ensures a == b
    decreases |a|
  {
    if a == [] {
      assert forall x :: x in b ==> x in a;
      assert forall i :: 0 <= i < |b| ==> b[i] in b;
    } else {
      assert a[0] in a;
      FirstIsLeast(b, bindings, a[0]);
      assert b[0] in b;
      FirstIsLeast(a, bindings, b[0]);
      PrecedesIsStrictOrder(a[0], b[0], a[0]);
      TailIsListing(a, bindings);
      TailIsListing(b, bindings);
      ListingIsUnique(a[1..], b[1..], bindings - {a[0]});
      assert a == [a[0]] + a[1..] && b == [b[0]] + b[1..];
    }
  }

  lemma TailIsListing(list: seq<Binding>, bindings: set<Binding>)
    requires list != [] && IsListing(list, bindings)
    ensures IsListing(list[1..], bindings - {list[0]})
  {
    assert list == [list[0]] + list[1..];
    forall b | b in list[1..]
      ensures b != list[0]
    {
      var i :| 0 <= i < |list[1..]| && list[1..][i] == b;
      assert Precedes(list[0], list[i + 1]);
      PrecedesIsStrictOrder(b, b, b);
    }
  }

  /** Python's `sorted` on the selected bindings, as an insertion into a sorted list. */
  function InsertBinding(b: Binding, list: seq<Binding>): seq<Binding> {
    if list == [] || Precedes(b, list[0]) then [b] + list else [list[0]] + InsertBinding(b, list[1..])
  }

  lemma {:induction false} InsertLists(b: Binding, list: seq<Binding>, bindings: set<Binding>)
    requires IsListing(list, bindings) && forall x :: x in bindings ==> x.requestId != b.requestId
    ensures IsListing(InsertBinding(b, list), bindings + {b})
  {
    if list == [] {
    } else if Precedes(b, list[0]) {
      forall i | 0 <= i < |list|
        ensures Precedes(b, list[i])
      {
        PrecedesIsStrictOrder(b, list[0], list[i]);
      }
    } else {
      assert list[0] in list && list == [list[0]] + list[1..];
      PrecedesIsStrictOrder(b, list[0], b);
      TailIsListing(list, bindings);
      InsertLists(b, list[1..], bindings - {list[0]});
      var rest := InsertBinding(b, list[1..]);
      forall i | 0 <= i < |rest|
        ensures Precedes(list[0], rest[i])
      {
        assert rest[i] in rest;
        if rest[i] != b {
          var j :| 0 <= j < |list[1..]| && list[1..][j] == rest[i];
          assert list[j + 1] == rest[i];
        }
      }
      assert bindings - {list[0]} + {b} + {list[0]} == bindings + {b};
    }
  }

  method SortBindings(bindings: set<Binding>) returns (list: seq<Binding>)
    requires forall a, b :: a in bindings && b in bindings && a.requestId == b.requestId ==> a == b
    ensures IsListing(list, bindings)
  {
    list := [];
    var todo, done := bindings, {};
    while todo != {}
      invariant done <= bindings && todo == bindings - done
      invariant IsListing(list, done)
      decreases |todo|
    {
      var b :| b in todo;
      InsertLists(b, list, done);
      list, todo, done := InsertBinding(b, list), todo - {b}, done + {b};
    }
    assert done == bindings;
  }

  // ---- In memory ----

  datatype Memory = Memory(requests: map<string, Binding>, tombstones: map<string, real>)

  function PrunedRequests(c: Settings, m: Memory, now: real): Memory {
    var dead := set id | id in m.requests && m.requests[id].expiresAt <= now;
    Memory(m.requests - dead, Entombed(c, m.tombstones, dead, now))
  }

  function Entombed(c: Settings, tombstones: map<string, real>, ids: set<string>, now: real): map<string, real> {
    if c.tombstoneTtl <= 0.0 then tombstones - ids
    else tombstones + map id | id in ids :: now + c.tombstoneTtl
  }

  lemma EntombedTwice(c: Settings, tombstones: map<string, real>, ids: set<string>, id: string, now: real)
    ensures Entombed(c, Entombed(c, tombstones, ids, now), {id}, now) == Entombed(c, tombstones, ids + {id}, now)
  {
  }

  function PrunedTombstones(m: Memory, now: real): Memory {
    m.(tombstones := map id | id in m.tombstones && m.tombstones[id] > now :: m.tombstones[id])
  }

  function MemoryRemember(c: Settings, m: Memory, id: string, body: Body, ttl: Option<real>, now: real): Memory {
    var t := PrunedTombstones(PrunedRequests(c, m, now), now);
    Memory(t.requests[id := Binding(id, body, Deadline(c, now, ttl))], t.tombstones - {id})
  }

  function MemoryResolve(c: Settings, m: Memory, id: string, now: real): (Memory, Status) {
    if id == "" then (m, Missing)
    else
      var t := PrunedTombstones(m, now);
      if id !in t.requests then (t, if id in t.tombstones then Expired else Missing)
      else if t.requests[id].expiresAt <= now then
        var u := PrunedRequests(c, t.(requests := t.requests - {id}), now);
        (u.(tombstones := Entombed(c, u.tombstones, {id}, now)), Expired)
      else (PrunedRequests(c, t, now), Active(t.requests[id]))
  }

  function MemoryDiscard(m: Memory, id: string): Memory {
    Memory(m.requests - {id}, m.tombstones - {id})
  }

  function MemoryList(c: Settings, m: Memory, identity: string, interruptType: Option<string>, now: real): (Memory, set<Binding>) {
    var t := PrunedTombstones(PrunedRequests(c, m, now), now);
    (t, set id | id in t.requests && Listed(t.requests[id], identity, interruptType, now) :: t.requests[id])
  }

  class MemoryInterruptRequestRepository {
    const settings: Settings
    var requests: map<string, Binding>
    var tombstones: map<string, real>

    constructor (settings: Settings)
      ensures this.settings == settings && View() == Memory(map[], map[])
    {
      this.settings, requests, tombstones := settings, map[], map[];
    }

    ghost function View(): Memory
      reads this
    {
      Memory(requests, tombstones)
    }

    method PruneRequests(now: real)
      modifies this
      ensures View() == PrunedRequests(settings, old(View()), now)
    {
      var expired := set id | id in requests && requests[id].expiresAt <= now;
      ghost var dead, gone := expired, {};
      while expired != {}
        invariant gone <= dead && expired == dead - gone
        invariant requests == old(requests) - gone
        invariant tombstones == Entombed(settings, old(tombstones), gone, now)
        decreases |expired|
      {
        var id :| id in expired;
        requests := requests - {id};
        EntombedTwice(settings, old(tombstones), gone, id, now);
        RememberTombstone(id, now);
        expired, gone := expired - {id}, gone + {id};
      }
      assert gone == dead;
    }

    method PruneTombstones(now: real)
      modifies this`tombstones
      ensures View() == PrunedTombstones(old(View()), now)
    {
      tombstones := map id | id in tombstones && tombstones[id] > now :: tombstones[id];
    }

    method RememberTombstone(id: string, now: real)
      modifies this`tombstones
      ensures tombstones == Entombed(settings, old(tombstones), {id}, now)
    {
      if settings.tombstoneTtl <= 0.0 {
        tombstones := tombstones - {id};
        return;
      }
      tombstones := tombstones[id := now + settings.tombstoneTtl];
    }

    method Remember(id: string, body: Body, ttl: Option<real>, now: real)
      modifies this
      ensures View() == MemoryRemember(settings, old(View()), id, body, ttl, now)
    {
      PruneRequests(now);
      PruneTombstones(now);
      requests := requests[id := Binding(id, body, Deadline(settings, now, ttl))];
      tombstones := tombstones - {id};
    }

    method Resolve(id: string, now: real) returns (status: Status)
      modifies this
      ensures (View(), status) == MemoryResolve(settings, old(View()), id, now)
    {
      if id == "" {
        return Missing;
      }
      PruneTombstones(now);
      if id !in requests {
        return if id in tombstones then Expired else Missing;
      }
      var binding := requests[id];
      if binding.expiresAt <= now {
        requests := requests - {id};
        PruneRequests(now);
        RememberTombstone(id, now);
        return Expired;
      }
      PruneRequests(now);
      status := Active(binding);
    }

    method Discard(id: string)
      modifies this
      ensures View() == MemoryDiscard(old(View()), id)
    {
      requests := requests - {id};
      tombstones := tombstones - {id};
    }

    method ListPending(identity: string, interruptType: Option<string>, now: real) returns (list: seq<Binding>)
      requires forall id :: id in requests ==> requests[id].requestId == id
      modifies this
      ensures var (t, bindings) := MemoryList(settings, old(View()), identity, interruptType, now);
              View() == t && IsListing(list, bindings)
    {
      PruneRequests(now);
      PruneTombstones(now);
      list := SortBindings(set id | id in requests && Listed(requests[id], identity, interruptType, now) :: requests[id]);
    }
  }

  // ---- In the database ----

  /** A table row: either a remembered request, or a tombstone with every other column cleared. */
  datatype Row = Row(body: Option<Body>, expiresAt: Option<real>, tombstoneExpiresAt: Option<real>)

  type Table = map<string, Row>

  function PrunedTable(t: Table, now: real): Table {
    map id | id in t && !(t[id].tombstoneExpiresAt.Some? && t[id].tombstoneExpiresAt.value <= now) :: t[id]
  }

  function DatabaseRemember(c: Settings, t: Table, id: string, body: Body, ttl: Option<real>, now: real): Table {
    PrunedTable(t, now)[id := Row(Some(body), Some(Deadline(c, now, ttl)), None)]
  }

  function DatabaseResolve(c: Settings, table: Table, id: string, now: real): (Table, Status) {
    if id == "" then (table, Missing)
    else
      var t := PrunedTable(table, now);
      if id !in t then (t, Missing)
      else
        var row := t[id];
        if row.tombstoneExpiresAt.Some? && row.tombstoneExpiresAt.value > now then (t, Expired)
        else if row.expiresAt.None? || row.body.None? then (t, Missing)
        else if row.expiresAt.value <= now then
          (t[id := Row(None, None, if c.tombstoneTtl <= 0.0 then None else Some(now + c.tombstoneTtl))], Expired)
        else (t, Active(Binding(id, row.body.value, row.expiresAt.value)))
  }

  function DatabaseList(table: Table, identity: string, interruptType: Option<string>, now: real): (Table, set<Binding>) {
    var t := PrunedTable(table, now);
    (t, set id | id in t && t[id].body.Some? && t[id].expiresAt.Some?
              && Listed(Binding(id, t[id].body.value, t[id].expiresAt.value), identity, interruptType, now)
            :: Binding(id, t[id].body.value, t[id].expiresAt.value))
  }

  class DatabaseInterruptRequestRepository {
    const settings: Settings
    var rows: Table

    constructor (settings: Settings)
      ensures this.settings == settings && rows == map[]
    {
      this.settings, rows := settings, map[];
    }

    method PruneTombstones(now: real)
      modifies this
      ensures rows == PrunedTable(old(rows), now)
    {
      rows := map id | id in rows && !(rows[id].tombstoneExpiresAt.Some? && rows[id].tombstoneExpiresAt.value <= now) :: rows[id];
    }

    method Remember(id: string, body: Body, ttl: Option<real>, now: real)
      modifies this
      ensures rows == DatabaseRemember(settings, old(rows), id, body, ttl, now)
    {
      PruneTombstones(now);
      rows := rows[id := Row(Some(body), Some(Deadline(settings, now, ttl)), None)];
    }

    method Resolve(id: string, now: real) returns (status: Status)
      modifies this
      ensures (rows, status) == DatabaseResolve(settings, old(rows), id, now)
    {
      if id == "" {
        return Missing;
      }
      PruneTombstones(now);
      if id !in rows {
        return Missing;
      }
      var row := rows[id];
      if row.tombstoneExpiresAt.Some? && row.tombstoneExpiresAt.value > now {
        return Expired;
      }
      if row.expiresAt.None? || row.body.None? {
        return Missing;
      }
      if row.expiresAt.value <= now {
        rows := rows[id := Row(None, None, if settings.tombstoneTtl <= 0.0 then None else Some(now + settings.tombstoneTtl))];
        return Expired;
      }
      status := Active(Binding(id, row.body.value, row.expiresAt.value));
    }

    method Discard(id: string)
      modifies this
      ensures rows == old(rows) - {id}
    {
      rows := rows - {id};
    }

    method ListPending(identity: string, interruptType: Option<string>, now: real) returns (list: seq<Binding>)
      modifies this
      ensures var (t, bindings) := DatabaseList(old(rows), identity, interruptType, now);
              rows == t && IsListing(list, bindings)
    {
      PruneTombstones(now);
      list := SortBindings(
        set id | id in rows && rows[id].body.Some? && rows[id].expiresAt.Some?
                 && Listed(Binding(id, rows[id].body.value, rows[id].expiresAt.value), identity, interruptType, now)
               :: Binding(id, rows[id].body.value, rows[id].expiresAt.value));
    }
  }
}

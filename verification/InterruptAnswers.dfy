/** What the interrupt registries answer, read off the operations alone. */
module InterruptAnswers {
  import opened Basics
  import opened InterruptRegistry
  import opened InterruptRefinement

  /** The remember that is still in force for an id: the last one, unless a discard of the id came after it. */
  function LastRemembered(ops: seq<Op>, id: string): Option<Op> {
    if ops == [] then None
    else
      var op := ops[|ops| - 1];
      if op.Remember? && op.id == id then Some(op)
      else if op.Discard? && op.id == id then None
      else LastRemembered(ops[..|ops| - 1], id)
  }

  /** When a remembered request expires: after its own lifetime, or the default one; a negative lifetime is none. */
  function ExpiryOf(c: Settings, op: Op): real
    requires op.Remember?
  {
    if op.ttl.Some? then if op.ttl.value >= 0.0 then op.at + op.ttl.value else op.at
    else if c.requestTtl >= 0.0 then op.at + c.requestTtl
    else op.at
  }

  lemma {:induction false} LastIsRemember(ops: seq<Op>, id: string)
    ensures LastRemembered(ops, id).Some? ==> LastRemembered(ops, id).value.Remember? && LastRemembered(ops, id).value.id == id
  {
    if ops != [] {
      LastIsRemember(ops[..|ops| - 1], id);
    }
  }

  lemma {:induction false} RunSnoc(c: Settings, w: Worlds, ops: seq<Op>, op: Op)
    ensures Run(c, w, ops + [op]) == Step(c, Run(c, w, ops), op)
    decreases |ops|
  {
    if ops == [] {
      assert [] + [op] == [op] && [op][1..] == [];
    } else {
      assert (ops + [op])[1..] == ops[1..] + [op];
      RunSnoc(c, Step(c, w, ops[0]), ops[1..], op);
    }
  }

  lemma {:induction false} TimedIsLast(c: Settings, ops: seq<Op>, id: string)
    ensures var last := LastRemembered(ops, id);
            && (last.Some? ==> last.value.Remember?)
            && Lookup(Run(c, Empty, ops).timed, id)
               == if last.None? then None else Some(Binding(id, last.value.body, ExpiryOf(c, last.value)))
  {
    LastIsRemember(ops, id);
    if ops != [] {
      var past, op := ops[..|ops| - 1], ops[|ops| - 1];
      TimedIsLast(c, past, id);
      assert ops == past + [op];
      RunSnoc(c, Empty, past, op);
      StepAt(c, Run(c, Empty, past).timed, op, id);
    }
  }

  /** What one operation does to what is remembered for one id. */
  lemma StepAt(c: Settings, m: Timed, op: Op, id: string)
    ensures Lookup(TimedStep(c, m, op), id)
            == if op.Remember? && op.id == id then Some(Binding(id, op.body, ExpiryOf(c, op)))
               else if op.Discard? && op.id == id then None
               else Lookup(m, id)
  {
  }

  /** The binding is what its id was last remembered with. */
  predicate InForce(c: Settings, ops: seq<Op>, b: Binding) {
    var last := LastRemembered(ops, b.requestId);
    last.Some? && last.value.Remember? && b == Binding(b.requestId, last.value.body, ExpiryOf(c, last.value))
  }

  /** After any operations with a non-decreasing clock, either registry lists a binding exactly if it is in force, the
      caller's own, not past its deadline, and of the type asked for, if one was. */
  lemma ListedIff(c: Settings, ops: seq<Op>, identity: string, interruptType: Option<string>, now: real, b: Binding)
    requires Monotone(ops + [ListPending(identity, interruptType, now)], 0.0)
    ensures var w := Run(c, Empty, ops);
            var listed := && InForce(c, ops, b)
                          && b.body.identity == Some(identity)
                          && b.expiresAt > now
                          && (interruptType.None? || b.body.interruptType == Strip(interruptType.value));
            && (b in MemoryList(c, w.memory, identity, interruptType, now).1 <==> listed)
            && (b in DatabaseList(w.table, identity, interruptType, now).1 <==> listed)
  {
    MonotonePrefix(ops, ListPending(identity, interruptType, now));
    RunRelated(c, Empty, ops, 0.0);
    var w, since := Run(c, Empty, ops), if ops == [] then 0.0 else ops[|ops| - 1].at;
    ListsAgree(c, w, identity, interruptType, now, since);
    PendingIff(c, w, ops, identity, interruptType, now, since, b);
  }

  lemma PendingIff(c: Settings, w: Worlds, ops: seq<Op>, identity: string, interruptType: Option<string>, now: real, since: real,
                   b: Binding)
    requires w == Run(c, Empty, ops) && Related(c, w, since)
    ensures b in TimedPending(w.timed, identity, interruptType, now)
            <==> && InForce(c, ops, b) && b.body.identity == Some(identity) && b.expiresAt > now
                 && (interruptType.None? || b.body.interruptType == Strip(interruptType.value))
  {
    TimedIsLast(c, ops, b.requestId);
    assert RelatedAt(c, w, b.requestId, since);
    if b in TimedPending(w.timed, identity, interruptType, now) {
      var id :| id in w.timed && w.timed[id] == b;
      assert RelatedAt(c, w, id, since);
    }
  }

  /** Every listing is ordered by deadline, and by request id among equal deadlines. */
  lemma ListedInOrder(list: seq<Binding>, bindings: set<Binding>, i: nat, j: nat)
    requires IsListing(list, bindings) && i < j < |list|
    ensures list[i].expiresAt < list[j].expiresAt
            || (list[i].expiresAt == list[j].expiresAt && TextLess(list[i].requestId, list[j].requestId))
  {
    assert Precedes(list[i], list[j]);
  }

  /** Either registry answers "active" exactly for a request in force before its deadline, and with that binding. */
  lemma ActiveIff(c: Settings, ops: seq<Op>, id: string, now: real)
    requires Monotone(ops + [Resolve(id, now)], 0.0)
    ensures var w, last := Run(c, Empty, ops), LastRemembered(ops, id);
            var m, d := MemoryResolve(c, w.memory, id, now).1, DatabaseResolve(c, w.table, id, now).1;
            && (last.Some? ==> last.value.Remember?)
            && (m.Active? <==> id != "" && last.Some? && ExpiryOf(c, last.value) > now)
            && (d.Active? <==> m.Active?)
            && (m.Active? ==> m.binding == d.binding == Binding(id, last.value.body, ExpiryOf(c, last.value)))
  {
    TimedIsLast(c, ops, id);
    RegistriesAgreeOnResolve(c, ops, id, now);
  }
}

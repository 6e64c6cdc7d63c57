/** Runs of the task store: saves of many requests interleaved with each other and with deletes. */
module TaskFreezing {
  import opened Basics
  import opened TaskStates
  import opened TaskStore

  // ---- The register both backends realise ----

  datatype Op = Save(task: Task) | Delete(target: string)

  function Apply(r: Register, op: Op): Register {
    match op
    case Save(task) => AfterLocked(r, task)
    case Delete(id) => r - {id}
  }

  function Replay(ops: seq<Op>): Register {
    if ops == [] then map[] else Apply(Replay(ops[..|ops| - 1]), ops[|ops| - 1])
  }

  /** Reference: of the saves since the last delete, the first terminal one, or else the last one. */
  function Winner(ops: seq<Op>, id: string): Option<Task> {
    if ops == [] then None
    else
      var before := Winner(ops[..|ops| - 1], id);
      match ops[|ops| - 1]
      case Save(task) =>
        if task.id != id || (before.Some? && Terminal(before.value.state)) then before else Some(task)
      case Delete(target) => if target == id then None else before
  }

  lemma {:induction false} ReplayLast(ops: seq<Op>, op: Op)
    ensures Replay(ops + [op]) == Apply(Replay(ops), op)
  {
    assert (ops + [op])[..|ops + [op]| - 1] == ops;
  }

  /** What is stored under an id is the first terminal task saved there, or while there is none the last one. */
  lemma {:induction false} StoredIsFirstTerminal(ops: seq<Op>, id: string)
    ensures Lookup(Replay(ops), id) == Winner(ops, id)
    ensures Winner(ops, id).Some? ==> Winner(ops, id).value.id == id
  {
    if ops != [] {
      StoredIsFirstTerminal(ops[..|ops| - 1], id);
    }
  }

  predicate NoDelete(ops: seq<Op>, id: string) { forall i :: 0 <= i < |ops| ==> ops[i] != Delete(id) }

  /** Once a terminal task is stored, nothing but a delete of that task changes what is stored. */
  lemma {:induction false} TerminalIsFrozen(past: seq<Op>, later: seq<Op>, id: string)
    requires id in Replay(past) && Terminal(Replay(past)[id].state) && NoDelete(later, id)
    ensures Lookup(Replay(past + later), id) == Some(Replay(past)[id])
  {
    if later == [] {
      assert past + later == past;
    } else {
      var n := |later| - 1;
      TerminalIsFrozen(past, later[..n], id);
      ReplayLast(past + later[..n], later[n]);
      assert past + later == past + later[..n] + [later[n]];
      StoredIsFirstTerminal(past + later[..n], id);
    }
  }

  // ---- The locked path, step by step ----

  /** The save that holds the lock has read what it found; `history` is the order the operations took effect in. */
  datatype Locked = Locked(tasks: Register, holder: Option<(Task, Option<Task>)>, history: seq<Op>)

  datatype LockedEvent = Read(task: Task) | Write | Remove(target: string)

  /** Deletes do not take the save lock. */
  function LockedStep(w: Locked, e: LockedEvent): Locked {
    match e
    case Read(task) =>
      if w.holder.Some? then w
      else
        var existing := Lookup(w.tasks, task.id);
        if Evaluate(existing, task).Persist? then w.(holder := Some((task, existing)))
        else w.(history := w.history + [Save(task)])
    case Write =>
      if w.holder.None? then w
      else
        var task := w.holder.value.0;
        Locked(w.tasks[task.id := task], None, w.history + [Save(task)])
    case Remove(id) => w.(tasks := w.tasks - {id}, history := w.history + [Delete(id)])
  }

  function LockedRun(es: seq<LockedEvent>): Locked {
    if es == [] then Locked(map[], None, []) else LockedStep(LockedRun(es[..|es| - 1]), es[|es| - 1])
  }

  /** What the lock holder read is still there, unless it was deleted. */
  ghost predicate ReadIsCurrent(w: Locked) {
    w.holder.Some? ==>
      var (task, existing) := w.holder.value;
      Evaluate(existing, task).Persist? && (task.id in w.tasks ==> existing == Some(w.tasks[task.id]))
  }

  /** However reads, writes and deletes interleave, the store is the register replayed in the order of effect. */
  lemma {:induction false} LockedPathIsAtomic(es: seq<LockedEvent>)
    ensures LockedRun(es).tasks == Replay(LockedRun(es).history) && ReadIsCurrent(LockedRun(es))
  {
    if es != [] {
      var w, e := LockedRun(es[..|es| - 1]), es[|es| - 1];
      LockedPathIsAtomic(es[..|es| - 1]);
      match e {
        case Read(task) => ReplayLast(w.history, Save(task));
        case Write =>
          if w.holder.Some? {
            ReplayLast(w.history, Save(w.holder.value.0));
          }
        case Remove(id) => ReplayLast(w.history, Delete(id));
      }
    }
  }

  predicate NoRemove(es: seq<LockedEvent>, id: string) { forall i :: 0 <= i < |es| ==> es[i] != Remove(id) }

  /** However the steps of many saves interleave, nothing but a delete of the task changes a stored terminal task. */
  lemma {:induction false} LockedTerminalStays(past: seq<LockedEvent>, later: seq<LockedEvent>, id: string)
    requires id in LockedRun(past).tasks && Terminal(LockedRun(past).tasks[id].state) && NoRemove(later, id)
    ensures Lookup(LockedRun(past + later).tasks, id) == Some(LockedRun(past).tasks[id])
  {
    if later == [] {
      assert past + later == past;
    } else {
      var n := |later| - 1;
      LockedTerminalStays(past, later[..n], id);
      LockedPathIsAtomic(past + later[..n]);
      assert (past + later)[..|past + later| - 1] == past + later[..n];
      assert LockedRun(past + later) == LockedStep(LockedRun(past + later[..n]), later[n]);
    }
  }

  // ---- The guarded upsert, step by step ----

  /** Saves whose upsert did nothing and that have not reloaded yet, by save, with the row they ran into. */
  datatype Guarded = Guarded(table: Table, pending: map<nat, Task>, ranInto: map<nat, Task>, outcomes: map<nat, SaveOutcome>,
                             history: seq<Op>)

  datatype GuardedEvent = Upsert(save: nat, task: Task) | Reload(save: nat) | DeleteRow(target: string)

  function GuardedStep(w: Guarded, e: GuardedEvent): Guarded {
    match e
    case Upsert(save, task) =>
      if save in w.pending || save in w.outcomes then w
      else
        var t := AfterUpsert(w.table, task);
        var history := w.history + [Save(task)];
        if task.id !in w.table || PersistGuard(w.table[task.id]) then
          w.(table := t, outcomes := w.outcomes[save := Written], history := history)
        else
          var found := TaskOf(task.id, w.table[task.id]);
          w.(table := t, pending := w.pending[save := task], ranInto := w.ranInto[save := found.value], history := history)
    case Reload(save) =>
      if save !in w.pending then w
      else
        var task := w.pending[save];
        var existing := if task.id in w.table then TaskOf(task.id, w.table[task.id]) else None;
        w.(pending := w.pending - {save}, outcomes := w.outcomes[save := Reloaded(existing, task)])
    case DeleteRow(id) => w.(table := w.table - {id}, history := w.history + [Delete(id)])
  }

  function GuardedRun(es: seq<GuardedEvent>): Guarded {
    if es == [] then Guarded(map[], map[], map[], map[], []) else GuardedStep(GuardedRun(es[..|es| - 1]), es[|es| - 1])
  }

  /** However upserts, reloads and deletes interleave, the table is the register replayed in the order of effect. */
  lemma {:induction false} GuardedPathIsAtomic(es: seq<GuardedEvent>)
    ensures Holds(GuardedRun(es).table, Replay(GuardedRun(es).history))
  {
    if es != [] {
      var w, e := GuardedRun(es[..|es| - 1]), es[|es| - 1];
      GuardedPathIsAtomic(es[..|es| - 1]);
      match e {
        case Upsert(save, task) =>
          ReplayLast(w.history, Save(task));
          PathsAgree(w.table, Replay(w.history), task);
        case Reload(save) =>
        case DeleteRow(id) => ReplayLast(w.history, Delete(id));
      }
    }
  }

  /** The two backends hold the same tasks whenever their operations took effect in the same order. */
  lemma BackendsAgree(locked: seq<LockedEvent>, guarded: seq<GuardedEvent>)
    requires LockedRun(locked).history == GuardedRun(guarded).history
    ensures Holds(GuardedRun(guarded).table, LockedRun(locked).tasks)
  {
    LockedPathIsAtomic(locked);
    GuardedPathIsAtomic(guarded);
  }

  predicate Undeleted(es: seq<GuardedEvent>, id: string) { forall i :: 0 <= i < |es| ==> es[i] != DeleteRow(id) }

  /** The same of the table: a row that the guard refuses to overwrite stays until it is deleted. */
  lemma {:induction false} GuardedTerminalStays(past: seq<GuardedEvent>, later: seq<GuardedEvent>, id: string)
    requires id in GuardedRun(past).table && !PersistGuard(GuardedRun(past).table[id]) && Undeleted(later, id)
    ensures Lookup(GuardedRun(past + later).table, id) == Some(GuardedRun(past).table[id])
  {
    if later == [] {
      assert past + later == past;
    } else {
      var n := |later| - 1;
      GuardedTerminalStays(past, later[..n], id);
      assert past + later == past + later[..n] + [later[n]];
      GuardedRunStep(past + later[..n], later[n]);
    }
  }

  /** The terminal task a pending save ran into is still stored, as long as no row of that id is deleted. */
  ghost predicate BlockerStays(w: Guarded, id: string) {
    forall s :: s in w.pending && w.pending[s].id == id ==>
      s in w.ranInto && id in w.table && Terminal(w.ranInto[s].state) && w.ranInto[s].id == id && w.table[id] == RowOf(w.ranInto[s])
  }

  lemma {:induction false} BlockersStay(es: seq<GuardedEvent>, id: string)
    requires Undeleted(es, id)
    ensures BlockerStays(GuardedRun(es), id)
  {
    if es != [] {
      var past, e := es[..|es| - 1], es[|es| - 1];
      BlockersStay(past, id);
      GuardedPathIsAtomic(past);
      var w := GuardedRun(past);
      if e.Upsert? && e.task.id in w.table {
        RowRoundTrip(Replay(w.history)[e.task.id]);
      }
    }
  }

  /** Without deletes of its task, a save never ends in the skipped-without-terminal error. */
  lemma {:induction false} SkipErrorNeedsDelete(es: seq<GuardedEvent>, id: string, save: nat)
    requires Undeleted(es, id) && save in GuardedRun(es).pending && GuardedRun(es).pending[save].id == id
    ensures save in GuardedRun(es).ranInto
    ensures GuardedRun(es + [Reload(save)]).outcomes[save]
            == Ignored(Evaluate(Some(GuardedRun(es).ranInto[save]), GuardedRun(es).pending[save]))
  {
    BlockersStay(es, id);
    var w := GuardedRun(es);
    RowRoundTrip(w.ranInto[save]);
    GuardedRunStep(es, Reload(save));
  }

  /** A reload ends in that error exactly when it no longer finds a terminal row. */
  lemma SkipErrorIff(es: seq<GuardedEvent>, save: nat)
    requires save in GuardedRun(es).pending
    ensures var w := GuardedRun(es);
            var id := w.pending[save].id;
            GuardedRun(es + [Reload(save)]).outcomes[save] == SkippedWithoutTerminal
            <==> id !in w.table || PersistGuard(w.table[id])
  {
    GuardedPathIsAtomic(es);
    var w := GuardedRun(es);
    var id := w.pending[save].id;
    GuardedRunStep(es, Reload(save));
    if id in w.table {
      RowRoundTrip(Replay(w.history)[id]);
    }
  }

  function Sample(state: TaskState): Task { Task("t", "c", "task", state, "", "", "", "") }

  /** The error can be reached: the terminal row is deleted between the upsert and the reload of a late save. */
  lemma SkipErrorIsReachable()
    ensures exists es :: 1 in GuardedRun(es).outcomes && GuardedRun(es).outcomes[1] == SkippedWithoutTerminal
  {
    var a := Upsert(0, Sample(Completed));
    var b := Upsert(1, Sample(Working));
    var d, r := DeleteRow("t"), Reload(1);
    var w0 := GuardedRun([]);
    var w1 := GuardedStep(w0, a);
    assert w1.table == map["t" := RowOf(Sample(Completed))];
    var w2 := GuardedStep(w1, b);
    assert w2.pending == map[1 := Sample(Working)];
    var w3 := GuardedStep(w2, d);
    assert "t" !in w3.table;
    GuardedRunStep([], a);
    GuardedRunStep([a], b);
    GuardedRunStep([a, b], d);
    GuardedRunStep([a, b, d], r);
    assert [] + [a] == [a] && [a] + [b] == [a, b] && [a, b] + [d] == [a, b, d];
    assert GuardedRun([a, b, d] + [r]) == GuardedStep(w3, r);
  }

  lemma GuardedRunStep(es: seq<GuardedEvent>, e: GuardedEvent)
    ensures GuardedRun(es + [e]) == GuardedStep(GuardedRun(es), e)
  {
    assert (es + [e])[..|es + [e]| - 1] == es;
  }
}

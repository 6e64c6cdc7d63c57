/** The task store: the first terminal state wins, by a lock around read/evaluate/write or by a guarded upsert. */
module TaskStore {
  import opened Basics
  import opened TaskStates

  /** A task, by the columns it is stored in; the last four stand for JSON values. */
  datatype Task = Task(id: string, contextId: string, kind: string, state: TaskState,
                       statusDetail: string, artifacts: string, history: string, metadata: string)

  type Register = map<string, Task>

  // ---- The write policy ----

  datatype Decision = Persist | StateOverwrite | LateMutation

  /** FirstTerminalStateWinsPolicy.evaluate. Equal tasks are tasks with equal dumps. */
  function Evaluate(existing: Option<Task>, incoming: Task): Decision {
    if existing.None? || !Terminal(existing.value.state) then Persist
    else if incoming.state != existing.value.state then StateOverwrite
    else if incoming != existing.value then LateMutation
    else Persist
  }

  /** A save is refused only against a stored terminal task: for its state if that differs, for the rest of it if that
      alone does, and not at all if it is the same task. */
  lemma EvaluateIff(existing: Option<Task>, incoming: Task)
    ensures var frozen := existing.Some? && Terminal(existing.value.state);
            && (Evaluate(existing, incoming) == StateOverwrite <==> frozen && incoming.state != existing.value.state)
            && (Evaluate(existing, incoming) == LateMutation
                <==> frozen && incoming.state == existing.value.state && incoming != existing.value)
  {
  }

  /** The whole locked section of a save, run without interruption. */
  function AfterLocked(r: Register, task: Task): Register {
    if Evaluate(Lookup(r, task.id), task).Persist? then r[task.id := task] else r
  }

  // ---- The guarded upsert ----

  datatype RowStatus = RowStatus(state: Option<TaskState>, detail: string)

  /** A row of the task table; its status column is JSON that the guard looks into. */
  datatype Row = Row(contextId: string, kind: string, status: Option<RowStatus>, artifacts: string, history: string, metadata: string)

  type Table = map<string, Row>

  function RowOf(t: Task): Row {
    Row(t.contextId, t.kind, Some(RowStatus(Some(t.state), t.statusDetail)), t.artifacts, t.history, t.metadata)
  }

  function TaskOf(id: string, row: Row): Option<Task> {
    if row.status.Some? && row.status.value.state.Some? then
      Some(Task(id, row.contextId, row.kind, row.status.value.state.value, row.status.value.detail,
                row.artifacts, row.history, row.metadata))
    else None
  }

  /** The WHERE clause of ON CONFLICT DO UPDATE. */
  predicate PersistGuard(row: Row) {
    row.status.None? || row.status.value.state.None? || !Terminal(row.status.value.state.value)
  }

  function AfterUpsert(t: Table, task: Task): Table {
    if task.id !in t || PersistGuard(t[task.id]) then t[task.id := RowOf(task)] else t
  }

  /** The table holds exactly the rows of the register. */
  ghost predicate Holds(t: Table, r: Register) {
    t.Keys == r.Keys && forall id :: id in r ==> r[id].id == id && t[id] == RowOf(r[id])
  }

  datatype SaveOutcome = Written | Ignored(decision: Decision) | SkippedWithoutTerminal

  /** What a save answers when it reloads after an upsert that did nothing. */
  function Reloaded(existing: Option<Task>, task: Task): SaveOutcome {
    var decision := Evaluate(existing, task);
    if !decision.Persist? then Ignored(decision)
    else if existing.Some? && Terminal(existing.value.state) && existing.value == task then Ignored(Persist)
    else SkippedWithoutTerminal
  }

  /** A row read back is the task that was written. */
  lemma RowRoundTrip(t: Task)
    ensures TaskOf(t.id, RowOf(t)) == Some(t)
    ensures PersistGuard(RowOf(t)) <==> !Terminal(t.state)
  {
  }

  /** The locked path and the guarded upsert make the same transition, whatever is stored and whatever comes in. */
  lemma PathsAgree(t: Table, r: Register, task: Task)
    requires Holds(t, r)
    ensures Holds(AfterUpsert(t, task), AfterLocked(r, task))
  {
    if task.id in r {
      RowRoundTrip(r[task.id]);
    }
    var r', t' := AfterLocked(r, task), AfterUpsert(t, task);
    assert t'.Keys == r'.Keys;
  }

  // ---- The store ----

  class PolicyAwareTaskStore {
    var tasks: Register
    var table: Table
    const database: bool

    constructor (database: bool)
      ensures this.database == database && tasks == map[] && table == map[]
    {
      this.database, tasks, table := database, map[], map[];
    }

    method SaveWithReadBeforeWrite(task: Task) returns (decision: Decision)
      modifies this`tasks
      ensures tasks == AfterLocked(old(tasks), task)
      ensures decision == Evaluate(Lookup(old(tasks), task.id), task)
    {
      var existing := if task.id in tasks then Some(tasks[task.id]) else None;
      decision := Evaluate(existing, task);
      if !decision.Persist? {
        return;
      }
      tasks := tasks[task.id := task];
    }

    method PersistWithAtomicTerminalGuard(task: Task) returns (persisted: bool)
      modifies this`table
      ensures table == AfterUpsert(old(table), task)
      ensures persisted <==> task.id !in old(table) || PersistGuard(old(table)[task.id])
    {
      if task.id in table {
        var row := table[task.id];
        if !PersistGuard(row) {
          return false;
        }
        row := row.(contextId := task.contextId, kind := task.kind);
        row := row.(status := Some(RowStatus(Some(task.state), task.statusDetail)));
        row := row.(artifacts := task.artifacts, history := task.history, metadata := task.metadata);
        table := table[task.id := row];
      } else {
        table := table[task.id := RowOf(task)];
      }
      persisted := true;
    }

    method LoadTaskFromDatabase(id: string) returns (task: Option<Task>)
      ensures task == if id in table then TaskOf(id, table[id]) else None
    {
      task := if id in table then TaskOf(id, table[id]) else None;
    }

    /** Undisturbed, a save answers by the policy and never ends in the skipped-without-terminal error. */
    method SaveDatabaseTask(task: Task) returns (outcome: SaveOutcome)
      modifies this`table
      ensures table == AfterUpsert(old(table), task)
      ensures outcome.Written? <==> task.id !in old(table) || PersistGuard(old(table)[task.id])
      ensures !outcome.Written? ==> outcome == Ignored(Evaluate(TaskOf(task.id, old(table)[task.id]), task))
    {
      var persisted := PersistWithAtomicTerminalGuard(task);
      if persisted {
        return Written;
      }
      var existing := LoadTaskFromDatabase(task.id);
      var decision := Evaluate(existing, task);
      if !decision.Persist? {
        return Ignored(decision);
      }
      if existing.Some? && Terminal(existing.value.state) && existing.value == task {
        return Ignored(Persist);
      }
      outcome := SkippedWithoutTerminal;
    }

    /** Both backends leave behind the same register. */
    method Save(task: Task)
      modifies this`tasks, this`table
      ensures database ==> tasks == old(tasks) && table == AfterUpsert(old(table), task)
      ensures !database ==> table == old(table) && tasks == AfterLocked(old(tasks), task)
    {
      if database {
        var outcome := SaveDatabaseTask(task);
      } else {
        var decision := SaveWithReadBeforeWrite(task);
      }
    }
  }
}

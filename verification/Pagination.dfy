/** The REST task listing: filter, newest first, strict cursor, page token. */
module Pagination {
  import opened Basics
  import opened TaskStates
  import opened Base64

  /** Microseconds since the earliest instant Python can represent. */
  type Timestamp = nat

  const EARLIEST: Timestamp := 0

  /** A task with no status timestamp, a blank one, or one that does not parse has none here. */
  datatype Task = Task(id: string, contextId: string, state: TaskState, timestamp: Option<Timestamp>)

  datatype Key = Key(time: Timestamp, id: string)

  datatype Query = Query(contextId: Option<string>, status: Option<TaskState>, after: Option<Timestamp>, pageSize: int)

  datatype Result<+T> = Ok(value: T) | Err

  /** What a decoded token holds under "id" and "timestamp", where they are strings. */
  datatype Fields = Fields(id: Option<string>, timestamp: Option<string>)

  /** The JSON library and the ISO 8601 rendering of instants, as functions. */
  datatype Codec = Codec(dumps: (string, string) -> seq<byte>, loads: seq<byte> -> Option<Fields>,
                         iso: Timestamp -> string, parse: string -> Option<Timestamp>)

  ghost predicate Faithful(c: Codec) {
    && (forall id, t :: c.loads(c.dumps(id, t)) == Some(Fields(Some(id), Some(t))) && c.dumps(id, t) != [])
    && (forall t: Timestamp :: c.parse(c.iso(t)) == Some(t) && Strip(c.iso(t)) != "")
  }

  // ---- Order ----

  predicate Less(a: Key, b: Key) { a.time < b.time || (a.time == b.time && TextLess(a.id, b.id)) }

  function SortKey(t: Task): Key { Key(if t.timestamp.None? then EARLIEST else t.timestamp.value, t.id) }

  lemma KeyOrder(a: Key, b: Key)
    ensures a == b ==> !Less(a, b)
    ensures a != b ==> Less(a, b) != Less(b, a)
  {
    TextOrder(a.id, b.id);
  }

  lemma KeyTransitive(a: Key, b: Key, d: Key)
    requires Less(a, b) && Less(b, d)
    ensures Less(a, d)
  {
    if a.time == b.time == d.time {
      TextTransitive(a.id, b.id, d.id);
    }
  }

  // ---- Filtering, sorting, cutting ----

  predicate Matches(q: Query, t: Task) {
    && (q.contextId.Some? ==> t.contextId == q.contextId.value)
    && (q.status.Some? ==> t.state == q.status.value)
    && (q.after.Some? ==> SortKey(t).time >= q.after.value)
  }

  function Select(q: Query, tasks: seq<Task>): seq<Task> {
    if tasks == [] then []
    else (if Matches(q, tasks[0]) then [tasks[0]] else []) + Select(q, tasks[1..])
  }

  function InsertByKey(t: Task, sorted: seq<Task>): seq<Task> {
    if sorted == [] || !Less(SortKey(t), SortKey(sorted[0])) then [t] + sorted
    else [sorted[0]] + InsertByKey(t, sorted[1..])
  }

  /** Stable, greatest key first. */
  function SortDown(tasks: seq<Task>): seq<Task> {
    if tasks == [] then [] else InsertByKey(tasks[0], SortDown(tasks[1..]))
  }

  function FilterTasks(q: Query, tasks: seq<Task>): seq<Task> { SortDown(Select(q, tasks)) }

  predicate Under(k: Key, cursor: Option<Key>) { cursor.Some? ==> Less(k, cursor.value) }

  function ApplyCursor(tasks: seq<Task>, cursor: Option<Key>): seq<Task> {
    if tasks == [] then []
    else (if Under(SortKey(tasks[0]), cursor) then [tasks[0]] else []) + ApplyCursor(tasks[1..], cursor)
  }

  /** The tasks of a page and, if there is more, the last of them, which the next token is made from. */
  datatype Listing = Listing(page: seq<Task>, last: Option<Task>)

  function CutPage(rest: seq<Task>, size: int): Listing
    requires size >= 1
  {
    var page := if |rest| <= size then rest else rest[..size];
    Listing(page, if |rest| > |page| && page != [] then Some(page[|page| - 1]) else None)
  }

  function ListPage(q: Query, tasks: seq<Task>, cursor: Option<Key>): Listing
    requires q.pageSize >= 1
  {
    CutPage(ApplyCursor(FilterTasks(q, tasks), cursor), q.pageSize)
  }

  /** The accepted page sizes: 50 unless given, and 1 to 100. */
  function PageSize(given: Option<int>): (size: Result<int>)
    ensures size.Ok? && given.Some? ==> size.value == given.value
    ensures given.None? ==> size == Ok(50)
    ensures given.Some? ==> (size.Ok? <==> 1 <= given.value <= 100)
  {
    if given.None? then Ok(50) else if 1 <= given.value <= 100 then Ok(given.value) else Err
  }

  // ---- Page tokens ----

  function EncodePageToken(c: Codec, t: Task): string {
    StripPadding(Encode(c.dumps(t.id, c.iso(SortKey(t).time))))
  }

  /** No token, or a blank one, starts from the top; any other must decode to a non-blank id and an instant. */
  function DecodePageToken(c: Codec, token: Option<string>): Result<Option<Key>> {
    if token.None? || Strip(token.value) == "" then Ok(None)
    else
      var text := Strip(token.value);
      match Decode(text + Padding(|text|))
      case None => Err
      case Some(bytes) =>
        match c.loads(bytes)
        case None => Err
        case Some(fields) =>
          if fields.id.None? || Strip(fields.id.value) == "" then Err
          else if fields.timestamp.None? || Strip(fields.timestamp.value) == "" then Err
          else if c.parse(fields.timestamp.value).None? then Err
          else Ok(Some(Key(c.parse(fields.timestamp.value).value, fields.id.value)))
  }

  /** A token gives back the sort key of its task exactly when the id is not blank; otherwise it is refused. */
  lemma TokenRoundTripIff(c: Codec, t: Task)
    requires Faithful(c)
    ensures DecodePageToken(c, Some(EncodePageToken(c, t))) == if Strip(t.id) != "" then Ok(Some(SortKey(t))) else Err
  {
    var bytes := c.dumps(t.id, c.iso(SortKey(t).time));
    UnpaddedRoundTrip(bytes);
    assert c.loads(bytes) == Some(Fields(Some(t.id), Some(c.iso(SortKey(t).time))));
  }

  // ---- Facts about a listing ----

  ghost predicate DistinctIds(tasks: seq<Task>) {
    forall i, j {:trigger SameId(tasks, i, j)} :: 0 <= i < j < |tasks| ==> !SameId(tasks, i, j)
  }

  predicate SameId(tasks: seq<Task>, i: nat, j: nat)
    requires i < |tasks| && j < |tasks|
  {
    tasks[i].id == tasks[j].id
  }

  ghost predicate Descending(tasks: seq<Task>) {
    forall i, j {:trigger Above(tasks, i, j)} :: 0 <= i < j < |tasks| ==> Above(tasks, i, j)
  }

  predicate Above(tasks: seq<Task>, i: nat, j: nat)
    requires i < |tasks| && j < |tasks|
  {
    Less(SortKey(tasks[j]), SortKey(tasks[i]))
  }

  lemma TailDistinct(tasks: seq<Task>)
    requires DistinctIds(tasks) && tasks != []
    ensures DistinctIds(tasks[1..]) && forall t :: t in tasks[1..] ==> t.id != tasks[0].id
  {
    forall i: nat, j: nat | i < j < |tasks[1..]|
      ensures !SameId(tasks[1..], i, j)
    {
      assert !SameId(tasks, i + 1, j + 1);
    }
    forall t | t in tasks[1..]
      ensures t.id != tasks[0].id
    {
      var i :| 0 <= i < |tasks[1..]| && tasks[1..][i] == t;
      assert !SameId(tasks, 0, i + 1);
    }
  }

  lemma ConsDistinct(t: Task, tasks: seq<Task>)
    requires DistinctIds(tasks) && forall x :: x in tasks ==> x.id != t.id
    ensures DistinctIds([t] + tasks)
  {
    var all := [t] + tasks;
    forall i: nat, j: nat | i < j < |all|
      ensures !SameId(all, i, j)
    {
      assert all[j] == tasks[j - 1] && tasks[j - 1] in tasks;
      if i > 0 {
        assert !SameId(tasks, i - 1, j - 1);
      }
    }
  }

  lemma {:induction false} SelectKeeps(q: Query, tasks: seq<Task>)
    ensures forall t :: t in Select(q, tasks) <==> t in tasks && Matches(q, t)
    ensures DistinctIds(tasks) ==> DistinctIds(Select(q, tasks))
  {
    if tasks != [] {
      var rest := tasks[1..];
      SelectKeeps(q, rest);
      assert tasks == [tasks[0]] + rest;
      if DistinctIds(tasks) {
        TailDistinct(tasks);
        ConsDistinct(tasks[0], Select(q, rest));
        assert [] + Select(q, rest) == Select(q, rest);
      }
    }
  }

  /** Membership and order of a list with one more task on top. */
  lemma ConsDescends(t: Task, sorted: seq<Task>)
    requires Descending(sorted) && forall x :: x in sorted ==> Less(SortKey(x), SortKey(t))
    ensures Descending([t] + sorted)
  {
    var all := [t] + sorted;
    forall i: nat, j: nat | i < j < |all|
      ensures Above(all, i, j)
    {
      assert all[j] == sorted[j - 1] && sorted[j - 1] in sorted;
      if i > 0 {
        assert Above(sorted, i - 1, j - 1);
      }
    }
  }

  lemma TailDescends(sorted: seq<Task>)
    requires Descending(sorted) && sorted != []
    ensures Descending(sorted[1..])
    ensures forall x :: x in sorted[1..] ==> Less(SortKey(x), SortKey(sorted[0]))
  {
    forall i: nat, j: nat | i < j < |sorted[1..]|
      ensures Above(sorted[1..], i, j)
    {
      assert Above(sorted, i + 1, j + 1);
    }
    forall x | x in sorted[1..]
      ensures Less(SortKey(x), SortKey(sorted[0]))
    {
      var j :| 0 <= j < |sorted[1..]| && sorted[1..][j] == x;
      assert Above(sorted, 0, j + 1);
    }
  }

  lemma {:induction false} InsertKeeps(t: Task, sorted: seq<Task>)
    requires Descending(sorted) && forall x :: x in sorted ==> x.id != t.id
    ensures Descending(InsertByKey(t, sorted))
    ensures forall x :: x in InsertByKey(t, sorted) <==> x == t || x in sorted
  {
    if sorted == [] {
      ConsDescends(t, sorted);
    } else {
      TailDescends(sorted);
      KeyOrder(SortKey(t), SortKey(sorted[0]));
      assert sorted == [sorted[0]] + sorted[1..];
      if Less(SortKey(t), SortKey(sorted[0])) {
        InsertKeeps(t, sorted[1..]);
        ConsDescends(sorted[0], InsertByKey(t, sorted[1..]));
      } else {
        forall x | x in sorted
          ensures Less(SortKey(x), SortKey(t))
        {
          if x != sorted[0] {
            KeyTransitive(SortKey(x), SortKey(sorted[0]), SortKey(t));
          }
        }
        ConsDescends(t, sorted);
      }
    }
  }

  lemma {:induction false} SortKeeps(tasks: seq<Task>)
    requires DistinctIds(tasks)
    ensures Descending(SortDown(tasks))
    ensures forall t :: t in SortDown(tasks) <==> t in tasks
  {
    if tasks != [] {
      var rest := tasks[1..];
      TailDistinct(tasks);
      SortKeeps(rest);
      InsertKeeps(tasks[0], SortDown(rest));
      assert tasks == [tasks[0]] + rest;
    }
  }

  /** The listing is the matching tasks of the store, newest first, ties by descending id. */
  lemma FilterTasksSpec(q: Query, tasks: seq<Task>)
    requires DistinctIds(tasks)
    ensures Descending(FilterTasks(q, tasks))
    ensures forall t :: t in FilterTasks(q, tasks) <==> t in tasks && Matches(q, t)
  {
    SelectKeeps(q, tasks);
    SortKeeps(Select(q, tasks));
  }

  /** In terms of the stored timestamps, where a missing one is the earliest instant: a listing holds exactly the tasks of
      the store that have the context, the state and the age asked for, the later before the earlier, and the greater id
      first among equals. */
  lemma NewestFirst(q: Query, tasks: seq<Task>, t: Task, i: nat, j: nat)
    requires DistinctIds(tasks)
    ensures var time := (x: Task) => if x.timestamp.None? then 0 else x.timestamp.value;
            var list := FilterTasks(q, tasks);
            && (t in list <==> && t in tasks
                               && (q.contextId.None? || t.contextId == q.contextId.value)
                               && (q.status.None? || t.state == q.status.value)
                               && (q.after.None? || time(t) >= q.after.value))
            && (i < j < |list| ==> || time(list[i]) > time(list[j])
                                   || (time(list[i]) == time(list[j]) && TextLess(list[j].id, list[i].id)))
  {
    FilterTasksSpec(q, tasks);
    if i < j < |FilterTasks(q, tasks)| {
      assert Above(FilterTasks(q, tasks), i, j);
    }
  }

  /** Only an absent or blank token starts from the top: one that does not decode is refused, never taken for none. */
  lemma OnlyNoTokenStartsOver(c: Codec, token: Option<string>)
    ensures DecodePageToken(c, token) == Ok(None) <==> token.None? || Strip(token.value) == ""
  {
  }

  lemma {:induction false} CursorKeeps(tasks: seq<Task>, cursor: Option<Key>)
    requires Descending(tasks)
    ensures Descending(ApplyCursor(tasks, cursor))
    ensures forall t :: t in ApplyCursor(tasks, cursor) <==> t in tasks && Under(SortKey(t), cursor)
  {
    if tasks != [] {
      TailDescends(tasks);
      CursorKeeps(tasks[1..], cursor);
      assert tasks == [tasks[0]] + tasks[1..];
      var rest := ApplyCursor(tasks[1..], cursor);
      if Under(SortKey(tasks[0]), cursor) {
        ConsDescends(tasks[0], rest);
      } else {
        assert [] + rest == rest;
      }
    }
  }
}

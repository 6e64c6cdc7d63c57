/** A client following next-page tokens over a store that changes between its requests. */
module PageWalk {
  import opened Basics
  import opened Pagination

  // ---- One listing ----

  /** A page of a sorted list. */
  function Cut(all: seq<Task>, size: int, cursor: Option<Key>): Listing
    requires size >= 1
  {
    CutPage(ApplyCursor(all, cursor), size)
  }

  /** How often a key is on a page. */
  function Occurrences(page: seq<Task>, k: Key): nat {
    if page == [] then 0 else (if SortKey(page[0]) == k then 1 else 0) + Occurrences(page[1..], k)
  }

  ghost predicate OnPage(page: seq<Task>, k: Key) { exists t :: t in page && SortKey(t) == k }

  lemma {:induction false} OccursOnce(page: seq<Task>, k: Key)
    requires Descending(page)
    ensures Occurrences(page, k) == if OnPage(page, k) then 1 else 0
  {
    if page != [] {
      TailDescends(page);
      OccursOnce(page[1..], k);
      assert page == [page[0]] + page[1..];
      KeyOrder(k, k);
    }
  }

  /** A page is the upper end of what is left under the cursor, cut off exactly at the key of the next token. */
  lemma PageCovers(all: seq<Task>, size: int, cursor: Option<Key>, k: Key)
    requires size >= 1 && Descending(all)
    ensures var Listing(page, last) := Cut(all, size, cursor);
            && Occurrences(page, k) == (if OnPage(page, k) then 1 else 0)
            && (OnPage(page, k) <==> OnPage(all, k) && Under(k, cursor) && (last.Some? ==> !Less(k, SortKey(last.value))))
            && (last.Some? ==> last.value in page && last.value in all && Under(SortKey(last.value), cursor))
            && |page| <= size
  {
    CursorKeeps(all, cursor);
    var rest := ApplyCursor(all, cursor);
    var Listing(page, last) := Cut(all, size, cursor);
    PageIsPrefix(rest, page, last, k);
    OccursOnce(page, k);
    assert OnPage(rest, k) <==> OnPage(all, k) && Under(k, cursor);
  }

  lemma PageIsPrefix(rest: seq<Task>, page: seq<Task>, next: Option<Task>, k: Key)
    requires Descending(rest) && page <= rest
    requires next == if |rest| > |page| && page != [] then Some(page[|page| - 1]) else None
    requires page == [] ==> rest == []
    ensures Descending(page)
    ensures OnPage(page, k) <==> OnPage(rest, k) && (next.Some? ==> !Less(k, SortKey(next.value)))
    ensures next.Some? ==> next.value in page
  {
    forall i: nat, j: nat | i < j < |page|
      ensures Above(page, i, j)
    {
      assert Above(rest, i, j);
    }
    forall i | 0 <= i < |rest| && next.Some?
      ensures i < |page| <==> !Less(SortKey(rest[i]), SortKey(next.value))
    {
      var last := |page| - 1;
      KeyOrder(SortKey(rest[i]), SortKey(rest[last]));
      if i < last {
        assert Above(rest, i, last);
      } else if i > last {
        assert Above(rest, last, i);
      }
    }
    if OnPage(rest, k) {
      var t :| t in rest && SortKey(t) == k;
      var i :| 0 <= i < |rest| && rest[i] == t;
      assert next.None? ==> page == rest;
      assert i < |page| ==> page[i] == t && t in page;
      if next.Some? && i >= |page| {
        assert Less(k, SortKey(next.value));
      }
    }
    if OnPage(page, k) {
      var t :| t in page && SortKey(t) == k;
      var i :| 0 <= i < |page| && page[i] == t;
      assert rest[i] == t && t in rest;
    }
  }

  // ---- The walk ----

  /** The listings the stores give, from which each request cuts its page. */
  function Listings(q: Query, stores: seq<seq<Task>>): (lists: seq<seq<Task>>)
    ensures |lists| == |stores| && forall i :: 0 <= i < |lists| ==> lists[i] == FilterTasks(q, stores[i])
  {
    if stores == [] then [] else [FilterTasks(q, stores[0])] + Listings(q, stores[1..])
  }

  /** The pages of a walk whose n-th request sees the n-th listing, until a page without a next token. */
  function Walk(lists: seq<seq<Task>>, size: int, cursor: Option<Key>): seq<seq<Task>>
    requires size >= 1
    decreases |lists|
  {
    if lists == [] then []
    else
      var Listing(page, last) := Cut(lists[0], size, cursor);
      [page] + if last.None? then [] else Walk(lists[1..], size, Some(SortKey(last.value)))
  }

  /** The walk has reached a page without a next token. */
  predicate Finished(lists: seq<seq<Task>>, size: int, cursor: Option<Key>)
    requires size >= 1
    decreases |lists|
  {
    lists != [] &&
    var last := Cut(lists[0], size, cursor).last;
    last.None? || Finished(lists[1..], size, Some(SortKey(last.value)))
  }

  function Total(pages: seq<seq<Task>>, k: Key): nat {
    if pages == [] then 0 else Occurrences(pages[0], k) + Total(pages[1..], k)
  }

  ghost predicate Sorted(lists: seq<seq<Task>>) { forall i :: 0 <= i < |lists| ==> Descending(lists[i]) }

  ghost predicate OnAll(lists: seq<seq<Task>>, k: Key) { forall i :: 0 <= i < |lists| ==> OnPage(lists[i], k) }

  lemma {:induction false} WalkCounts(lists: seq<seq<Task>>, size: int, cursor: Option<Key>, k: Key)
    requires size >= 1 && Sorted(lists)
    ensures Total(Walk(lists, size, cursor), k) <= if Under(k, cursor) then 1 else 0
    ensures OnAll(lists, k) && Finished(lists, size, cursor) && Under(k, cursor)
            ==> Total(Walk(lists, size, cursor), k) == 1
    decreases |lists|
  {
    if lists != [] {
      PageCovers(lists[0], size, cursor, k);
      var Listing(page, last) := Cut(lists[0], size, cursor);
      var rest := if last.None? then [] else Walk(lists[1..], size, Some(SortKey(last.value)));
      assert Walk(lists, size, cursor) == [page] + rest && ([page] + rest)[1..] == rest;
      if last.Some? {
        assert Sorted(lists[1..]);
        assert OnAll(lists, k) ==> OnAll(lists[1..], k);
        WalkCounts(lists[1..], size, Some(SortKey(last.value)), k);
        if cursor.Some? && Less(k, SortKey(last.value)) {
          KeyTransitive(k, SortKey(last.value), cursor.value);
        }
      }
    }
  }

  ghost predicate Stores(stores: seq<seq<Task>>) { forall i :: 0 <= i < |stores| ==> DistinctIds(stores[i]) }

  /** The key is that of a task the query selects. */
  ghost predicate Listed(q: Query, tasks: seq<Task>, k: Key) {
    exists t :: t in tasks && Matches(q, t) && SortKey(t) == k
  }

  ghost predicate ListedThroughout(q: Query, stores: seq<seq<Task>>, k: Key) {
    forall i :: 0 <= i < |stores| ==> Listed(q, stores[i], k)
  }

  lemma ListingsAreSorted(q: Query, stores: seq<seq<Task>>, k: Key)
    requires Stores(stores)
    ensures Sorted(Listings(q, stores))
    ensures ListedThroughout(q, stores, k) <==> OnAll(Listings(q, stores), k)
  {
    forall i | 0 <= i < |stores|
      ensures Descending(Listings(q, stores)[i])
      ensures Listed(q, stores[i], k) <==> OnPage(Listings(q, stores)[i], k)
    {
      FilterTasksSpec(q, stores[i]);
    }
  }

  /** However the store changes in between: no key is listed twice in a walk, and a task that is selected under
   *  the same key at every request of a finished walk is listed exactly once. */
  lemma ExactlyOnce(q: Query, stores: seq<seq<Task>>, k: Key)
    requires q.pageSize >= 1 && Stores(stores)
    ensures var lists := Listings(q, stores);
            && Total(Walk(lists, q.pageSize, None), k) <= 1
            && (ListedThroughout(q, stores, k) && Finished(lists, q.pageSize, None)
                ==> Total(Walk(lists, q.pageSize, None), k) == 1)
  {
    ListingsAreSorted(q, stores, k);
    WalkCounts(Listings(q, stores), q.pageSize, None, k);
  }

  /** Each next cursor is strictly below the one before. */
  lemma CursorsDecrease(q: Query, tasks: seq<Task>, cursor: Option<Key>)
    requires q.pageSize >= 1 && DistinctIds(tasks)
    ensures var last := ListPage(q, tasks, cursor).last;
            last.Some? ==> Under(SortKey(last.value), cursor)
  {
    FilterTasksSpec(q, tasks);
    PageCovers(FilterTasks(q, tasks), q.pageSize, cursor, Key(0, ""));
  }

  // ---- An unchanged store ----

  function Flatten(pages: seq<seq<Task>>): seq<Task> {
    if pages == [] then [] else pages[0] + Flatten(pages[1..])
  }

  /** The cursor that stands after the first j tasks of a list. */
  function CursorAt(all: seq<Task>, j: nat): Option<Key>
    requires j <= |all|
  {
    if j == 0 then None else Some(SortKey(all[j - 1]))
  }

  lemma {:induction false} AllUnder(tasks: seq<Task>, cursor: Option<Key>)
    requires forall t :: t in tasks ==> Under(SortKey(t), cursor)
    ensures ApplyCursor(tasks, cursor) == tasks
  {
    if tasks != [] {
      assert tasks == [tasks[0]] + tasks[1..];
      AllUnder(tasks[1..], cursor);
    }
  }

  lemma {:induction false} CursorCutsAt(all: seq<Task>, j: nat)
    requires Descending(all) && j <= |all|
    ensures ApplyCursor(all, CursorAt(all, j)) == all[j..]
  {
    if j == 0 {
      AllUnder(all, None);
    } else {
      TailDescends(all);
      var cursor := CursorAt(all, j);
      KeyOrder(SortKey(all[0]), SortKey(all[j - 1]));
      if j == 1 {
        AllUnder(all[1..], cursor);
      } else {
        assert Above(all, 0, j - 1);
        assert CursorAt(all[1..], j - 1) == cursor;
        CursorCutsAt(all[1..], j - 1);
      }
      assert all[1..][j - 1..] == all[j..];
      assert ApplyCursor(all, cursor) == ApplyCursor(all[1..], cursor);
    }
  }

  function Clip(n: nat, all: seq<Task>): nat { if n <= |all| then n else |all| }

  function PageFrom(all: seq<Task>, j: nat, size: int): Listing
    requires size >= 1 && j <= |all|
  {
    if |all| <= j + size then Listing(all[j..], None) else Listing(all[j..j + size], Some(all[j + size - 1]))
  }

  lemma CutAt(all: seq<Task>, j: nat, size: int)
    requires size >= 1 && j <= |all|
    ensures CutPage(all[j..], size)
            == PageFrom(all, j, size)
  {
    if |all| > j + size {
      assert all[j..][..size] == all[j..j + size];
    }
  }

  /** Reference: a list cut into n consecutive pages from position j, or fewer when it ends before. */
  function Chunks(all: seq<Task>, j: nat, size: nat, n: nat): seq<seq<Task>>
    requires j <= |all|
    decreases n
  {
    if n == 0 then []
    else if |all| <= j + size then [all[j..]]
    else [all[j..j + size]] + Chunks(all, j + size, size, n - 1)
  }

  /** How far n pages from position j reach. */
  function Reach(n: nat, size: nat, j: nat): nat { if n == 0 then j else Reach(n - 1, size, j + size) }

  lemma {:induction false} ReachIs(n: nat, size: nat, j: nat)
    ensures Reach(n, size, j) == j + n * size
  {
    if n > 0 {
      ReachIs(n - 1, size, j + size);
    }
  }

  lemma {:induction false} ChunksCover(all: seq<Task>, j: nat, size: nat, n: nat)
    requires j <= |all|
    ensures Reach(n, size, j) >= j && Flatten(Chunks(all, j, size, n)) == all[j..Clip(Reach(n, size, j), all)]
    decreases n
  {
    ReachIs(n, size, j);
    if n == 0 {
    } else if |all| <= j + size {
      ReachIs(n - 1, size, j + size);
      assert [all[j..]][1..] == [];
    } else {
      ChunksCover(all, j + size, size, n - 1);
      var rest := Chunks(all, j + size, size, n - 1);
      assert ([all[j..j + size]] + rest)[1..] == rest;
      SplitSlice(all, j, j + size, Clip(Reach(n, size, j), all));
    }
  }

  lemma SplitSlice(all: seq<Task>, j: nat, m: nat, end: nat)
    requires j <= m <= end <= |all|
    ensures all[j..m] + all[m..end] == all[j..end]
  {
  }

  predicate Same(lists: seq<seq<Task>>, all: seq<Task>) {
    lists == [] || (lists[0] == all && Same(lists[1..], all))
  }

  /** The walk when each of n requests cuts its page in the same way. */
  function Rewalk(cut: Option<Key> -> Listing, n: nat, cursor: Option<Key>): seq<seq<Task>> {
    if n == 0 then []
    else
      var Listing(page, last) := cut(cursor);
      [page] + if last.None? then [] else Rewalk(cut, n - 1, Some(SortKey(last.value)))
  }

  predicate Refinished(cut: Option<Key> -> Listing, n: nat, cursor: Option<Key>) {
    n > 0 && (cut(cursor).last.None? || Refinished(cut, n - 1, Some(SortKey(cut(cursor).last.value))))
  }

  function Cutter(all: seq<Task>, size: int): Option<Key> -> Listing
    requires size >= 1
  {
    cursor => Cut(all, size, cursor)
  }

  lemma {:induction false} SameWalk(all: seq<Task>, size: int, lists: seq<seq<Task>>, cursor: Option<Key>)
    requires size >= 1 && Same(lists, all)
    ensures Walk(lists, size, cursor) == Rewalk(Cutter(all, size), |lists|, cursor)
    decreases |lists|
  {
    if lists != [] {
      assert lists[0] == all && Cut(lists[0], size, cursor) == Cutter(all, size)(cursor);
      var Listing(page, last) := Cut(all, size, cursor);
      if last.Some? {
        var next := Some(SortKey(last.value));
        SameWalk(all, size, lists[1..], next);
        assert Walk(lists, size, cursor) == [page] + Walk(lists[1..], size, next);
      } else {
        assert Walk(lists, size, cursor) == [page] + [];
      }
    }
  }

  lemma {:induction false} SameFinish(all: seq<Task>, size: int, lists: seq<seq<Task>>, cursor: Option<Key>)
    requires size >= 1 && Same(lists, all)
    ensures Finished(lists, size, cursor) == Refinished(Cutter(all, size), |lists|, cursor)
    decreases |lists|
  {
    if lists != [] {
      var last := Cutter(all, size)(cursor).last;
      if last.Some? {
        SameFinish(all, size, lists[1..], Some(SortKey(last.value)));
      }
    }
  }

  /** From position j of the listing, a page is cut off at position j + size. */
  ghost predicate CutsAt(cut: Option<Key> -> Listing, all: seq<Task>, size: int)
    requires size >= 1
  {
    forall j: nat {:trigger CursorAt(all, j)} :: j <= |all| ==> cut(CursorAt(all, j)) == PageFrom(all, j, size)
  }

  lemma CutterCuts(all: seq<Task>, size: int)
    requires size >= 1 && Descending(all)
    ensures CutsAt(Cutter(all, size), all, size)
  {
    forall j: nat | j <= |all|
      ensures Cutter(all, size)(CursorAt(all, j))
              == PageFrom(all, j, size)
    {
      CursorCutsAt(all, j);
      CutAt(all, j, size);
    }
  }

  lemma {:induction false} WalkIsChunks(cut: Option<Key> -> Listing, all: seq<Task>, size: int, n: nat, j: nat)
    requires size >= 1 && CutsAt(cut, all, size) && j <= |all|
    ensures Rewalk(cut, n, CursorAt(all, j)) == Chunks(all, j, size, n)
    decreases n
  {
    if n > 0 && j + size < |all| {
      assert Some(SortKey(all[j + size - 1])) == CursorAt(all, j + size);
      WalkIsChunks(cut, all, size, n - 1, j + size);
    }
  }

  lemma {:induction false} WalkFinishes(cut: Option<Key> -> Listing, all: seq<Task>, size: int, n: nat, j: nat)
    requires size >= 1 && CutsAt(cut, all, size) && j <= |all|
    ensures Refinished(cut, n, CursorAt(all, j)) <==> n > 0 && |all| <= Reach(n, size, j)
    decreases n
  {
    if n > 0 {
      if j + size < |all| {
        assert Some(SortKey(all[j + size - 1])) == CursorAt(all, j + size);
        WalkFinishes(cut, all, size, n - 1, j + size);
      } else {
        ReachIs(n - 1, size, j + size);
      }
    }
  }

  lemma {:induction false} SameListings(q: Query, tasks: seq<Task>, stores: seq<seq<Task>>)
    requires Same(stores, tasks)
    ensures Same(Listings(q, stores), FilterTasks(q, tasks))
  {
    if stores != [] {
      SameListings(q, tasks, stores[1..]);
    }
  }

  lemma RewalkCovers(all: seq<Task>, size: int, n: nat)
    requires size >= 1 && Descending(all)
    ensures Refinished(Cutter(all, size), n, None) <==> n > 0 && |all| <= n * size
    ensures Refinished(Cutter(all, size), n, None) ==> Flatten(Rewalk(Cutter(all, size), n, None)) == all
  {
    assert CursorAt(all, 0) == None;
    CutterCuts(all, size);
    WalkIsChunks(Cutter(all, size), all, size, n, 0);
    WalkFinishes(Cutter(all, size), all, size, n, 0);
    ChunksCover(all, 0, size, n);
    ReachIs(n, size, 0);
    assert all[0..|all|] == all;
  }

  /** On an unchanged store the pages are the full sorted listing, and the walk takes just the requests it needs. */
  lemma UnchangedStoreIsListed(q: Query, tasks: seq<Task>, stores: seq<seq<Task>>)
    requires q.pageSize >= 1 && DistinctIds(tasks) && Same(stores, tasks)
    ensures var all, lists := FilterTasks(q, tasks), Listings(q, stores);
            && (Finished(lists, q.pageSize, None) <==> stores != [] && |all| <= |stores| * q.pageSize)
            && (Finished(lists, q.pageSize, None) ==> Flatten(Walk(lists, q.pageSize, None)) == all)
  {
    FilterTasksSpec(q, tasks);
    SameListings(q, tasks, stores);
    SameWalk(FilterTasks(q, tasks), q.pageSize, Listings(q, stores), None);
    SameFinish(FilterTasks(q, tasks), q.pageSize, Listings(q, stores), None);
    RewalkCovers(FilterTasks(q, tasks), q.pageSize, |stores|);
  }

  // ---- The same walk by tokens ----

  datatype Answer = Answer(page: seq<Task>, nextPageToken: string)

  /** What one request answers; the token is empty when there is no more. */
  function ListTasks(c: Codec, q: Query, tasks: seq<Task>, token: Option<string>): Result<Answer>
    requires q.pageSize >= 1
  {
    match DecodePageToken(c, token)
    case Err => Err
    case Ok(cursor) =>
      var Listing(page, last) := ListPage(q, tasks, cursor);
      Ok(Answer(page, if last.None? then "" else EncodePageToken(c, last.value)))
  }

  datatype WalkResult = Refused | Pages(pages: seq<seq<Task>>)

  /** A client sends back the token it got until it gets an empty one; a refused token ends the walk with an error. */
  function TokenWalk(c: Codec, q: Query, stores: seq<seq<Task>>, token: Option<string>): WalkResult
    requires q.pageSize >= 1
    decreases |stores|
  {
    if stores == [] then Pages([])
    else
      var answer := ListTasks(c, q, stores[0], token);
      if answer.Err? then Refused
      else if answer.value.nextPageToken == "" then Pages([answer.value.page])
      else
        var rest := TokenWalk(c, q, stores[1..], Some(answer.value.nextPageToken));
        if rest.Refused? then Refused else Pages([answer.value.page] + rest.pages)
  }

  ghost predicate NamedTasks(stores: seq<seq<Task>>) {
    forall i, t :: 0 <= i < |stores| && t in stores[i] ==> Strip(t.id) != ""
  }

  /** The token of an answer decodes to the key of the last task listed; it is empty only when there is none. */
  lemma AnswerCarriesCursor(c: Codec, q: Query, tasks: seq<Task>, token: Option<string>, cursor: Option<Key>)
    requires Faithful(c) && q.pageSize >= 1 && DistinctIds(tasks) && forall t :: t in tasks ==> Strip(t.id) != ""
    requires DecodePageToken(c, token) == Ok(cursor)
    ensures var Listing(page, last) := ListPage(q, tasks, cursor);
            var answer := ListTasks(c, q, tasks, token);
            && answer.Ok? && answer.value.page == page
            && (answer.value.nextPageToken == "" <==> last.None?)
            && (last.Some? ==> DecodePageToken(c, Some(answer.value.nextPageToken)) == Ok(Some(SortKey(last.value))))
  {
    FilterTasksSpec(q, tasks);
    PageCovers(FilterTasks(q, tasks), q.pageSize, cursor, Key(0, ""));
    var last := ListPage(q, tasks, cursor).last;
    if last.Some? {
      TokenRoundTripIff(c, last.value);
      StripTrims("");
    }
  }

  lemma TokenWalkUnfolds(c: Codec, q: Query, stores: seq<seq<Task>>, token: Option<string>, answer: Answer)
    requires q.pageSize >= 1 && stores != [] && ListTasks(c, q, stores[0], token) == Ok(answer)
    ensures answer.nextPageToken == "" ==> TokenWalk(c, q, stores, token) == Pages([answer.page])
    ensures var rest := TokenWalk(c, q, stores[1..], Some(answer.nextPageToken));
            answer.nextPageToken != "" && rest.Pages? ==> TokenWalk(c, q, stores, token) == Pages([answer.page] + rest.pages)
  {
  }

  /** Tokens carry the cursor faithfully, so the walk by tokens is the walk by keys: no task has a blank id. */
  lemma {:induction false} TokensCarryCursors(c: Codec, q: Query, stores: seq<seq<Task>>, token: Option<string>, cursor: Option<Key>)
    requires Faithful(c) && q.pageSize >= 1 && Stores(stores) && NamedTasks(stores)
    requires DecodePageToken(c, token) == Ok(cursor)
    ensures TokenWalk(c, q, stores, token) == Pages(Walk(Listings(q, stores), q.pageSize, cursor))
    decreases |stores|
  {
    if stores != [] {
      AnswerCarriesCursor(c, q, stores[0], token, cursor);
      var answer, last := ListTasks(c, q, stores[0], token).value, ListPage(q, stores[0], cursor).last;
      TokenWalkUnfolds(c, q, stores, token, answer);
      if last.Some? {
        TokensCarryCursors(c, q, stores[1..], Some(answer.nextPageToken), Some(SortKey(last.value)));
        assert Listings(q, stores)[1..] == Listings(q, stores[1..]);
      }
    }
  }
}

/** The accepted modes kept in payload metadata: merged in when an event is emitted, extracted when a task is read. */
module NegotiationMetadata {
  import opened Basics
  import opened OutputModes

  const OPENCODE := "opencode"
  const NEGOTIATION := "output_negotiation"
  const MODES := "accepted_output_modes"

  // ---- Sorting ----

  function InsertMode(m: string, sorted: seq<string>): seq<string> {
    if sorted == [] || !TextLess(sorted[0], m) then [m] + sorted else [sorted[0]] + InsertMode(m, sorted[1..])
  }

  function SortModes(modes: seq<string>): seq<string> {
    if modes == [] then [] else InsertMode(modes[0], SortModes(modes[1..]))
  }

  predicate Ascending(modes: seq<string>) {
    modes == [] || ((forall m :: m in modes[1..] ==> TextLess(modes[0], m)) && Ascending(modes[1..]))
  }

  lemma {:induction false} InsertSorts(m: string, sorted: seq<string>)
    requires Ascending(sorted) && m !in sorted
    ensures Ascending(InsertMode(m, sorted))
    ensures forall x :: x in InsertMode(m, sorted) <==> x == m || x in sorted
  {
    if sorted != [] {
      assert sorted == [sorted[0]] + sorted[1..];
      TextOrder(sorted[0], m);
      if TextLess(sorted[0], m) {
        InsertSorts(m, sorted[1..]);
        var rest := InsertMode(m, sorted[1..]);
        assert ([sorted[0]] + rest)[1..] == rest;
      } else {
        forall x | x in sorted
          ensures TextLess(m, x)
        {
          if x != sorted[0] {
            TextTransitive(m, sorted[0], x);
          }
        }
        assert ([m] + sorted)[1..] == sorted;
      }
    } else {
      assert [m][1..] == [];
    }
  }

  lemma {:induction false} AscendingDistinct(modes: seq<string>)
    requires Ascending(modes)
    ensures Distinct(modes)
  {
    if modes != [] {
      AscendingDistinct(modes[1..]);
      forall i, j | 0 <= i < j < |modes|
        ensures modes[i] != modes[j]
      {
        assert modes[j] == modes[1..][j - 1];
        if i == 0 {
          assert modes[1..][j - 1] in modes[1..];
          TextOrder(modes[0], modes[j]);
        } else {
          assert modes[i] == modes[1..][i - 1];
        }
      }
    }
  }

  /** Sorting orders the modes and keeps them. */
  lemma {:induction false} SortKeepsModes(modes: seq<string>)
    requires Distinct(modes)
    ensures Ascending(SortModes(modes)) && SameModes(SortModes(modes), modes)
  {
    if modes != [] {
      var rest := modes[1..];
      assert modes == [modes[0]] + rest;
      assert forall i :: 0 <= i < |rest| ==> rest[i] == modes[i + 1];
      SortKeepsModes(rest);
      assert modes[0] !in rest;
      InsertSorts(modes[0], SortModes(rest));
    }
  }

  // ---- Metadata ----

  /** The modes to record for a source of modes, if it restricts anything. */
  function Recorded(source: Json): Option<Json> {
    var normalized := Normalize(source);
    if normalized.None? then None
    else Some(JObj(map[MODES := JArr(Strings(SortModes(normalized.value)))]))
  }

  function Merge(metadata: Metadata, source: Json): Metadata {
    var recorded := Recorded(source);
    if recorded.None? then metadata
    else
      var merged := if metadata.Some? then metadata.value else map[];
      var opencode := if OPENCODE in merged && merged[OPENCODE].JObj? then merged[OPENCODE].fields else map[];
      Some(merged[OPENCODE := JObj(opencode[NEGOTIATION := recorded.value])])
  }

  function Extract(metadata: Metadata): Option<seq<string>> {
    if metadata.None? then None
    else
      var m := metadata.value;
      if OPENCODE !in m || !m[OPENCODE].JObj? then None
      else
        var opencode := m[OPENCODE].fields;
        if NEGOTIATION !in opencode || !opencode[NEGOTIATION].JObj? then None
        else
          var negotiation := opencode[NEGOTIATION].fields;
          if MODES !in negotiation then None else Normalize(negotiation[MODES])
  }

  function Annotate(p: Payload, source: Json): Payload {
    if Normalize(source).None? then p
    else
      match p
      case TaskPayload(t) => TaskPayload(t.(metadata := Merge(t.metadata, source)))
      case StatusUpdate(message, m, rest) => StatusUpdate(message, Merge(m, source), rest)
      case ArtifactUpdate(artifact, m, rest) => ArtifactUpdate(artifact, Merge(m, source), rest)
      case MessagePayload(_) => p
      case OtherPayload(_) => p
  }

  lemma SortedModes(source: Json)
    requires Normalize(source).Some?
    ensures var sorted := SortModes(Normalize(source).value);
            && IsModes(sorted) && Ascending(sorted) && SameModes(sorted, Normalize(source).value)
            && Normalize(JArr(Strings(sorted))) == Some(sorted)
  {
    NormalizeMeans(source);
    var modes := Normalize(source).value;
    SortKeepsModes(modes);
    var sorted := SortModes(modes);
    AscendingDistinct(sorted);
    assert modes[0] in modes;
    assert sorted != [];
    NormalizeTwice(sorted);
  }

  /** The modes read back are the set merged in; a source that restricts nothing leaves the metadata alone. */
  lemma ExtractAfterMerge(metadata: Metadata, source: Json)
    ensures Normalize(source).None? ==> Merge(metadata, source) == metadata
    ensures Normalize(source).Some? ==>
              && Extract(Merge(metadata, source)).Some?
              && SameModes(Extract(Merge(metadata, source)).value, Normalize(source).value)
  {
    if Normalize(source).Some? {
      SortedModes(source);
    }
  }

  /** Merging touches the negotiation entry and nothing else. */
  lemma MergeKeepsTheRest(metadata: Metadata, source: Json, key: string)
    requires Normalize(source).Some?
    ensures Merge(metadata, source).Some?
    ensures var before, after := if metadata.Some? then metadata.value else map[], Merge(metadata, source).value;
            && after.Keys == before.Keys + {OPENCODE}
            && (key in before && key != OPENCODE ==> after[key] == before[key])
            && after[OPENCODE].JObj?
            && (OPENCODE in before && before[OPENCODE].JObj? ==>
                  && after[OPENCODE].fields.Keys == before[OPENCODE].fields.Keys + {NEGOTIATION}
                  && (key in before[OPENCODE].fields && key != NEGOTIATION
                      ==> after[OPENCODE].fields[key] == before[OPENCODE].fields[key]))
  {
  }

  lemma MergeTwice(metadata: Metadata, source: Json)
    ensures Merge(Merge(metadata, source), source) == Merge(metadata, source)
  {
    if Normalize(source).Some? {
      var recorded := Recorded(source).value;
      var once := Merge(metadata, source).value;
      var opencode := once[OPENCODE].fields;
      assert opencode[NEGOTIATION := recorded] == opencode;
      assert once[OPENCODE := JObj(opencode)] == once;
    }
  }

  // ---- Emitting and reading ----

  /** What is done to an event before it is stored and emitted. */
  function Transform(dumps: Json -> string, p: Payload, source: Json): Option<Payload> {
    var negotiated := Apply(dumps, p, source);
    if negotiated.None? then None else Some(Annotate(negotiated.value, source))
  }

  /** What is done to a stored task before it is rendered. */
  function OnRead(dumps: Json -> string, t: Task): Task {
    var modes := Extract(t.metadata);
    if modes.None? then t
    else
      match Apply(dumps, TaskPayload(t), JArr(Strings(modes.value)))
      case Some(TaskPayload(filtered)) => filtered
      case _ => t
  }

  /** A task that was filtered and annotated when it was emitted is not changed by filtering it again on read. */
  lemma ReadingChangesNothing(dumps: Json -> string, t: Task, source: Json)
    requires Normalize(source).Some?
    ensures var emitted := Transform(dumps, TaskPayload(t), source);
            && emitted.Some? && emitted.value.TaskPayload?
            && OnRead(dumps, emitted.value.task) == emitted.value.task
  {
    var modes := Normalize(source).value;
    var sorted := SortModes(modes);
    SortedModes(source);
    var filtered := FilterTask(dumps, t, modes);
    var stored := filtered.(metadata := Merge(filtered.metadata, source));
    assert Transform(dumps, TaskPayload(t), source) == Some(TaskPayload(stored));
    assert Extract(stored.metadata) == Some(sorted);
    TaskTwice(dumps, t, modes);
    SameTask(dumps, stored, sorted, modes);
    assert FilterTask(dumps, stored, modes) == FilterTask(dumps, filtered, modes).(metadata := stored.metadata);
  }

  /** Read filtering alone already settles: reading what was read gives the same task. */
  lemma ReadingTwice(dumps: Json -> string, t: Task)
    ensures OnRead(dumps, OnRead(dumps, t)) == OnRead(dumps, t)
  {
    if Extract(t.metadata).Some? {
      var source := JArr(Strings(Extract(t.metadata).value));
      if Normalize(source).Some? {
        TaskTwice(dumps, t, Normalize(source).value);
      }
    }
  }

  /** The parts of an artifact appended to chunk by chunk, and the same chunks filtered on their way. */
  function Joined(chunks: seq<seq<Part>>): seq<Part> {
    if chunks == [] then [] else chunks[0] + Joined(chunks[1..])
  }

  function JoinedFiltered(dumps: Json -> string, chunks: seq<seq<Part>>, modes: seq<string>): seq<Part> {
    if chunks == [] then [] else Filtered(dumps, chunks[0], modes) + JoinedFiltered(dumps, chunks[1..], modes)
  }

  /** An artifact streamed in filtered chunks is the filtered artifact, and reading it filters nothing more away. */
  lemma {:induction false} StreamedChunksFilterAsOne(dumps: Json -> string, chunks: seq<seq<Part>>, modes: seq<string>)
    ensures JoinedFiltered(dumps, chunks, modes) == Filtered(dumps, Joined(chunks), modes)
    ensures Filtered(dumps, JoinedFiltered(dumps, chunks, modes), modes) == JoinedFiltered(dumps, chunks, modes)
  {
    if chunks != [] {
      StreamedChunksFilterAsOne(dumps, chunks[1..], modes);
      FilteringDistributes(dumps, chunks[0], Joined(chunks[1..]), modes);
    }
    FilteredTwice(dumps, Joined(chunks), modes);
  }
}

/** What a client gets to see: each kind of part, and each kind of payload, in terms of the modes alone. */
module OutputVisibility {
  import opened Basics
  import opened OutputModes
  import opened NegotiationMetadata

  // ---- One part ----

  /** What is left of a part: text and JSON by their own modes, JSON as its text where only text is accepted, a file by
      its MIME type or as a byte stream, and anything else as it is. With FilteringDistributes this is all of filtering. */
  lemma PartShown(dumps: Json -> string, part: Part, modes: seq<string>)
    ensures Filtered(dumps, [part], modes)
            == match part
               case TextPart(_, _) => if "text/plain" in modes then [part] else []
               case DataPart(data, _) =>
                 if "application/json" in modes then [part]
                 else if "text/plain" in modes then [TextPart(dumps(data), JNull)]
                 else []
               case FilePart(mime, _, _) =>
                 if (if mime.Some? && mime.value != "" then mime.value else "application/octet-stream") in modes then [part] else []
               case OtherPart(_) => [part]
  {
    assert [part][1..] == [];
  }

  // ---- Messages and artifacts ----

  /** Messages are filtered one by one: one with nothing left is dropped, any other keeps everything but its parts. */
  lemma {:induction false} MessageShown(dumps: Json -> string, ms: seq<Message>, m: Message, modes: seq<string>)
    ensures FilterMessages(dumps, [], modes) == []
    ensures var parts := Filtered(dumps, m.parts, modes);
            FilterMessages(dumps, ms + [m], modes)
            == FilterMessages(dumps, ms, modes) + if parts == [] then [] else [Message(parts, m.rest)]
  {
    if ms == [] {
      assert [] + [m] == [m] && [m][1..] == [];
    } else {
      assert (ms + [m])[1..] == ms[1..] + [m];
      MessageShown(dumps, ms[1..], m, modes);
      JoinMessages(FilterMessages(dumps, [ms[0]], modes), FilterMessages(dumps, ms[1..], modes), FilterMessages(dumps, [m], modes));
      FirstMessage(dumps, ms, modes);
      FirstMessage(dumps, ms + [m], modes);
      FirstMessage(dumps, [m], modes);
    }
  }

  lemma FirstMessage(dumps: Json -> string, ms: seq<Message>, modes: seq<string>)
    requires ms != []
    ensures FilterMessages(dumps, ms, modes) == FilterMessages(dumps, [ms[0]], modes) + FilterMessages(dumps, ms[1..], modes)
    ensures var parts := Filtered(dumps, ms[0].parts, modes);
            FilterMessages(dumps, [ms[0]], modes) == if parts == [] then [] else [Message(parts, ms[0].rest)]
  {
    assert [ms[0]][1..] == [];
  }

  lemma JoinMessages(a: seq<Message>, b: seq<Message>, c: seq<Message>)
    ensures (a + b) + c == a + (b + c)
  {
  }

  lemma {:induction false} ArtifactShown(dumps: Json -> string, items: seq<Artifact>, a: Artifact, modes: seq<string>)
    ensures FilterArtifacts(dumps, [], modes) == []
    ensures var parts := Filtered(dumps, a.parts, modes);
            FilterArtifacts(dumps, items + [a], modes)
            == FilterArtifacts(dumps, items, modes) + if parts == [] then [] else [Artifact(parts, a.rest)]
  {
    if items == [] {
      assert [] + [a] == [a] && [a][1..] == [];
    } else {
      assert (items + [a])[1..] == items[1..] + [a];
      ArtifactShown(dumps, items[1..], a, modes);
      JoinArtifacts(FilterArtifacts(dumps, [items[0]], modes), FilterArtifacts(dumps, items[1..], modes), FilterArtifacts(dumps, [a], modes));
      FirstArtifact(dumps, items, modes);
      FirstArtifact(dumps, items + [a], modes);
      FirstArtifact(dumps, [a], modes);
    }
  }

  lemma FirstArtifact(dumps: Json -> string, items: seq<Artifact>, modes: seq<string>)
    requires items != []
    ensures FilterArtifacts(dumps, items, modes) == FilterArtifacts(dumps, [items[0]], modes) + FilterArtifacts(dumps, items[1..], modes)
    ensures var parts := Filtered(dumps, items[0].parts, modes);
            FilterArtifacts(dumps, [items[0]], modes) == if parts == [] then [] else [Artifact(parts, items[0].rest)]
  {
    assert [items[0]][1..] == [];
  }

  lemma JoinArtifacts(a: seq<Artifact>, b: seq<Artifact>, c: seq<Artifact>)
    ensures (a + b) + c == a + (b + c)
  {
  }

  // ---- Payloads ----

  /** Every list of parts a payload shows. */
  function PartLists(p: Payload): set<seq<Part>> {
    match p
    case TaskPayload(t) =>
      (if t.message.Some? then {t.message.value.parts} else {})
      + (if t.history.Some? then set m | m in t.history.value :: m.parts else {})
      + (if t.artifacts.Some? then set a | a in t.artifacts.value :: a.parts else {})
    case ArtifactUpdate(a, _, _) => {a.parts}
    case StatusUpdate(m, _, _) => if m.Some? then {m.value.parts} else {}
    case MessagePayload(m) => {m.parts}
    case OtherPayload(_) => {}
  }

  /** A payload as it is, but for its parts. */
  predicate SameShell(p: Payload, q: Payload) {
    match p
    case TaskPayload(t) =>
      && q.TaskPayload? && q.task.metadata == t.metadata && q.task.rest == t.rest
      && (q.task.history.Some? <==> t.history.Some?) && (q.task.artifacts.Some? <==> t.artifacts.Some?)
    case ArtifactUpdate(a, metadata, rest) => q.ArtifactUpdate? && q.metadata == metadata && q.rest == rest && q.artifact.rest == a.rest
    case StatusUpdate(_, metadata, rest) => q.StatusUpdate? && q.metadata == metadata && q.rest == rest
    case MessagePayload(m) => q.MessagePayload? && q.reply.rest == m.rest
    case OtherPayload(_) => q == p
  }

  lemma {:induction false} MessagesAccepted(dumps: Json -> string, ms: seq<Message>, modes: seq<string>)
    ensures forall m :: m in FilterMessages(dumps, ms, modes) ==> m.parts != [] && AllAccepted(m.parts, modes)
    ensures (forall m :: m in ms ==> m.parts != [] && AllAccepted(m.parts, modes)) ==> FilterMessages(dumps, ms, modes) == ms
  {
    if ms != [] {
      MessagesAccepted(dumps, ms[1..], modes);
      FilteredIff(dumps, ms[0].parts, modes);
      assert ms == [ms[0]] + ms[1..];
    }
  }

  lemma {:induction false} ArtifactsAccepted(dumps: Json -> string, items: seq<Artifact>, modes: seq<string>)
    ensures forall a :: a in FilterArtifacts(dumps, items, modes) ==> a.parts != [] && AllAccepted(a.parts, modes)
    ensures (forall a :: a in items ==> a.parts != [] && AllAccepted(a.parts, modes)) ==> FilterArtifacts(dumps, items, modes) == items
  {
    if items != [] {
      ArtifactsAccepted(dumps, items[1..], modes);
      FilteredIff(dumps, items[0].parts, modes);
      assert items == [items[0]] + items[1..];
    }
  }

  lemma TaskShown(dumps: Json -> string, t: Task, modes: seq<string>)
    ensures var u := FilterTask(dumps, t, modes);
            && SameShell(TaskPayload(t), TaskPayload(u))
            && (forall parts :: parts in PartLists(TaskPayload(u)) ==> parts != [] && AllAccepted(parts, modes))
            && ((forall parts :: parts in PartLists(TaskPayload(t)) ==> parts != [] && AllAccepted(parts, modes)) ==> u == t)
  {
    var u := FilterTask(dumps, t, modes);
    var all := forall parts :: parts in PartLists(TaskPayload(t)) ==> parts != [] && AllAccepted(parts, modes);
    if t.message.Some? {
      FilteredIff(dumps, t.message.value.parts, modes);
    }
    if t.history.Some? {
      MessagesAccepted(dumps, t.history.value, modes);
      assert all ==> forall m :: m in t.history.value ==> m.parts in PartLists(TaskPayload(t));
    }
    if t.artifacts.Some? {
      ArtifactsAccepted(dumps, t.artifacts.value, modes);
      assert all ==> forall a :: a in t.artifacts.value ==> a.parts in PartLists(TaskPayload(t));
    }
  }

  /** A client that names its modes is shown no part it does not accept, in no kind of payload; a payload it accepts all
      of reaches it unchanged, only the parts ever differ, and it is kept from nothing but an artifact update with
      nothing left. One that names none is shown everything. */
  lemma OnlyAcceptedIsShown(dumps: Json -> string, p: Payload, source: Json)
    ensures Normalize(source).None? ==> Apply(dumps, p, source) == Some(p)
    ensures Normalize(source).Some? ==>
              var modes, shown := Normalize(source).value, Apply(dumps, p, source);
              && (shown.None? <==> p.ArtifactUpdate? && Filtered(dumps, p.artifact.parts, modes) == [])
              && (shown.Some? ==>
                    && SameShell(p, shown.value)
                    && (forall parts :: parts in PartLists(shown.value) ==> AllAccepted(parts, modes))
                    && ((forall parts :: parts in PartLists(p) ==> parts != [] && AllAccepted(parts, modes)) ==> shown.value == p))
  {
    if Normalize(source).Some? {
      var modes := Normalize(source).value;
      match p
      case TaskPayload(t) => TaskShown(dumps, t, modes);
      case ArtifactUpdate(a, _, _) => FilteredIff(dumps, a.parts, modes);
      case StatusUpdate(m, _, _) =>
        if m.Some? {
          FilteredIff(dumps, m.value.parts, modes);
        }
      case MessagePayload(m) => FilteredIff(dumps, m.parts, modes);
      case OtherPayload(_) =>
    }
  }

  // ---- The recorded modes ----

  function MetadataOf(p: Payload): Metadata {
    match p
    case TaskPayload(t) => t.metadata
    case ArtifactUpdate(_, m, _) => m
    case StatusUpdate(_, m, _) => m
    case _ => None
  }

  /** Every emitted task, status and artifact update carries the modes it was filtered by. */
  lemma EmittedModesAreRecorded(dumps: Json -> string, p: Payload, source: Json)
    requires Normalize(source).Some? && Transform(dumps, p, source).Some?
    requires p.TaskPayload? || p.ArtifactUpdate? || p.StatusUpdate?
    ensures var recorded := Extract(MetadataOf(Transform(dumps, p, source).value));
            recorded.Some? && SameModes(recorded.value, Normalize(source).value)
  {
    ExtractAfterMerge(MetadataOf(p), source);
    OnlyAcceptedIsShown(dumps, p, source);
  }

  /** A task with recorded modes is read with no part that they do not accept, and otherwise as it is stored. */
  lemma ReadingShowsAccepted(dumps: Json -> string, t: Task)
    ensures Extract(t.metadata).None? ==> OnRead(dumps, t) == t
    ensures Extract(t.metadata).Some? ==>
              forall parts :: parts in PartLists(TaskPayload(OnRead(dumps, t))) ==> parts != [] && AllAccepted(parts, Extract(t.metadata).value)
  {
    if Extract(t.metadata).Some? {
      var modes := Extract(t.metadata).value;
      ExtractIsModes(t.metadata);
      NormalizeTwice(modes);
      TaskShown(dumps, t, modes);
    }
  }

  lemma ExtractIsModes(metadata: Metadata)
    requires Extract(metadata).Some?
    ensures IsModes(Extract(metadata).value)
  {
    NormalizeMeans(metadata.value[OPENCODE].fields[NEGOTIATION].fields[MODES]);
  }
}

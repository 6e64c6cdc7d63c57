/** Output negotiation: which parts of a payload a client accepts, and how the choice is kept in metadata. */
module OutputModes {
  import opened Basics

  datatype Json = JNull | JBool(b: bool) | JNum(n: real) | JStr(s: string) | JArr(items: seq<Json>) | JObj(fields: map<string, Json>)

  type Metadata = Option<map<string, Json>>

  // ---- Normalised modes ----

  function LowerChar(c: char): char { if 'A' <= c <= 'Z' then c - 'A' + 'a' else c }

  function Lower(s: string): (t: string)
    ensures |t| == |s|
  {
    if s == "" then "" else [LowerChar(s[0])] + Lower(s[1..])
  }

  function Canonical(s: string): string { Lower(Strip(s)) }

  predicate Wildcard(mode: string) { mode == "*" || mode == "*/*" }

  /** The modes kept so far, and the values still to look at; None once anything is accepted. */
  function NormalizeFrom(values: seq<Json>, kept: seq<string>): Option<seq<string>>
    decreases |values|
  {
    if values == [] then if kept == [] then None else Some(kept)
    else if !values[0].JStr? then NormalizeFrom(values[1..], kept)
    else
      var mode := Canonical(values[0].s);
      if mode == "" || mode in kept then NormalizeFrom(values[1..], kept)
      else if Wildcard(mode) then None
      else NormalizeFrom(values[1..], kept + [mode])
  }

  /** Only a list is a source of modes; None means that every output is accepted. */
  function Normalize(source: Json): Option<seq<string>> {
    if source.JArr? then NormalizeFrom(source.items, []) else None
  }

  method NormalizeAcceptedOutputModes(source: Json) returns (modes: Option<seq<string>>)
    ensures modes == Normalize(source)
  {
    if !source.JArr? {
      return None;
    }
    var values, normalized: seq<string> := source.items, [];
    var i := 0;
    while i < |values|
      invariant 0 <= i <= |values|
      invariant NormalizeFrom(values[i..], normalized) == Normalize(source)
    {
      assert values[i..][0] == values[i] && values[i..][1..] == values[i + 1..];
      if values[i].JStr? {
        var mode := Canonical(values[i].s);
        if mode != "" && mode !in normalized {
          if mode == "*" || mode == "*/*" {
            return None;
          }
          normalized := normalized + [mode];
        }
      }
      i := i + 1;
    }
    assert values[i..] == [];
    modes := if normalized == [] then None else Some(normalized);
  }

  // ---- What normalising means ----

  predicate Distinct(modes: seq<string>) { forall i, j :: 0 <= i < j < |modes| ==> modes[i] != modes[j] }

  /** A list that normalising yields: not empty, canonical, without wildcards and without repeats. */
  predicate IsModes(modes: seq<string>) {
    modes != [] && Distinct(modes) && forall m :: m in modes ==> m != "" && !Wildcard(m) && Canonical(m) == m
  }

  function Strings(modes: seq<string>): seq<Json> { seq(|modes|, i requires 0 <= i < |modes| => JStr(modes[i])) }

  /** The canonical forms of the strings among some values, blanks aside. */
  function Named(values: seq<Json>): set<string> {
    set v | v in values && v.JStr? && Canonical(v.s) != "" :: Canonical(v.s)
  }

  lemma {:induction false} LowerChars(s: string, i: nat)
    requires i < |s|
    ensures Lower(s)[i] == LowerChar(s[i])
  {
    if i > 0 {
      LowerChars(s[1..], i - 1);
    }
  }

  /** A canonical form is the stripped string with each capital letter of ASCII made the small one 32 code points on. */
  lemma CanonicalMeans(s: string, i: nat)
    requires i < |Strip(s)|
    ensures |Canonical(s)| == |Strip(s)|
    ensures var c := Strip(s)[i] as int; Canonical(s)[i] as int == if 65 <= c <= 90 then c + 32 else c
  {
    LowerChars(Strip(s), i);
  }

  /** Canonical forms are canonical. */
  lemma CanonicalTwice(s: string)
    ensures Canonical(Canonical(s)) == Canonical(s)
  {
    var t := Strip(s);
    StripTrims(s);
    if t != "" {
      LowerChars(t, 0);
      LowerChars(t, |t| - 1);
    }
    StripTrims(Lower(t));
    assert Strip(Lower(t)) == Lower(t);
    forall i | 0 <= i < |t|
      ensures Lower(Lower(t))[i] == Lower(t)[i]
    {
      LowerChars(Lower(t), i);
      LowerChars(t, i);
    }
    assert Lower(Lower(t)) == Lower(t);
  }

  lemma NamedStep(values: seq<Json>)
    requires values != []
    ensures var mode := if values[0].JStr? then Canonical(values[0].s) else "";
            Named(values) == Named(values[1..]) + if mode == "" then {} else {mode}
  {
    assert values == [values[0]] + values[1..];
  }

  lemma MoreModes(kept: seq<string>, mode: string)
    requires kept == [] || IsModes(kept)
    requires mode != "" && mode !in kept && !Wildcard(mode) && Canonical(mode) == mode
    ensures IsModes(kept + [mode]) && forall m :: m in kept + [mode] <==> m in kept || m == mode
  {
  }

  lemma {:induction false} NormalizeFromMeans(values: seq<Json>, kept: seq<string>)
    requires kept == [] || IsModes(kept)
    ensures var r := NormalizeFrom(values, kept);
            && (r.Some? <==> (forall m :: m in Named(values) && m !in kept ==> !Wildcard(m)) && (kept != [] || Named(values) != {}))
            && (r.Some? ==> IsModes(r.value) && forall m :: m in r.value <==> m in kept || m in Named(values))
    decreases |values|
  {
    if values == [] {
      assert Named(values) == {};
    } else {
      var rest := values[1..];
      var mode := if values[0].JStr? then Canonical(values[0].s) else "";
      NamedStep(values);
      if values[0].JStr? {
        CanonicalTwice(values[0].s);
      }
      if mode == "" || mode in kept {
        NormalizeFromMeans(rest, kept);
      } else if !Wildcard(mode) {
        MoreModes(kept, mode);
        NormalizeFromMeans(rest, kept + [mode]);
      }
    }
  }

  /** Modes are recovered exactly when some are named and none is a wildcard, and then they are the named ones. */
  lemma NormalizeMeans(source: Json)
    ensures var named := if source.JArr? then Named(source.items) else {};
            && (Normalize(source).Some? <==> named != {} && forall m :: m in named ==> !Wildcard(m))
            && (Normalize(source).Some? ==>
                  IsModes(Normalize(source).value) && forall m :: m in Normalize(source).value <==> m in named)
  {
    if source.JArr? {
      NormalizeFromMeans(source.items, []);
    }
  }

  /** Nothing is restricted as soon as one string among the values is a wildcard. */
  lemma WildcardsAcceptAll(values: seq<Json>, i: nat)
    requires i < |values| && values[i].JStr? && (Canonical(values[i].s) == "*" || Canonical(values[i].s) == "*/*")
    ensures Normalize(JArr(values)) == None
  {
    assert values[i] in values;
    NormalizeMeans(JArr(values));
    var mode := Canonical(values[i].s);
    assert mode in Named(JArr(values).items) && Wildcard(mode);
  }

  lemma {:induction false} NormalizeKeeps(modes: seq<string>, kept: seq<string>)
    requires IsModes(kept + modes)
    ensures NormalizeFrom(Strings(modes), kept) == Some(kept + modes)
    decreases |modes|
  {
    if modes == [] {
      assert kept + modes == kept;
    } else {
      var mode := modes[0];
      assert (kept + modes)[|kept|] == mode && mode in kept + modes;
      forall i | 0 <= i < |kept|
        ensures kept[i] != mode
      {
        assert (kept + modes)[i] == kept[i];
      }
      assert Strings(modes)[1..] == Strings(modes[1..]);
      assert kept + modes == kept + [mode] + modes[1..];
      NormalizeKeeps(modes[1..], kept + [mode]);
    }
  }

  /** Normalising normalised modes changes nothing. */
  lemma NormalizeTwice(modes: seq<string>)
    requires IsModes(modes)
    ensures Normalize(JArr(Strings(modes))) == Some(modes)
  {
    assert [] + modes == modes;
    NormalizeKeeps(modes, []);
  }

  // ---- Filtering ----

  datatype Part =
    | TextPart(text: string, note: Json)
    | DataPart(data: Json, note: Json)
    | FilePart(mimeType: Option<string>, content: string, note: Json)
    | OtherPart(kind: string)

  function MediaType(part: Part): Option<string> {
    match part
    case TextPart(_, _) => Some("text/plain")
    case DataPart(_, _) => Some("application/json")
    case FilePart(mime, _, _) => Some(if mime.None? || mime.value == "" then "application/octet-stream" else mime.value)
    case OtherPart(_) => None
  }

  /** The text a part can be replaced by; dumps renders JSON. */
  function TextFallback(dumps: Json -> string, part: Part): Option<string> {
    match part
    case TextPart(text, _) => Some(text)
    case DataPart(data, _) => Some(dumps(data))
    case FilePart(_, _, _) => None
    case OtherPart(_) => None
  }

  predicate Accepted(part: Part, modes: seq<string>) {
    MediaType(part).None? || MediaType(part).value in modes
  }

  function FilterPart(dumps: Json -> string, part: Part, modes: seq<string>): seq<Part> {
    if Accepted(part, modes) then [part]
    else if "text/plain" in modes && TextFallback(dumps, part).Some? then [TextPart(TextFallback(dumps, part).value, JNull)]
    else []
  }

  function Filtered(dumps: Json -> string, parts: seq<Part>, modes: seq<string>): seq<Part> {
    if parts == [] then [] else FilterPart(dumps, parts[0], modes) + Filtered(dumps, parts[1..], modes)
  }

  method FilterParts(dumps: Json -> string, parts: seq<Part>, modes: seq<string>) returns (filtered: seq<Part>)
    ensures filtered == Filtered(dumps, parts, modes)
  {
    filtered := [];
    var i := 0;
    while i < |parts|
      invariant 0 <= i <= |parts|
      invariant filtered + Filtered(dumps, parts[i..], modes) == Filtered(dumps, parts, modes)
    {
      assert parts[i..][0] == parts[i] && parts[i..][1..] == parts[i + 1..];
      Regroup(filtered, FilterPart(dumps, parts[i], modes), Filtered(dumps, parts[i + 1..], modes));
      var kept := KeepPart(dumps, parts[i], modes);
      filtered := filtered + kept;
      i := i + 1;
    }
    assert parts[i..] == [] && filtered + [] == filtered;
  }

  /** The body of the loop: the part itself, its text fallback, or nothing. */
  method KeepPart(dumps: Json -> string, part: Part, modes: seq<string>) returns (kept: seq<Part>)
    ensures kept == FilterPart(dumps, part, modes)
  {
    var mediaType := MediaType(part);
    if mediaType.None? || mediaType.value in modes {
      return [part];
    }
    kept := [];
    if "text/plain" in modes {
      var fallback := TextFallback(dumps, part);
      if fallback.Some? {
        kept := [TextPart(fallback.value, JNull)];
      }
    }
  }

  datatype Message = Message(parts: seq<Part>, rest: string)

  datatype Artifact = Artifact(parts: seq<Part>, rest: string)

  datatype Task = Task(message: Option<Message>, history: Option<seq<Message>>, artifacts: Option<seq<Artifact>>,
                       metadata: Metadata, rest: string)

  datatype Payload =
    | TaskPayload(task: Task)
    | ArtifactUpdate(artifact: Artifact, metadata: Metadata, rest: string)
    | StatusUpdate(message: Option<Message>, metadata: Metadata, rest: string)
    | MessagePayload(reply: Message)
    | OtherPayload(kind: string)

  function FilterMessage(dumps: Json -> string, m: Message, modes: seq<string>): Option<Message> {
    var parts := Filtered(dumps, m.parts, modes);
    if parts == [] then None else Some(m.(parts := parts))
  }

  function FilterArtifact(dumps: Json -> string, a: Artifact, modes: seq<string>): Option<Artifact> {
    var parts := Filtered(dumps, a.parts, modes);
    if parts == [] then None else Some(a.(parts := parts))
  }

  function FilterOptionalMessage(dumps: Json -> string, m: Option<Message>, modes: seq<string>): Option<Message> {
    if m.None? then None else FilterMessage(dumps, m.value, modes)
  }

  function FilterMessages(dumps: Json -> string, ms: seq<Message>, modes: seq<string>): seq<Message> {
    if ms == [] then []
    else
      var m := FilterMessage(dumps, ms[0], modes);
      (if m.Some? then [m.value] else []) + FilterMessages(dumps, ms[1..], modes)
  }

  function FilterArtifacts(dumps: Json -> string, items: seq<Artifact>, modes: seq<string>): seq<Artifact> {
    if items == [] then []
    else
      var a := FilterArtifact(dumps, items[0], modes);
      (if a.Some? then [a.value] else []) + FilterArtifacts(dumps, items[1..], modes)
  }

  function FilterTask(dumps: Json -> string, t: Task, modes: seq<string>): Task {
    t.(message := FilterOptionalMessage(dumps, t.message, modes),
       history := if t.history.None? then None else Some(FilterMessages(dumps, t.history.value, modes)),
       artifacts := if t.artifacts.None? then None else Some(FilterArtifacts(dumps, t.artifacts.value, modes)))
  }

  /** None drops the payload: an artifact update with nothing left to show. */
  function Apply(dumps: Json -> string, p: Payload, source: Json): Option<Payload> {
    var normalized := Normalize(source);
    if normalized.None? then Some(p)
    else
      var modes := normalized.value;
      match p
      case ArtifactUpdate(a, _, _) =>
        var kept := FilterArtifact(dumps, a, modes);
        if kept.None? then None else Some(p.(artifact := kept.value))
      case StatusUpdate(m, _, _) => Some(p.(message := FilterOptionalMessage(dumps, m, modes)))
      case TaskPayload(t) => Some(TaskPayload(FilterTask(dumps, t, modes)))
      case MessagePayload(m) =>
        var kept := FilterMessage(dumps, m, modes);
        Some(MessagePayload(if kept.Some? then kept.value else m.(parts := [])))
      case OtherPayload(_) => Some(p)
  }

  // ---- Laws of filtering ----

  predicate AllAccepted(parts: seq<Part>, modes: seq<string>) { forall p :: p in parts ==> Accepted(p, modes) }

  /** Filtering keeps a payload's parts as they are exactly when the client accepts them all. */
  lemma {:induction false} FilteredIff(dumps: Json -> string, parts: seq<Part>, modes: seq<string>)
    ensures AllAccepted(Filtered(dumps, parts, modes), modes)
    ensures Filtered(dumps, parts, modes) == parts <==> AllAccepted(parts, modes)
    ensures |Filtered(dumps, parts, modes)| <= |parts|
  {
    if parts != [] {
      FilteredIff(dumps, parts[1..], modes);
      assert parts == [parts[0]] + parts[1..];
      var first, rest := FilterPart(dumps, parts[0], modes), Filtered(dumps, parts[1..], modes);
      if first + rest == parts {
        assert |first| == 1 && first[0] == (first + rest)[0] && rest == (first + rest)[1..];
      }
    }
  }

  lemma FilteredTwice(dumps: Json -> string, parts: seq<Part>, modes: seq<string>)
    ensures Filtered(dumps, Filtered(dumps, parts, modes), modes) == Filtered(dumps, parts, modes)
  {
    FilteredIff(dumps, parts, modes);
    FilteredIff(dumps, Filtered(dumps, parts, modes), modes);
  }

  /** Filtering a stream of chunks one by one is filtering what they make up together. */
  lemma {:induction false} FilteringDistributes(dumps: Json -> string, a: seq<Part>, b: seq<Part>, modes: seq<string>)
    ensures Filtered(dumps, a + b, modes) == Filtered(dumps, a, modes) + Filtered(dumps, b, modes)
  {
    if a == [] {
      assert a + b == b;
    } else {
      FilteringDistributes(dumps, a[1..], b, modes);
      assert (a + b)[1..] == a[1..] + b;
      Regroup(FilterPart(dumps, a[0], modes), Filtered(dumps, a[1..], modes), Filtered(dumps, b, modes));
    }
  }

  lemma Regroup(a: seq<Part>, b: seq<Part>, c: seq<Part>)
    ensures a + (b + c) == (a + b) + c
  {
  }

  lemma {:induction false} MessagesTwice(dumps: Json -> string, ms: seq<Message>, modes: seq<string>)
    ensures FilterMessages(dumps, FilterMessages(dumps, ms, modes), modes) == FilterMessages(dumps, ms, modes)
  {
    if ms != [] {
      MessagesTwice(dumps, ms[1..], modes);
      FilteredTwice(dumps, ms[0].parts, modes);
      var m, rest := FilterMessage(dumps, ms[0], modes), FilterMessages(dumps, ms[1..], modes);
      if m.Some? {
        assert ([m.value] + rest)[1..] == rest;
      } else {
        assert [] + rest == rest;
      }
    }
  }

  lemma {:induction false} ArtifactsTwice(dumps: Json -> string, items: seq<Artifact>, modes: seq<string>)
    ensures FilterArtifacts(dumps, FilterArtifacts(dumps, items, modes), modes) == FilterArtifacts(dumps, items, modes)
  {
    if items != [] {
      ArtifactsTwice(dumps, items[1..], modes);
      FilteredTwice(dumps, items[0].parts, modes);
      var a, rest := FilterArtifact(dumps, items[0], modes), FilterArtifacts(dumps, items[1..], modes);
      if a.Some? {
        assert ([a.value] + rest)[1..] == rest;
      } else {
        assert [] + rest == rest;
      }
    }
  }

  lemma TaskTwice(dumps: Json -> string, t: Task, modes: seq<string>)
    ensures FilterTask(dumps, FilterTask(dumps, t, modes), modes) == FilterTask(dumps, t, modes)
  {
    if t.message.Some? {
      FilteredTwice(dumps, t.message.value.parts, modes);
    }
    if t.history.Some? {
      MessagesTwice(dumps, t.history.value, modes);
    }
    if t.artifacts.Some? {
      ArtifactsTwice(dumps, t.artifacts.value, modes);
    }
  }

  /** Filtering any payload twice is filtering it once. */
  lemma ApplyTwice(dumps: Json -> string, p: Payload, source: Json)
    requires Apply(dumps, p, source).Some?
    ensures Apply(dumps, Apply(dumps, p, source).value, source) == Apply(dumps, p, source)
  {
    if Normalize(source).Some? {
      var modes := Normalize(source).value;
      match p {
        case ArtifactUpdate(a, _, _) => FilteredTwice(dumps, a.parts, modes);
        case StatusUpdate(m, _, _) =>
          if m.Some? {
            FilteredTwice(dumps, m.value.parts, modes);
          }
        case TaskPayload(t) => TaskTwice(dumps, t, modes);
        case MessagePayload(m) => FilteredTwice(dumps, m.parts, modes);
        case OtherPayload(_) =>
      }
    }
  }

  // ---- Only the set of modes matters ----

  ghost predicate SameModes(a: seq<string>, b: seq<string>) { forall m :: m in a <==> m in b }

  lemma {:induction false} SameFiltered(dumps: Json -> string, parts: seq<Part>, a: seq<string>, b: seq<string>)
    requires SameModes(a, b)
    ensures Filtered(dumps, parts, a) == Filtered(dumps, parts, b)
  {
    if parts != [] {
      SameFiltered(dumps, parts[1..], a, b);
    }
  }

  lemma {:induction false} SameMessages(dumps: Json -> string, ms: seq<Message>, a: seq<string>, b: seq<string>)
    requires SameModes(a, b)
    ensures FilterMessages(dumps, ms, a) == FilterMessages(dumps, ms, b)
  {
    if ms != [] {
      SameMessages(dumps, ms[1..], a, b);
      SameFiltered(dumps, ms[0].parts, a, b);
    }
  }

  lemma {:induction false} SameArtifacts(dumps: Json -> string, items: seq<Artifact>, a: seq<string>, b: seq<string>)
    requires SameModes(a, b)
    ensures FilterArtifacts(dumps, items, a) == FilterArtifacts(dumps, items, b)
  {
    if items != [] {
      SameArtifacts(dumps, items[1..], a, b);
      SameFiltered(dumps, items[0].parts, a, b);
    }
  }

  lemma SameTask(dumps: Json -> string, t: Task, a: seq<string>, b: seq<string>)
    requires SameModes(a, b)
    ensures FilterTask(dumps, t, a) == FilterTask(dumps, t, b)
  {
    if t.message.Some? {
      SameFiltered(dumps, t.message.value.parts, a, b);
    }
    if t.history.Some? {
      SameMessages(dumps, t.history.value, a, b);
    }
    if t.artifacts.Some? {
      SameArtifacts(dumps, t.artifacts.value, a, b);
    }
  }
}

/** The stream contract, for every upstream feed: what a client sees, and how the order of upstream events matters. */
module StreamTheorems {
  import opened Basics
  import opened StreamState
  import opened StreamModel
  import opened StreamProperties
  import opened TaskStates

  /** The state a streaming request starts from. */
  predicate Initial(s: Run) {
    var o := s.channel.out;
    s == Start(Output(o.userText, o.stableMessageId, o.namespace, map[], map[], None, {}, false, false, 0), s.registry)
  }

  lemma FreshInv(cfg: Config, s0: Run, feed: seq<Item>)
    requires Initial(s0)
    ensures Inv(Consume(cfg, s0, feed)) && SameIdentity(s0.channel.out, Consume(cfg, s0, feed).channel.out)
  {
    forall f
      ensures Holds(f, s0.channel, [])
    {
      assert forall id :: Brackets(s0.channel, id);
    }
    ConsumeKeeps(cfg, s0, feed);
    ConsumeKeepsIdentity(cfg, s0, feed);
  }

  predicate SameIdentity(a: Output, b: Output) {
    a.userText == b.userText && a.namespace == b.namespace && a.stableMessageId == b.stableMessageId
  }

  /** Part events touch neither the interrupts nor the lifecycle of the run. */
  predicate OnlyParts(s: Run, t: Run) {
    && SameIdentity(s.channel.out, t.channel.out)
    && t.channel.out.pendingInterrupts == s.channel.out.pendingInterrupts
    && t == s.(channel := t.channel, parts := t.parts, pending := t.pending, log := t.log)
  }

  lemma {:induction false} EmitChunksKeepsIdentity(cfg: Config, ch: Channel, chunks: seq<Chunk>)
    ensures var o := EmitChunks(cfg, ch, chunks).out;
            SameIdentity(ch.out, o) && o.pendingInterrupts == ch.out.pendingInterrupts
    decreases |chunks|
  {
    if chunks != [] {
      EmitChunksKeepsIdentity(cfg, EmitChunk(cfg, ch, chunks[0]), chunks[1..]);
    }
  }

  lemma PublishOnlyParts(cfg: Config, s: Run, id: string, p: Part, log: seq<Log>)
    ensures OnlyParts(s, Publish(cfg, s, id, p, log))
  {
    EmitChunksKeepsIdentity(cfg, s.channel, Chunks(log));
  }

  lemma OnUpdateOnlyParts(cfg: Config, s: Run, id: string, u: PartUpdate, messageId: Option<string>)
    ensures OnlyParts(s, OnUpdate(cfg, s, id, u, messageId))
  {
    if u.blockType.Some? {
      var p := Upsert(s.parts, id, u.blockType.value, u.role, messageId);
      var (q, log) := Generate(id, p, GetOr(s.pending, id, []), u, messageId);
      PublishOnlyParts(cfg, s.(pending := s.pending - {id}), id, q, log);
    }
  }

  lemma OnPartOnlyParts(cfg: Config, s: Run, e: Event)
    ensures OnlyParts(s, OnPart(cfg, s, e))
  {
    if HasId(e.partId) {
      match e.kind
      case PartDelta(text) =>
        if e.partId.value in s.parts {
          var (p, log) := ApplyDelta(e.partId.value, s.parts[e.partId.value], text, e.messageId);
          PublishOnlyParts(cfg, s, e.partId.value, p, log);
        }
      case PartUpdated(u) => OnUpdateOnlyParts(cfg, s, e.partId.value, u, e.messageId);
      case _ =>
    }
  }

  lemma StepKeepsIdentity(cfg: Config, s: Run, item: Item)
    ensures SameIdentity(s.channel.out, Step(cfg, s, item).channel.out)
  {
    if item.Receive? {
      var e := item.event;
      var t := if e.eventSession == Some(cfg.sessionId) then OnSession(s, e) else s;
      OnSessionEffect(s, e);
      OnPartOnlyParts(cfg, t, e);
    }
  }

  lemma ObservedEffect(ch: Channel, e: Event)
    ensures SameIdentity(ch.out, Observed(ch, e).out)
    ensures Observed(ch, e).out.pendingInterrupts == ch.out.pendingInterrupts
  {
  }

  lemma OnAskedEffect(s: Run, id: RequestId, kind: InterruptType, details: string)
    ensures var t := OnAsked(s, id, kind, details);
            && SameIdentity(s.channel.out, t.channel.out)
            && t.channel.out.pendingInterrupts == s.channel.out.pendingInterrupts + {id}
            && t == s.(channel := t.channel, registry := t.registry)
  {
  }

  lemma OnResolvedEffect(s: Run, id: RequestId, kind: InterruptType, resolution: string)
    ensures var t := OnResolved(s, id, kind, resolution);
            && SameIdentity(s.channel.out, t.channel.out)
            && t.channel.out.pendingInterrupts == s.channel.out.pendingInterrupts - {id}
            && t == s.(channel := t.channel, registry := s.registry - {id})
  {
  }

  /** What a session event does to the interrupts and to the lifecycle of the run. */
  lemma OnSessionEffect(s: Run, e: Event)
    ensures var t := OnSession(s, e);
            var pending := s.channel.out.pendingInterrupts;
            && SameIdentity(s.channel.out, t.channel.out)
            && t == s.(channel := t.channel, registry := t.registry, terminal := t.terminal, stopped := t.stopped)
            && (match e.kind
                case SessionEnded(signal) =>
                  && t.channel.out.pendingInterrupts == pending && t.terminal.Some?
                  && (s.terminal.None? ==> t.terminal == Some(signal) && t.stopped)
                case Asked(id, _, _) => t.channel.out.pendingInterrupts == pending + {id} && t.stopped == s.stopped && t.terminal == s.terminal
                case Resolved(id, _, _) =>
                  && t.channel.out.pendingInterrupts == pending - {id} && t.stopped == s.stopped && t.terminal == s.terminal
                  && t.registry == s.registry - {id}
                case _ => t.channel.out.pendingInterrupts == pending && t.stopped == s.stopped && t.terminal == s.terminal)
  {
    ObservedEffect(s.channel, e);
    var t := s.(channel := Observed(s.channel, e));
    match e.kind
    case Asked(id, kind, details) => OnAskedEffect(t, id, kind, details);
    case Resolved(id, kind, resolution) => OnResolvedEffect(t, id, kind, resolution);
    case _ =>
  }

  lemma {:induction false} ConsumeKeepsIdentity(cfg: Config, s: Run, feed: seq<Item>)
    ensures SameIdentity(s.channel.out, Consume(cfg, s, feed).channel.out)
    decreases |feed|
  {
    if feed != [] {
      StepKeepsIdentity(cfg, s, feed[0]);
      ConsumeKeepsIdentity(cfg, Step(cfg, s, feed[0]), feed[1..]);
    }
  }

  // ---- The envelope ----

  lemma EventIdsDiffer(out: Output, m: nat, n: nat)
    ensures out.EventId(m) == out.EventId(n) <==> m == n
    ensures out.EventId(m) != out.namespace + ":status"
  {
    DecimalRoundTrip(m);
    DecimalRoundTrip(n);
    var k := |out.namespace| + 1;
    assert out.EventId(m)[k..] == Decimal(m) && out.EventId(n)[k..] == Decimal(n);
    assert (out.namespace + ":status")[k..] == "status";
  }

  /** Whatever arrives and however often the upstream reconnects, updates are numbered 1, 2, ..., n in emission order,
      no two share an event id, and of the stream artifact exactly the first update starts it and none closes it. */
  lemma StreamEnvelope(cfg: Config, s0: Run, feed: seq<Item>)
    requires Initial(s0)
    ensures var ch := Consume(cfg, s0, feed).channel;
            && ch.out.sequence == |ch.queue|
            && (forall i :: 0 <= i < |ch.queue| ==>
                  && (ch.queue[i].Artifact? || ch.queue[i].InterruptStatus? || ch.queue[i].ProgressStatus?)
                  && ch.queue[i].sequence == i + 1)
            && (forall i, j :: 0 <= i < j < |ch.queue| ==> ch.queue[i].eventId != ch.queue[j].eventId)
            && (forall i :: 0 <= i < |ch.queue| ==> ch.queue[i].eventId != s0.channel.out.namespace + ":status")
            && (forall k :: 0 <= k < |Artifacts(ch.queue)| ==>
                  var u := Artifacts(ch.queue)[k]; u.Artifact? && u.append == (k > 0) && !u.lastChunk)
  {
    FreshInv(cfg, s0, feed);
    var s := Consume(cfg, s0, feed);
    var ch := s.channel;
    assert Holds(Numbering, ch, Chunks(s.log)) && Holds(Opening, ch, Chunks(s.log));
    forall i | 0 <= i < |ch.queue|
      ensures Numbers(ch, i) && ch.queue[i].eventId != s0.channel.out.namespace + ":status"
    {
      EventIdsDiffer(ch.out, i + 1, 0);
    }
    forall i, j | 0 <= i < j < |ch.queue|
      ensures ch.queue[i].eventId != ch.queue[j].eventId
    {
      assert Numbers(ch, i) && Numbers(ch, j);
      EventIdsDiffer(ch.out, i + 1, j + 1);
    }
  }

  // ---- The text ----

  /** The text (and the reasoning) a client has received is what the buffer holds, and it is everything that was
      generated except the echoes of the user's message that open the stream. */
  lemma StreamedText(cfg: Config, s0: Run, feed: seq<Item>,
                     b: BlockType)
    requires Initial(s0)
    requires b == TEXT || b == REASONING
    ensures var s := Consume(cfg, s0, feed);
            s.channel.out.Buffer(b) == TextOf(s.channel.queue, b) == SpokenText(AfterEcho(s0.channel.out.userText, Chunks(s.log)), b)
  {
    FreshInv(cfg, s0, feed);
    var s := Consume(cfg, s0, feed);
    assert Holds(Fidelity, s.channel, Chunks(s.log));
    assert Delivered(s.channel, AfterEcho(s0.channel.out.userText, Chunks(s.log)), b);
  }

  /** The part's buffer was only ever extended, never overwritten. */
  predicate NeverRewritten(log: seq<Log>, id: string) {
    forall i :: 0 <= i < |log| && log[i].partId == id ==> log[i].Said?
  }

  lemma {:induction false} UnbrokenReplay(buffer: string, log: seq<Log>, id: string)
    requires NeverRewritten(log, id)
    ensures Replay(buffer, log, id) == buffer + SaidBy(log, id)
    decreases |log|
  {
    if log != [] {
      var rest := log[1..];
      assert NeverRewritten(rest, id);
      if log[0].partId == id {
        var text := PayloadText(log[0].chunk.part);
        UnbrokenReplay(buffer + text, rest, id);
        JoinTexts(buffer, text, SaidBy(rest, id));
      } else {
        UnbrokenReplay(buffer, rest, id);
        assert SaidBy(log, id) == SaidBy(rest, id);
      }
    } else {
      assert buffer + "" == buffer;
    }
  }

  lemma JoinTexts(a: string, b: string, c: string)
    ensures (a + b) + c == a + (b + c)
  {
  }

  /** A part's buffer is its last overwritten value followed by everything generated for it since; a part that was never
      overwritten has generated exactly its buffer. */
  lemma PartTextIsConserved(cfg: Config, s0: Run, feed: seq<Item>, id: string)
    requires Initial(s0)
    ensures var s := Consume(cfg, s0, feed);
            id in s.parts ==>
              && s.parts[id].buffer == Replay("", s.log, id)
              && (NeverRewritten(s.log, id) ==> s.parts[id].buffer == SaidBy(s.log, id))
  {
    FreshInv(cfg, s0, feed);
    var s := Consume(cfg, s0, feed);
    if NeverRewritten(s.log, id) {
      UnbrokenReplay("", s.log, id);
    }
  }

  /** A text or reasoning part is overwritten exactly by a snapshot that does not extend its buffer; otherwise the
      snapshot generates precisely the missing suffix, and nothing when there is none. */
  lemma SnapshotOverwritesIff(id: string, p: Part, u: PartUpdate, messageId: Option<string>)
    requires p.blockType != TOOL_CALL
    ensures var (q, log) := ApplyUpdate(id, p, u, messageId);
            && ((exists l :: l in log && l.Rewrote?) <==> u.delta == "" && u.snapshot.Some? && !(p.buffer <= u.snapshot.value))
            && (u.delta == "" && u.snapshot.Some? ==> q.buffer == u.snapshot.value)
            && (u.delta == "" && u.snapshot.Some? && p.buffer <= u.snapshot.value ==> p.buffer + SaidBy(log, id) == u.snapshot.value)
  {
    var (q, log) := ApplyUpdate(id, p, u, messageId);
    if u.delta == "" && u.snapshot.Some? {
      var snapshot := u.snapshot.value;
      if !(p.buffer <= snapshot) {
        assert log[0] == Rewrote(id, snapshot);
      } else if p.buffer != snapshot {
        assert log[1..] == [] && SaidBy(log, id) == snapshot[|p.buffer|..];
      }
    }
  }

  /** Redelivering the newest snapshot, or the newest tool payload, changes nothing at all. */
  lemma RedeliveryIsSilent(cfg: Config, s: Run, id: string, u: PartUpdate, messageId: Option<string>)
    requires u.blockType.Some? && u.delta == ""
    requires if u.blockType.value == TOOL_CALL then u.tool.Some? else u.snapshot.Some?
    ensures var t := OnUpdate(cfg, s, id, u, messageId); OnUpdate(cfg, t, id, u, messageId) == t
  {
    var t := OnUpdate(cfg, s, id, u, messageId);
    var p, waiting := Upsert(s.parts, id, u.blockType.value, u.role, messageId), GetOr(s.pending, id, []);
    RegeneratesNothing(id, p, waiting, u, messageId);
    var q := if Muted(p) then p else Generate(id, p, waiting, u, messageId).0;
    UpdateStoresPart(cfg, s, id, u, messageId);
    AnnouncedAgain(cfg, t, id, u, messageId);
  }

  lemma UpdateStoresPart(cfg: Config, s: Run, id: string, u: PartUpdate, messageId: Option<string>)
    requires u.blockType.Some?
    ensures var t := OnUpdate(cfg, s, id, u, messageId);
            var p := Upsert(s.parts, id, u.blockType.value, u.role, messageId);
            && t.pending == s.pending - {id}
            && t.parts == s.parts[id := if Muted(p) then p else Generate(id, p, GetOr(s.pending, id, []), u, messageId).0]
  {
  }

  lemma AnnouncedAgain(cfg: Config, t: Run, id: string, u: PartUpdate, messageId: Option<string>)
    requires u.blockType.Some? && id in t.parts && id !in t.pending
    requires Upsert(t.parts, id, u.blockType.value, u.role, messageId) == t.parts[id]
    requires Muted(t.parts[id]) || Generate(id, t.parts[id], [], u, messageId) == (t.parts[id], [])
    ensures OnUpdate(cfg, t, id, u, messageId) == t
  {
    assert t.pending - {id} == t.pending && t.parts[id := t.parts[id]] == t.parts;
    PublishNothing(cfg, t, id);
  }

  lemma RegeneratesNothing(id: string, p: Part, waiting: seq<PendingDelta>, u: PartUpdate, messageId: Option<string>)
    requires u.delta == "" && u.blockType == Some(p.blockType) && (u.role.Some? ==> p.role == u.role)
    requires HasId(messageId) ==> p.messageId == messageId
    requires if p.blockType == TOOL_CALL then u.tool.Some? else u.snapshot.Some?
    ensures var q := Generate(id, p, waiting, u, messageId).0;
            && q.blockType == p.blockType && q.role == p.role && (HasId(messageId) ==> q.messageId == messageId)
            && Generate(id, q, [], u, messageId) == (q, [])
  {
    DeltasKeepIdentity(id, p, waiting);
    var early := ApplyDeltas(id, p, waiting).0;
    var q := ApplyUpdate(id, early, u, messageId).0;
    assert ApplyUpdate(id, q, u, messageId) == (q, []);
    assert ApplyDeltas(id, q, []) == (q, []);
    var none: seq<Log> := [];
    assert none + none == none;
  }

  lemma PublishNothing(cfg: Config, s: Run, id: string)
    requires id in s.parts
    ensures Publish(cfg, s, id, s.parts[id], []) == s
  {
    assert s.parts[id := s.parts[id]] == s.parts && s.log + [] == s.log;
  }

  lemma {:induction false} DeltasKeepIdentity(id: string, p: Part, ds: seq<PendingDelta>)
    ensures var q := ApplyDeltas(id, p, ds).0; q.blockType == p.blockType && q.role == p.role
    decreases |ds|
  {
    if ds != [] {
      DeltasKeepIdentity(id, ApplyDelta(id, p, ds[0].delta, ds[0].messageId).0, ds[1..]);
    }
  }

  function AgentSnapshot(text: string): PartUpdate {
    PartUpdate(Some(TEXT), Some(Agent), "", Some(text), None)
  }

  function SnapshotFeed(texts: seq<string>): seq<Item> {
    seq(|texts|, i requires 0 <= i < |texts| =>
      Receive(Event(PartUpdated(AgentSnapshot(texts[i])), Some("s"), Some("s"), None, Some("p"), None, None)))
  }

  /** Replaying an older, shorter snapshot resets the buffer, so the suffix the client already has is sent again. */
  lemma OlderSnapshotRepeatsText(s0: Run)
    requires Initial(s0) && s0.channel.out.userText == ""
    ensures var s := Consume(Config("s", true), s0, SnapshotFeed(["ab", "a", "ab"]));
            "p" in s.parts && s.parts["p"].buffer == "ab" && TextOf(s.channel.queue, TEXT) == "abb"
  {
    SnapshotRun(s0);
    var a, b := ThreeSnapshots(s0);
    SpokenAroundOverwrite([Said("p", a), Rewrote("p", "a"), Said("p", b)], a, b);
    StreamedText(Config("s", true), s0, SnapshotFeed(["ab", "a", "ab"]), TEXT);
  }

  lemma ThreeSnapshots(s0: Run) returns (a: Chunk, b: Chunk)
    requires Initial(s0)
    ensures var cfg := Config("s", true);
            var s1 := OnUpdate(cfg, s0, "p", AgentSnapshot("ab"), None);
            var s2 := OnUpdate(cfg, s1, "p", AgentSnapshot("a"), None);
            var s3 := OnUpdate(cfg, s2, "p", AgentSnapshot("ab"), None);
            && s3.log == [Said("p", a), Rewrote("p", "a"), Said("p", b)]
            && "p" in s3.parts && s3.parts["p"].buffer == "ab"
    ensures a.part == TextPart("ab") && b.part == TextPart("b") && a.blockType == b.blockType == TEXT && a.role.Some?
  {
    var cfg := Config("s", true);
    var s1 := OnUpdate(cfg, s0, "p", AgentSnapshot("ab"), None);
    var s2 := OnUpdate(cfg, s1, "p", AgentSnapshot("a"), None);
    var p := Part(TEXT, None, Some(Agent), "ab", false);
    a, b := TextChunk(p, "ab"), TextChunk(p, "b");
    SnapshotAlone(cfg, s0, "", "ab", [Said("p", a)]);
    SnapshotAlone(cfg, s1, "ab", "a", [Rewrote("p", "a")]);
    SnapshotAlone(cfg, s2, "a", "ab", [Said("p", b)]);
  }

  lemma SnapshotRun(s0: Run)
    requires Active(s0)
    ensures var cfg := Config("s", true);
            var s1 := OnUpdate(cfg, s0, "p", AgentSnapshot("ab"), None);
            var s2 := OnUpdate(cfg, s1, "p", AgentSnapshot("a"), None);
            Consume(cfg, s0, SnapshotFeed(["ab", "a", "ab"])) == OnUpdate(cfg, s2, "p", AgentSnapshot("ab"), None)
  {
    var cfg, feed := Config("s", true), SnapshotFeed(["ab", "a", "ab"]);
    SnapshotStep(s0, "ab");
    var s1 := Step(cfg, s0, feed[0]);
    SnapshotStep(s1, "a");
    var s2 := Step(cfg, s1, feed[1]);
    SnapshotStep(s2, "ab");
    assert feed[1..][0] == feed[1] && feed[1..][1..][0] == feed[2] && feed[1..][1..][1..] == [];
    var s3 := Step(cfg, s2, feed[2]);
    assert Consume(cfg, s2, feed[1..][1..]) == s3;
  }

  lemma SpokenAroundOverwrite(log: seq<Log>, a: Chunk, b: Chunk)
    requires log == [Said("p", a), Rewrote("p", "a"), Said("p", b)]
    requires a.blockType == b.blockType == TEXT && a.role.Some?
    ensures SpokenText(AfterEcho("", Chunks(log)), TEXT) == PayloadText(a.part) + PayloadText(b.part)
  {
    assert log[1..] == [Rewrote("p", "a"), Said("p", b)] && log[1..][1..] == [Said("p", b)] && log[1..][1..][1..] == [];
    assert Chunks(log[1..][1..]) == [b] && Chunks(log[1..]) == [b] && Chunks(log) == [a, b];
    assert AfterEcho("", [a, b]) == [a, b];
    assert [a, b][..1] == [a] && [a][..0] == [];
    assert SpokenText([a], TEXT) == PayloadText(a.part);
  }

  lemma SnapshotStep(s: Run, text: string)
    requires Active(s)
    ensures var t := OnUpdate(Config("s", true), s, "p", AgentSnapshot(text), None);
            Step(Config("s", true), s, SnapshotFeed([text])[0]) == t && Active(t)
  {
    OnUpdateOnlyParts(Config("s", true), s, "p", AgentSnapshot(text), None);
    var e := SnapshotFeed([text])[0].event;
    assert OnSession(s, e) == s;
  }

  lemma SnapshotAlone(cfg: Config, s: Run, before: string, text: string, log: seq<Log>)
    requires if "p" in s.parts then s.parts["p"] == Part(TEXT, None, Some(Agent), before, false) else before == ""
    requires "p" !in s.pending
    requires ApplySnapshot("p", Part(TEXT, None, Some(Agent), before, false), text, None).1 == log
    ensures var t := OnUpdate(cfg, s, "p", AgentSnapshot(text), None);
            && t.log == s.log + log && "p" !in t.pending
            && "p" in t.parts && t.parts["p"] == Part(TEXT, None, Some(Agent), text, false)
  {
    var p := Part(TEXT, None, Some(Agent), before, false);
    assert Upsert(s.parts, "p", TEXT, Some(Agent), None) == p;
    assert Generate("p", p, [], AgentSnapshot(text), None) == (p.(buffer := text), [] + log);
    assert [] + log == log;
  }

  // ---- Deltas before the announcement ----

  /** Deltas of one part, delivered one after the other. */
  function Deltas(cfg: Config, s: Run, id: string, ds: seq<PendingDelta>): Run
    decreases |ds|
  {
    if ds == [] then s else Deltas(cfg, OnDelta(cfg, s, id, ds[0].delta, ds[0].messageId), id, ds[1..])
  }

  lemma {:induction false} UnknownPartBuffers(cfg: Config, s: Run, id: string, ds: seq<PendingDelta>)
    requires id !in s.parts && forall d :: d in ds ==> d.delta != ""
    ensures Deltas(cfg, s, id, ds) == if ds == [] then s else s.(pending := s.pending[id := GetOr(s.pending, id, []) + ds])
    decreases |ds|
  {
    if ds != [] {
      assert ds[0] in ds;
      var t := OnDelta(cfg, s, id, ds[0].delta, ds[0].messageId);
      UnknownPartBuffers(cfg, t, id, ds[1..]);
      assert GetOr(s.pending, id, []) + [ds[0]] + ds[1..] == GetOr(s.pending, id, []) + ds;
      if ds[1..] == [] {
        assert ds == [ds[0]];
      } else {
        assert t.pending[id := GetOr(t.pending, id, []) + ds[1..]] == s.pending[id := GetOr(s.pending, id, []) + ds];
      }
    }
  }

  lemma {:induction false} MutedPartIgnores(cfg: Config, s: Run, id: string, ds: seq<PendingDelta>)
    requires id in s.parts && Muted(s.parts[id])
    ensures Deltas(cfg, s, id, ds) == s
    decreases |ds|
  {
    if ds != [] {
      MutedPartIgnores(cfg, s, id, ds[1..]);
    }
  }

  lemma {:induction false} EmitChunksConcat(cfg: Config, ch: Channel, a: seq<Chunk>, b: seq<Chunk>)
    ensures EmitChunks(cfg, ch, a + b) == EmitChunks(cfg, EmitChunks(cfg, ch, a), b)
    decreases |a|
  {
    if a == [] {
      assert a + b == b;
    } else {
      assert (a + b)[1..] == a[1..] + b;
      EmitChunksConcat(cfg, EmitChunk(cfg, ch, a[0]), a[1..], b);
    }
  }

  lemma PublishTwice(cfg: Config, s: Run, id: string, p: Part, a: seq<Log>, q: Part, b: seq<Log>)
    ensures Publish(cfg, Publish(cfg, s, id, p, a), id, q, b) == Publish(cfg, s, id, q, a + b)
  {
    ChunksConcat(a, b);
    EmitChunksConcat(cfg, s.channel, Chunks(a), Chunks(b));
    assert s.parts[id := p][id := q] == s.parts[id := q];
    assert s.log + a + b == s.log + (a + b);
  }

  lemma {:induction false} KnownPartStreams(cfg: Config, s: Run, id: string, ds: seq<PendingDelta>)
    requires id in s.parts && !Muted(s.parts[id])
    requires forall d :: d in ds ==> d.delta != ""
    ensures var (p, log) := ApplyDeltas(id, s.parts[id], ds); Deltas(cfg, s, id, ds) == Publish(cfg, s, id, p, log)
    decreases |ds|
  {
    if ds == [] {
      assert s.parts[id := s.parts[id]] == s.parts && s.log + [] == s.log;
    } else {
      assert ds[0] in ds;
      var (p, a) := ApplyDelta(id, s.parts[id], ds[0].delta, ds[0].messageId);
      var t := Publish(cfg, s, id, p, a);
      assert OnDelta(cfg, s, id, ds[0].delta, ds[0].messageId) == t && t.parts[id] == p;
      KnownPartStreams(cfg, t, id, ds[1..]);
      var (q, b) := ApplyDeltas(id, p, ds[1..]);
      PublishTwice(cfg, s, id, p, a, q, b);
    }
  }

  lemma {:induction false} ApplyDeltasConcat(id: string, p: Part, a: seq<PendingDelta>, b: seq<PendingDelta>)
    ensures var (q, l) := ApplyDeltas(id, p, a);
            var (r, m) := ApplyDeltas(id, q, b);
            ApplyDeltas(id, p, a + b) == (r, l + m)
    decreases |a|
  {
    if a == [] {
      assert a + b == b;
      var m := ApplyDeltas(id, p, b).1;
      assert [] + m == m;
    } else {
      assert (a + b)[1..] == a[1..] + b;
      var (q, l) := ApplyDelta(id, p, a[0].delta, a[0].messageId);
      ApplyDeltasConcat(id, q, a[1..], b);
      var (r, m) := ApplyDeltas(id, q, a[1..]);
      var n := ApplyDeltas(id, r, b).1;
      assert l + m + n == l + (m + n);
    }
  }

  /** An announcement that carries no text of its own. */
  predicate TextFree(u: PartUpdate) {
    u.delta == "" && u.snapshot.None? && u.tool.None?
  }

  /** Deltas that arrive right before their part is announced have exactly the effect they would have had right after
      it: the whole state is the same. */
  lemma EarlyDeltasCommute(cfg: Config, s: Run, id: string, ds: seq<PendingDelta>, u: PartUpdate, messageId: Option<string>)
    requires id !in s.parts && TextFree(u) && u.blockType.Some?
    requires forall d :: d in ds ==> d.delta != ""
    ensures OnUpdate(cfg, Deltas(cfg, s, id, ds), id, u, messageId) == Deltas(cfg, OnUpdate(cfg, s, id, u, messageId), id, ds)
  {
    UnknownPartBuffers(cfg, s, id, ds);
    var early := Deltas(cfg, s, id, ds);
    if ds != [] {
      var t := s.(pending := s.pending - {id});
      var waiting := GetOr(s.pending, id, []);
      assert early.pending - {id} == t.pending && GetOr(early.pending, id, []) == waiting + ds;
      AnnouncementFlushes(cfg, t, id, Upsert(s.parts, id, u.blockType.value, u.role, messageId), waiting, ds, u, messageId);
    }
  }

  lemma AnnouncementFlushes(cfg: Config, s: Run, id: string, p: Part, waiting: seq<PendingDelta>, ds: seq<PendingDelta>,
                            u: PartUpdate, messageId: Option<string>)
    requires TextFree(u) && forall d :: d in ds ==> d.delta != ""
    ensures OnAnnounced(cfg, s, id, p, waiting + ds, u, messageId)
            == Deltas(cfg, OnAnnounced(cfg, s, id, p, waiting, u, messageId), id, ds)
  {
    if Muted(p) {
      MutedPartIgnores(cfg, OnAnnounced(cfg, s, id, p, waiting, u, messageId), id, ds);
    } else {
      var (q, l) := ApplyDeltas(id, p, waiting);
      var (r, m) := ApplyDeltas(id, q, ds);
      DeltasKeepIdentity(id, p, waiting);
      ApplyDeltasConcat(id, p, waiting, ds);
      TextFreeGenerates(id, p, waiting, u, messageId);
      TextFreeGenerates(id, p, waiting + ds, u, messageId);
      KnownPartStreams(cfg, Publish(cfg, s, id, q, l), id, ds);
      PublishTwice(cfg, s, id, q, l, r, m);
    }
  }

  lemma TextFreeGenerates(id: string, p: Part, waiting: seq<PendingDelta>, u: PartUpdate, messageId: Option<string>)
    requires TextFree(u)
    ensures Generate(id, p, waiting, u, messageId) == ApplyDeltas(id, p, waiting)
  {
    var (q, l) := ApplyDeltas(id, p, waiting);
    assert l + [] == l;
  }

  /** For a part that is a user's, a system's or of an unmapped type, neither order shows the client anything. */
  lemma EarlyDeltasOfUnshownParts(cfg: Config, s: Run, id: string, ds: seq<PendingDelta>, u: PartUpdate, messageId: Option<string>)
    requires id !in s.parts
    requires forall d :: d in ds ==> d.delta != ""
    requires u.blockType.None? || u.role == Some(User) || u.role == Some(System)
    ensures OnUpdate(cfg, Deltas(cfg, s, id, ds), id, u, messageId).channel == s.channel
    ensures Deltas(cfg, OnUpdate(cfg, s, id, u, messageId), id, ds).channel == s.channel
  {
    UnknownPartBuffers(cfg, s, id, ds);
    var t := OnUpdate(cfg, s, id, u, messageId);
    if u.blockType.None? {
      UnknownPartBuffers(cfg, t, id, ds);
    } else {
      MutedPartIgnores(cfg, t, id, ds);
    }
  }

  // ---- Interrupts ----

  /** For every request a client is told asked, resolved, asked, ... in strict alternation, starting with asked, and the
      pending requests are those whose last word was asked. */
  lemma InterruptsAlternate(cfg: Config, s0: Run, feed: seq<Item>, id: string)
    requires Initial(s0)
    ensures var ch := Consume(cfg, s0, feed).channel;
            var phases := Phases(ch.queue, id);
            && (forall k :: 0 <= k < |phases| ==> (phases[k] == AskedPhase <==> k % 2 == 0))
            && (id in ch.out.pendingInterrupts <==> phases != [] && phases[|phases| - 1] == AskedPhase)
  {
    FreshInv(cfg, s0, feed);
    var s := Consume(cfg, s0, feed);
    assert Holds(Bracketing, s.channel, Chunks(s.log));
    LastWordDecides(s.channel, id);
  }

  lemma LastWordDecides(ch: Channel, id: string)
    requires Bracketed(ch)
    ensures var phases := Phases(ch.queue, id);
            && (forall k :: 0 <= k < |phases| ==> (phases[k] == AskedPhase <==> k % 2 == 0))
            && (id in ch.out.pendingInterrupts <==> phases != [] && phases[|phases| - 1] == AskedPhase)
  {
    assert Brackets(ch, id);
  }

  /** The pending set is what the interrupt events alone say: asked and not yet resolved when the stream stopped. */
  lemma {:induction false} PendingAreOpen(cfg: Config, s: Run, feed: seq<Item>)
    requires Active(s) && (s.terminal.Some? ==> s.stopped)
    ensures Consume(cfg, s, feed).channel.out.pendingInterrupts == OpenRequests(cfg.sessionId, s.channel.out.pendingInterrupts, feed)
    decreases |feed|
  {
    if feed != [] {
      var t := Step(cfg, s, feed[0]);
      if feed[0].Receive? {
        var e := feed[0].event;
        var u := if e.eventSession == Some(cfg.sessionId) then OnSession(s, e) else s;
        OnPartOnlyParts(cfg, u, e);
        assert t == OnPart(cfg, u, e);
        OnSessionEffect(s, e);
      }
      if Active(t) {
        PendingAreOpen(cfg, t, feed[1..]);
      } else {
        StoppedStays(cfg, t, feed[1..]);
      }
    }
  }

  /** Once a resolved event of the session is handled, the request is neither pending nor in the registry; every other
      request stays as it was. */
  lemma ResolvedIsForgotten(cfg: Config, s: Run, e: Event)
    requires Active(s) && e.eventSession == Some(cfg.sessionId) && e.kind.Resolved?
    ensures var t := Step(cfg, s, Receive(e));
            t.registry == s.registry - {e.kind.resolvedId}
            && t.channel.out.pendingInterrupts == s.channel.out.pendingInterrupts - {e.kind.resolvedId}
  {
    OnSessionEffect(s, e);
    OnPartOnlyParts(cfg, OnSession(s, e), e);
  }

  // ---- The end of the stream ----

  lemma {:induction false} StoppedStays(cfg: Config, s: Run, feed: seq<Item>)
    requires !Active(s)
    ensures Consume(cfg, s, feed) == s
    decreases |feed|
  {
    if feed != [] {
      StoppedStays(cfg, s, feed[1..]);
    }
  }

  lemma {:induction false} ConsumeConcat(cfg: Config, s: Run, a: seq<Item>, b: seq<Item>)
    ensures Consume(cfg, s, a + b) == Consume(cfg, Consume(cfg, s, a), b)
    decreases |a|
  {
    if a == [] {
      assert a + b == b;
    } else {
      assert (a + b)[1..] == a[1..] + b;
      ConsumeConcat(cfg, Step(cfg, s, a[0]), a[1..], b);
    }
  }

  /** Once the terminal signal is set nothing that arrives later has any effect, and the event that sets it adds nothing
      to the stream artifact. */
  lemma NothingAfterTerminal(cfg: Config, s0: Run, feed: seq<Item>, rest: seq<Item>)
    requires Initial(s0)
    requires Consume(cfg, s0, feed).terminal.Some?
    ensures Consume(cfg, s0, feed + rest)
            == Consume(cfg, s0, feed)
  {
    FreshInv(cfg, s0, feed);
    ConsumeConcat(cfg, s0, feed, rest);
    StoppedStays(cfg, Consume(cfg, s0, feed), rest);
  }

  lemma TerminalEventIsSilent(cfg: Config, s: Run, e: Event)
    requires Inv(s) && Active(s) && e.kind.SessionEnded?
    ensures Artifacts(Step(cfg, s, Receive(e)).channel.queue) == Artifacts(s.channel.queue)
    ensures e.eventSession == Some(cfg.sessionId) ==> Step(cfg, s, Receive(e)).terminal == Some(e.kind.signal)
  {
    ObservedKeeps(s.channel, Chunks(s.log), e);
  }

  function Power2(n: nat): real {
    if n == 0 then 1.0 else 2.0 * Power2(n - 1)
  }

  ghost predicate BacksOff(s: Run) {
    && s.backoff == Min(INITIAL_BACKOFF * Power2(|s.sleeps|), MAX_BACKOFF)
    && forall k :: 0 <= k < |s.sleeps| ==> s.sleeps[k] == Min(INITIAL_BACKOFF * Power2(k), MAX_BACKOFF)
  }

  /** The k-th reconnect of a request waits 0.5 * 2^k seconds, capped at 5; a successful reconnect does not reset it. */
  lemma {:induction false} ReconnectsBackOff(cfg: Config, s: Run, feed: seq<Item>)
    requires BacksOff(s)
    ensures BacksOff(Consume(cfg, s, feed))
    decreases |feed|
  {
    if feed != [] {
      if feed[0].Receive? {
        OnEventKeepsBackoff(cfg, s, feed[0].event);
      }
      assert BacksOff(Step(cfg, s, feed[0]));
      ReconnectsBackOff(cfg, Step(cfg, s, feed[0]), feed[1..]);
    }
  }

  lemma OnEventKeepsBackoff(cfg: Config, s: Run, e: Event)
    ensures OnEvent(cfg, s, e).backoff == s.backoff && OnEvent(cfg, s, e).sleeps == s.sleeps
  {
    OnSessionEffect(s, e);
    OnPartOnlyParts(cfg, if e.eventSession == Some(cfg.sessionId) then OnSession(s, e) else s, e);
  }
}

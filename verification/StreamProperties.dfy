/** What every run of the stream consumer keeps: the envelope, the text, the interrupts and the part buffers. */
module StreamProperties {
  import opened Basics
  import opened StreamState
  import opened StreamModel
  import opened TaskStates

  // ---- Readings of a queue and of a log, independent of the consumer ----

  /** The updates of the stream artifact, in order. */
  function Artifacts(queue: seq<Update>): seq<Update> {
    if queue == [] then []
    else Artifacts(queue[..|queue| - 1]) + if queue[|queue| - 1].Artifact? then [queue[|queue| - 1]] else []
  }

  /** The text a client reads from the blocks of one type. */
  function TextOf(queue: seq<Update>, b: BlockType): string {
    if queue == [] then ""
    else
      var u := queue[|queue| - 1];
      TextOf(queue[..|queue| - 1], b) + if u.Artifact? && u.blockType == b then PayloadText(u.part) else ""
  }

  /** The phases a client is told about one interrupt request, in order. */
  function Phases(queue: seq<Update>, id: string): seq<Phase> {
    if queue == [] then []
    else
      var u := queue[|queue| - 1];
      Phases(queue[..|queue| - 1], id) + if u.InterruptStatus? && u.requestId == id then [u.phase] else []
  }

  function SpokenText(chunks: seq<Chunk>, b: BlockType): string {
    if chunks == [] then ""
    else
      var c := chunks[|chunks| - 1];
      SpokenText(chunks[..|chunks| - 1], b) + if c.blockType == b then PayloadText(c.part) else ""
  }

  /** A chunk that merely repeats the user's own message. */
  predicate IsEcho(userText: string, c: Chunk) {
    c.role.None? && c.blockType == TEXT && Strip(userText) != "" && Strip(PayloadText(c.part)) == Strip(userText)
  }

  /** The generated chunks once the echoes that open the stream are taken off. */
  function AfterEcho(userText: string, chunks: seq<Chunk>): seq<Chunk> {
    if chunks != [] && IsEcho(userText, chunks[0]) then AfterEcho(userText, chunks[1..]) else chunks
  }

  /** Replay one part's buffer from the history: generated text extends it, an overwrite replaces it. */
  function Replay(buffer: string, log: seq<Log>, id: string): string
    decreases |log|
  {
    if log == [] then buffer
    else if log[0].partId != id then Replay(buffer, log[1..], id)
    else match log[0]
      case Said(_, c) => Replay(buffer + PayloadText(c.part), log[1..], id)
      case Rewrote(_, b) => Replay(b, log[1..], id)
  }

  /** Everything generated for one part, in order. */
  function SaidBy(log: seq<Log>, id: string): string {
    if log == [] then ""
    else (if log[0].Said? && log[0].partId == id then PayloadText(log[0].chunk.part) else "") + SaidBy(log[1..], id)
  }

  /** The interrupt requests left open by a feed, read from its interrupt events alone. */
  function OpenRequests(sessionId: string, open: set<string>, feed: seq<Item>): set<string>
    decreases |feed|
  {
    if feed == [] then open
    else match feed[0]
      case EndOfStream => open
      case StopRequested => open
      case Disconnect => OpenRequests(sessionId, open, feed[1..])
      case Receive(e) =>
        if e.eventSession != Some(sessionId) then OpenRequests(sessionId, open, feed[1..])
        else match e.kind
          case SessionEnded(_) => open
          case Asked(id, _, _) => OpenRequests(sessionId, open + {id}, feed[1..])
          case Resolved(id, _, _) => OpenRequests(sessionId, open - {id}, feed[1..])
          case _ => OpenRequests(sessionId, open, feed[1..])
  }

  lemma Snoc(queue: seq<Update>, u: Update)
    ensures Artifacts(queue + [u]) == Artifacts(queue) + if u.Artifact? then [u] else []
    ensures forall id :: Phases(queue + [u], id) == Phases(queue, id) + if u.InterruptStatus? && u.requestId == id then [u.phase] else []
  {
    assert (queue + [u])[..|queue|] == queue;
  }

  lemma SnocText(queue: seq<Update>, u: Update, b: BlockType)
    ensures TextOf(queue + [u], b) == TextOf(queue, b) + if u.Artifact? && u.blockType == b then PayloadText(u.part) else ""
  {
    assert (queue + [u])[..|queue|] == queue;
  }

  lemma {:induction false} AfterEchoSnoc(userText: string, chunks: seq<Chunk>, c: Chunk)
    ensures AfterEcho(userText, chunks + [c])
            == if AfterEcho(userText, chunks) == [] && IsEcho(userText, c) then [] else AfterEcho(userText, chunks) + [c]
  {
    if chunks == [] {
      assert chunks + [c] == [c];
    } else {
      assert (chunks + [c])[1..] == chunks[1..] + [c];
      AfterEchoSnoc(userText, chunks[1..], c);
    }
  }

  lemma {:induction false} ReplayConcat(buffer: string, a: seq<Log>, b: seq<Log>, id: string)
    ensures Replay(buffer, a + b, id) == Replay(Replay(buffer, a, id), b, id)
    decreases |a|
  {
    if a == [] {
      assert a + b == b;
    } else {
      assert (a + b)[1..] == a[1..] + b;
      var next := if a[0].partId != id then buffer
                  else match a[0] case Said(_, c) => buffer + PayloadText(c.part) case Rewrote(_, v) => v;
      ReplayConcat(next, a[1..], b, id);
    }
  }

  // ---- What the consumer generates ----

  /** Generated text chunks carry their whole text as key; structured chunks belong to tool calls. */
  predicate Genuine(c: Chunk) {
    match c.part
    case TextPart(text) => c.contentKey == text != "" && c.append && c.accumulate
    case DataPart(json, ascii) => c.blockType == TOOL_CALL && c.contentKey == json != "" && ascii != "" && !c.accumulate
  }

  predicate GenuineLog(log: seq<Log>, id: string) {
    forall l :: l in log ==> l.partId == id && (l.Said? ==> Genuine(l.chunk))
  }

  lemma {:induction false} OtherPartsUntouched(buffer: string, log: seq<Log>, id: string, other: string)
    requires GenuineLog(log, id) && id != other
    ensures Replay(buffer, log, other) == buffer
    decreases |log|
  {
    if log != [] {
      assert log[0] in log && GenuineLog(log[1..], id);
      OtherPartsUntouched(buffer, log[1..], id, other);
    }
  }

  lemma {:induction false} DeltasAccount(id: string, p: Part, ds: seq<PendingDelta>)
    ensures var (q, log) := ApplyDeltas(id, p, ds); GenuineLog(log, id) && q.buffer == Replay(p.buffer, log, id)
    decreases |ds|
  {
    if ds != [] {
      var (q, l) := ApplyDelta(id, p, ds[0].delta, ds[0].messageId);
      DeltasAccount(id, q, ds[1..]);
      var (r, m) := ApplyDeltas(id, q, ds[1..]);
      assert q.buffer == Replay(p.buffer, l, id);
      ReplayConcat(p.buffer, l, m, id);
    }
  }

  lemma UpdateAccounts(id: string, p: Part, u: PartUpdate, messageId: Option<string>)
    ensures var (q, log) := ApplyUpdate(id, p, u, messageId); GenuineLog(log, id) && q.buffer == Replay(p.buffer, log, id)
  {
    if u.delta == "" && p.blockType == TOOL_CALL {
      var log := ApplyTool(id, p, u.tool, messageId).1;
      if log != [] {
        assert log == [log[0], log[1]] && log[1..] == [log[1]] && log[1..][1..] == [];
        assert Replay(p.buffer, log[1..], id) == log[1].buffer;
      }
    } else if u.delta == "" && u.snapshot.Some? && p.buffer <= u.snapshot.value {
      assert p.buffer + u.snapshot.value[|p.buffer|..] == u.snapshot.value;
    }
  }

  lemma GenerateAccounts(id: string, p: Part, waiting: seq<PendingDelta>, u: PartUpdate, messageId: Option<string>)
    ensures var (q, log) := Generate(id, p, waiting, u, messageId); GenuineLog(log, id) && q.buffer == Replay(p.buffer, log, id)
  {
    DeltasAccount(id, p, waiting);
    var (q, early) := ApplyDeltas(id, p, waiting);
    UpdateAccounts(id, q, u, messageId);
    ReplayConcat(p.buffer, early, ApplyUpdate(id, q, u, messageId).1, id);
  }

  // ---- The invariant of a run ----

  /** Sequence numbers count the updates, and every event id is built from its own number. */
  ghost predicate Numbered(ch: Channel) {
    && ch.out.sequence == |ch.queue|
    && forall i :: 0 <= i < |ch.queue| ==> Numbers(ch, i)
  }

  predicate Numbers(ch: Channel, i: nat)
    requires i < |ch.queue|
  {
    var u := ch.queue[i];
    (u.Artifact? || u.InterruptStatus? || u.ProgressStatus?) && u.sequence == i + 1 && u.eventId == ch.out.EventId(i + 1)
  }

  /** Exactly the first update of the stream artifact starts it; all later ones append. */
  ghost predicate OpensOnce(ch: Channel) {
    && ch.out.emittedStreamChunk == ch.out.sawAnyChunk == (Artifacts(ch.queue) != [])
    && forall k :: 0 <= k < |Artifacts(ch.queue)| ==>
         Artifacts(ch.queue)[k].Artifact? && Artifacts(ch.queue)[k].append == (k > 0) && !Artifacts(ch.queue)[k].lastChunk
  }

  /** Per request, asked and resolved alternate from asked, and a request is pending while the last word was asked. */
  ghost predicate Bracketed(ch: Channel) {
    forall id :: Brackets(ch, id)
  }

  ghost predicate Brackets(ch: Channel, id: string) {
    var phases := Phases(ch.queue, id);
    && (forall k :: 0 <= k < |phases| ==> phases[k] == if k % 2 == 0 then AskedPhase else ResolvedPhase)
    && (id in ch.out.pendingInterrupts <==> |phases| % 2 == 1)
  }

  /** The buffers hold what the client was sent, which is what was generated, less the opening echo. */
  ghost predicate Faithful(ch: Channel, chunks: seq<Chunk>) {
    var kept := AfterEcho(ch.out.userText, chunks);
    && ch.out.sawAnyChunk == (kept != [])
    && (!ch.out.sawAnyChunk ==> ch.out.buffers == map[])
    && Delivered(ch, kept, TEXT)
    && Delivered(ch, kept, REASONING)
  }

  ghost predicate Delivered(ch: Channel, kept: seq<Chunk>, b: BlockType) {
    ch.out.Buffer(b) == TextOf(ch.queue, b) == SpokenText(kept, b)
  }

  /** The aspects of the client's view that every emission keeps. */
  datatype Facet = Numbering | Opening | Bracketing | Fidelity

  ghost predicate Holds(f: Facet, ch: Channel, chunks: seq<Chunk>) {
    match f
    case Numbering => Numbered(ch)
    case Opening => OpensOnce(ch)
    case Bracketing => Bracketed(ch)
    case Fidelity => Faithful(ch, chunks)
  }

  ghost predicate ClientInv(ch: Channel, chunks: seq<Chunk>) {
    forall f :: Holds(f, ch, chunks)
  }

  ghost predicate BuffersReplayed(s: Run) {
    && (forall id :: id in s.parts ==> s.parts[id].buffer == Replay("", s.log, id))
    && (forall id :: id !in s.parts ==> Replay("", s.log, id) == "")
  }

  ghost predicate Inv(s: Run) {
    && ClientInv(s.channel, Chunks(s.log))
    && BuffersReplayed(s)
    && (s.terminal.Some? ==> s.stopped)
  }

  // ---- Emission keeps the invariant ----

  lemma EmitChunkKeeps(cfg: Config, ch: Channel, chunks: seq<Chunk>, c: Chunk)
    requires ClientInv(ch, chunks) && Genuine(c)
    ensures ClientInv(EmitChunk(cfg, ch, c), chunks + [c])
  {
    var next := EmitChunk(cfg, ch, c);
    forall f
      ensures Holds(f, next, chunks + [c])
    {
      assert Holds(f, ch, chunks);
      if f.Fidelity? {
        EmitChunkStaysFaithful(cfg, ch, chunks, c);
      } else if next != ch {
        ArtifactKeeps(f, ch, next, chunks, chunks + [c]);
      }
    }
  }

  lemma ArtifactKeeps(f: Facet, ch: Channel, next: Channel, chunks: seq<Chunk>, grown: seq<Chunk>)
    requires Holds(f, ch, chunks) && !f.Fidelity?
    requires |next.queue| == |ch.queue| + 1 && next.queue[..|ch.queue|] == ch.queue
    requires var u := next.queue[|ch.queue|];
             && u.Artifact? && u.append == ch.out.emittedStreamChunk && !u.lastChunk
             && u.sequence == ch.out.sequence + 1 && u.eventId == ch.out.EventId(u.sequence)
    requires next.out == ch.out.(buffers := next.out.buffers, sawAnyChunk := true, emittedStreamChunk := true, sequence := ch.out.sequence + 1)
    ensures Holds(f, next, grown)
  {
    var u := next.queue[|ch.queue|];
    assert next.queue == ch.queue + [u];
    Snoc(ch.queue, u);
    match f
    case Numbering => NumberedGrows(ch, next);
    case Opening => OpensOnceGrows(ch, next);
    case Bracketing => BracketsStay(ch, next);
  }

  lemma OpensOnceGrows(ch: Channel, next: Channel)
    requires OpensOnce(ch)
    requires Artifacts(next.queue) != [] && Artifacts(next.queue)[..|Artifacts(next.queue)| - 1] == Artifacts(ch.queue)
    requires var last := Artifacts(next.queue)[|Artifacts(next.queue)| - 1];
             last.Artifact? && last.append == ch.out.emittedStreamChunk && !last.lastChunk
    requires next.out.emittedStreamChunk && next.out.sawAnyChunk
    ensures OpensOnce(next)
  {
    var n := |Artifacts(ch.queue)|;
    forall k | 0 <= k < n
      ensures Artifacts(next.queue)[k] == Artifacts(ch.queue)[k]
    {
      assert Artifacts(next.queue)[..n][k] == Artifacts(next.queue)[k];
    }
  }

  lemma EmitChunkStaysFaithful(cfg: Config, ch: Channel, chunks: seq<Chunk>, c: Chunk)
    requires Faithful(ch, chunks) && Genuine(c)
    ensures Faithful(EmitChunk(cfg, ch, c), chunks + [c])
  {
    var d := Deliverable(cfg, c);
    var kept := AfterEcho(ch.out.userText, chunks);
    AfterEchoSnoc(ch.out.userText, chunks, c);
    assert d.blockType != TOOL_CALL ==> d == c;
    assert ch.out.DropsAsEcho(PayloadText(d.part), d.blockType, d.role) <==> kept == [] && IsEcho(ch.out.userText, c);
    if !ch.out.DropsAsEcho(PayloadText(d.part), d.blockType, d.role) {
      EmitChunkDelivers(cfg, ch, kept, c, TEXT);
      EmitChunkDelivers(cfg, ch, kept, c, REASONING);
    }
  }

  lemma EmitChunkDelivers(cfg: Config, ch: Channel, kept: seq<Chunk>, c: Chunk, b: BlockType)
    requires Delivered(ch, kept, b) && Genuine(c) && !b.TOOL_CALL?
    requires var d := Deliverable(cfg, c); !ch.out.DropsAsEcho(PayloadText(d.part), d.blockType, d.role)
    ensures Delivered(EmitChunk(cfg, ch, c), kept + [c], b)
  {
    assert (kept + [c])[..|kept|] == kept;
    if c.blockType == b {
      OwnChunkDelivers(cfg, ch, c);
    } else {
      OtherChunkSpares(cfg, ch, c, b);
    }
  }

  lemma OwnChunkDelivers(cfg: Config, ch: Channel, c: Chunk)
    requires Genuine(c) && !c.blockType.TOOL_CALL? && !ch.out.DropsAsEcho(PayloadText(c.part), c.blockType, c.role)
    ensures var next := EmitChunk(cfg, ch, c);
            && next.out.Buffer(c.blockType) == ch.out.Buffer(c.blockType) + PayloadText(c.part)
            && TextOf(next.queue, c.blockType) == TextOf(ch.queue, c.blockType) + PayloadText(c.part)
  {
    var next := EmitChunk(cfg, ch, c);
    assert next != ch;
    var u := next.queue[|ch.queue|];
    assert next.queue == ch.queue + [u];
    SnocText(ch.queue, u, c.blockType);
  }

  lemma OtherChunkSpares(cfg: Config, ch: Channel, c: Chunk, b: BlockType)
    requires b != c.blockType
    ensures EmitChunk(cfg, ch, c).out.Buffer(b) == ch.out.Buffer(b)
    ensures TextOf(EmitChunk(cfg, ch, c).queue, b) == TextOf(ch.queue, b)
  {
    var next := EmitChunk(cfg, ch, c);
    if next != ch {
      var u := next.queue[|ch.queue|];
      assert next.queue == ch.queue + [u];
      SnocText(ch.queue, u, b);
    }
  }

  lemma NumberedGrows(ch: Channel, next: Channel)
    requires Numbered(ch)
    requires |next.queue| == |ch.queue| + 1 && next.queue[..|ch.queue|] == ch.queue
    requires next.out.namespace == ch.out.namespace && next.out.sequence == |next.queue|
    requires Numbers(next, |ch.queue|)
    ensures Numbered(next)
  {
    forall i | 0 <= i < |next.queue|
      ensures Numbers(next, i)
    {
      if i < |ch.queue| {
        assert next.queue[i] == ch.queue[i] && Numbers(ch, i);
      }
    }
  }

  lemma BracketsStay(ch: Channel, next: Channel)
    requires Bracketed(ch)
    requires next.out.pendingInterrupts == ch.out.pendingInterrupts
    requires forall id :: Phases(next.queue, id) == Phases(ch.queue, id)
    ensures Bracketed(next)
  {
    forall id
      ensures Brackets(next, id)
    {
      assert Brackets(ch, id);
    }
  }

  lemma {:induction false} EmitChunksKeeps(cfg: Config, ch: Channel, chunks: seq<Chunk>, more: seq<Chunk>)
    requires ClientInv(ch, chunks) && forall c :: c in more ==> Genuine(c)
    ensures ClientInv(EmitChunks(cfg, ch, more), chunks + more)
    decreases |more|
  {
    if more == [] {
      assert chunks + more == chunks;
    } else {
      var c, rest := more[0], more[1..];
      assert Genuine(c) && forall d :: d in rest ==> Genuine(d);
      EmitChunkKeeps(cfg, ch, chunks, c);
      EmitChunksKeeps(cfg, EmitChunk(cfg, ch, c), chunks + [c], rest);
      assert chunks + [c] + rest == chunks + more;
    }
  }

  lemma ObservedKeeps(ch: Channel, chunks: seq<Chunk>, e: Event)
    requires ClientInv(ch, chunks)
    ensures ClientInv(Observed(ch, e), chunks)
    ensures Artifacts(Observed(ch, e).queue) == Artifacts(ch.queue)
    ensures Observed(ch, e).out.pendingInterrupts == ch.out.pendingInterrupts
  {
    var next := Observed(ch, e);
    if next.queue != ch.queue {
      Snoc(ch.queue, next.queue[|ch.queue|]);
    }
    forall f
      ensures Holds(f, next, chunks)
    {
      assert Holds(f, ch, chunks);
      StatusKeeps(f, ch, next, chunks);
    }
  }

  /** A status update, or none, leaves every aspect but the bracketing to its numbering. */
  lemma StatusKeeps(f: Facet, ch: Channel, next: Channel, chunks: seq<Chunk>)
    requires Holds(f, ch, chunks)
    requires next.out == ch.out.(progress := next.out.progress, upstreamError := next.out.upstreamError, sequence := next.out.sequence)
    requires (next.queue == ch.queue && next.out.sequence == ch.out.sequence)
             || (|next.queue| == |ch.queue| + 1 && next.queue[..|ch.queue|] == ch.queue && next.out.sequence == ch.out.sequence + 1
                 && var u := next.queue[|ch.queue|];
                    u.ProgressStatus? && u.sequence == next.out.sequence && u.eventId == ch.out.EventId(u.sequence))
    ensures Holds(f, next, chunks)
  {
    if next.queue != ch.queue {
      assert next.queue == ch.queue + [next.queue[|ch.queue|]];
      Snoc(ch.queue, next.queue[|ch.queue|]);
      SnocText(ch.queue, next.queue[|ch.queue|], TEXT);
      SnocText(ch.queue, next.queue[|ch.queue|], REASONING);
    }
    match f
    case Numbering =>
      if next.queue != ch.queue {
        NumberedGrows(ch, next);
      } else {
        assert forall i :: 0 <= i < |ch.queue| && Numbers(ch, i) ==> Numbers(next, i);
      }
    case Opening =>
    case Bracketing => BracketsStay(ch, next);
    case Fidelity =>
      var kept := AfterEcho(ch.out.userText, chunks);
      assert Delivered(ch, kept, TEXT) && Delivered(ch, kept, REASONING);
  }

  lemma InterruptKeeps(ch: Channel, chunks: seq<Chunk>, id: RequestId, state: TaskState, kind: InterruptType, phase: Phase, detail: string)
    requires ClientInv(ch, chunks)
    requires phase == if id in ch.out.pendingInterrupts then ResolvedPhase else AskedPhase
    ensures var pending := ch.out.pendingInterrupts;
            var flipped := if phase.AskedPhase? then pending + {id} else pending - {id};
            ClientInv(EmitInterrupt(ch.(out := ch.out.(pendingInterrupts := flipped)), state, id, kind, phase, detail), chunks)
  {
    var pending := ch.out.pendingInterrupts;
    var flipped := if phase.AskedPhase? then pending + {id} else pending - {id};
    var next := EmitInterrupt(ch.(out := ch.out.(pendingInterrupts := flipped)), state, id, kind, phase, detail);
    Snoc(ch.queue, next.queue[|ch.queue|]);
    SnocText(ch.queue, next.queue[|ch.queue|], TEXT);
    SnocText(ch.queue, next.queue[|ch.queue|], REASONING);
    forall f
      ensures Holds(f, next, chunks)
    {
      assert Holds(f, ch, chunks);
      match f
      case Numbering => NumberedGrows(ch, next);
      case Opening =>
      case Bracketing => BracketsFlip(ch, next, id, phase);
      case Fidelity =>
        var kept := AfterEcho(ch.out.userText, chunks);
        assert Delivered(ch, kept, TEXT) && Delivered(ch, kept, REASONING);
    }
  }

  lemma BracketsFlip(ch: Channel, next: Channel, id: string, phase: Phase)
    requires Bracketed(ch)
    requires phase == if id in ch.out.pendingInterrupts then ResolvedPhase else AskedPhase
    requires next.out.pendingInterrupts == if phase.AskedPhase? then ch.out.pendingInterrupts + {id} else ch.out.pendingInterrupts - {id}
    requires forall other :: Phases(next.queue, other) == Phases(ch.queue, other) + if other == id then [phase] else []
    ensures Bracketed(next)
  {
    forall other
      ensures Brackets(next, other)
    {
      assert Brackets(ch, other);
    }
  }

  // ---- One event keeps the invariant ----

  lemma PublishKeeps(cfg: Config, s: Run, id: string, p: Part, log: seq<Log>)
    requires Inv(s) && GenuineLog(log, id)
    requires p.buffer == Replay(Replay("", s.log, id), log, id)
    ensures Inv(Publish(cfg, s, id, p, log))
  {
    GenuineChunks(log, id);
    EmitChunksKeeps(cfg, s.channel, Chunks(s.log), Chunks(log));
    ChunksConcat(s.log, log);
    var t := Publish(cfg, s, id, p, log);
    forall other
      ensures Replay("", t.log, other) == if other == id then p.buffer else Replay("", s.log, other)
    {
      ReplayConcat("", s.log, log, other);
      if other != id {
        OtherPartsUntouched(Replay("", s.log, other), log, id, other);
      }
    }
  }

  lemma {:induction false} GenuineChunks(log: seq<Log>, id: string)
    requires GenuineLog(log, id)
    ensures forall c :: c in Chunks(log) ==> Genuine(c)
  {
    if log != [] {
      assert log[0] in log && GenuineLog(log[1..], id);
      GenuineChunks(log[1..], id);
    }
  }

  lemma OnDeltaKeeps(cfg: Config, s: Run, id: string, delta: string, messageId: Option<string>)
    requires Inv(s)
    ensures Inv(OnDelta(cfg, s, id, delta, messageId))
  {
    if delta != "" && id in s.parts && !Muted(s.parts[id]) {
      var (p, log) := ApplyDelta(id, s.parts[id], delta, messageId);
      assert p.buffer == Replay(s.parts[id].buffer, log, id);
      PublishKeeps(cfg, s, id, p, log);
    }
  }

  lemma OnUpdateKeeps(cfg: Config, s: Run, id: string, u: PartUpdate, messageId: Option<string>)
    requires Inv(s)
    ensures Inv(OnUpdate(cfg, s, id, u, messageId))
  {
    if u.blockType.Some? {
      var p := Upsert(s.parts, id, u.blockType.value, u.role, messageId);
      assert p.buffer == Replay("", s.log, id);
      if !Muted(p) {
        var waiting := GetOr(s.pending, id, []);
        GenerateAccounts(id, p, waiting, u, messageId);
        var (q, log) := Generate(id, p, waiting, u, messageId);
        PublishKeeps(cfg, s.(pending := s.pending - {id}), id, q, log);
      }
    }
  }

  lemma OnPartKeeps(cfg: Config, s: Run, e: Event)
    requires Inv(s)
    ensures Inv(OnPart(cfg, s, e))
  {
    if HasId(e.partId) {
      match e.kind
      case PartDelta(text) => OnDeltaKeeps(cfg, s, e.partId.value, text, e.messageId);
      case PartUpdated(u) => OnUpdateKeeps(cfg, s, e.partId.value, u, e.messageId);
      case _ =>
    }
  }

  lemma OnAskedKeeps(s: Run, id: RequestId, kind: InterruptType, details: string)
    requires Inv(s)
    ensures Inv(OnAsked(s, id, kind, details))
  {
    if id !in s.channel.out.pendingInterrupts {
      InterruptKeeps(s.channel, Chunks(s.log), id, InputRequired, kind, AskedPhase, details);
    }
  }

  lemma OnResolvedKeeps(s: Run, id: RequestId, kind: InterruptType, resolution: string)
    requires Inv(s)
    ensures Inv(OnResolved(s, id, kind, resolution))
  {
    if id in s.channel.out.pendingInterrupts {
      InterruptKeeps(s.channel, Chunks(s.log), id, Working, kind, ResolvedPhase, resolution);
    }
  }

  lemma OnSessionKeeps(s: Run, e: Event)
    requires Inv(s)
    ensures Inv(OnSession(s, e))
  {
    ObservedKeeps(s.channel, Chunks(s.log), e);
    var t := s.(channel := Observed(s.channel, e));
    match e.kind
    case Asked(id, kind, details) => OnAskedKeeps(t, id, kind, details);
    case Resolved(id, kind, resolution) => OnResolvedKeeps(t, id, kind, resolution);
    case _ =>
  }

  lemma StepKeeps(cfg: Config, s: Run, item: Item)
    requires Inv(s)
    ensures Inv(Step(cfg, s, item))
  {
    if Active(s) && item.Receive? {
      var e := item.event;
      if e.eventSession == Some(cfg.sessionId) {
        OnSessionKeeps(s, e);
        OnPartKeeps(cfg, OnSession(s, e), e);
      } else {
        OnPartKeeps(cfg, s, e);
      }
    }
  }

  lemma {:induction false} ConsumeKeeps(cfg: Config, s: Run, feed: seq<Item>)
    requires Inv(s)
    ensures Inv(Consume(cfg, s, feed))
    decreases |feed|
  {
    if feed != [] {
      StepKeeps(cfg, s, feed[0]);
      ConsumeKeeps(cfg, Step(cfg, s, feed[0]), feed[1..]);
    }
  }
}

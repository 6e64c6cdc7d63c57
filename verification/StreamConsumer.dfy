/** The stream consumer: one object per streaming request, updated in place by every upstream event. */
module StreamConsumer {
  import opened Basics
  import opened StreamState
  import opened StreamModel
  import opened TaskStates

  class PartState {
    var blockType: BlockType
    var messageId: Option<string>
    var role: Option<Role>
    var buffer: string
    var sawDelta: bool

    constructor (blockType: BlockType, messageId: Option<string>, role: Option<Role>)
      ensures View() == Part(blockType, messageId, role, "", false)
    {
      this.blockType, this.messageId, this.role, buffer, sawDelta := blockType, messageId, role, "", false;
    }

    function View(): Part
      reads this
    {
      Part(blockType, messageId, role, buffer, sawDelta)
    }

    method DeltaChunks(ghost id: string, delta: string, messageId: Option<string>)
      returns (chunks: seq<Chunk>, ghost log: seq<Log>)
      modifies this
      ensures (View(), log) == ApplyDelta(id, old(View()), delta, messageId)
      ensures chunks == Chunks(log)
    {
      chunks, log := [], [];
      if delta == "" {
        return;
      }
      if HasId(messageId) {
        this.messageId := messageId;
      }
      buffer := buffer + delta;
      sawDelta := true;
      chunks := [TextChunk(View(), delta)];
      log := [Said(id, chunks[0])];
    }

    method SnapshotChunks(ghost id: string, snapshot: string, messageId: Option<string>)
      returns (chunks: seq<Chunk>, ghost log: seq<Log>)
      modifies this
      ensures (View(), log) == ApplySnapshot(id, old(View()), snapshot, messageId)
      ensures chunks == Chunks(log)
    {
      chunks, log := [], [];
      if HasId(messageId) {
        this.messageId := messageId;
      }
      var previous := buffer;
      if snapshot == previous {
        return;
      }
      if previous <= snapshot {
        var delta := snapshot[|previous|..];
        buffer := snapshot;
        chunks := [TextChunk(View(), delta)];
        log := [Said(id, chunks[0])];
        return;
      }
      buffer := snapshot;
      log := [Rewrote(id, snapshot)];
    }

    method ToolChunks(ghost id: string, tool: Option<ToolPayload>, messageId: Option<string>)
      returns (chunks: seq<Chunk>, ghost log: seq<Log>)
      modifies this
      ensures (View(), log) == ApplyTool(id, old(View()), tool, messageId)
      ensures chunks == Chunks(log)
    {
      chunks, log := [], [];
      if tool.None? {
        return;
      }
      var contentKey := tool.value.json;
      if HasId(messageId) {
        this.messageId := messageId;
      }
      var previous := buffer;
      if contentKey == previous {
        return;
      }
      buffer := contentKey;
      chunks := [Chunk(DataPart(contentKey, tool.value.asciiJson), contentKey, false, previous != "",
                       blockType, FromToolPart, this.messageId, role)];
      log := [Said(id, chunks[0]), Rewrote(id, contentKey)];
      assert Chunks(log[1..]) == [];
    }
  }

  class StreamRuntime {
    const cfg: Config
    const out: StreamOutputState
    var queue: seq<Update>
    var partStates: map<string, PartState>
    var pendingDeltas: map<string, seq<PendingDelta>>
    var registry: set<string>
    var terminal: Option<Signal>
    var stopped: bool
    var ended: bool
    var backoff: real
    var sleeps: seq<real>
    ghost var log: seq<Log>

    constructor (cfg: Config, out: StreamOutputState, registry: set<string>)
      ensures Valid() && fresh(this)
      ensures this.out == out && this.cfg == cfg && partStates == map[]
      ensures View() == Start(out.View(), registry)
    {
      this.cfg, this.out, queue, partStates, pendingDeltas := cfg, out, [], map[], map[];
      this.registry, terminal, stopped, ended := registry, None, false, false;
      backoff, sleeps, log := INITIAL_BACKOFF, [], [];
    }

    /** No two parts share one state object. */
    ghost predicate Valid()
      reads this`partStates
    {
      forall a, b :: a in partStates && b in partStates && a != b ==> partStates[a] != partStates[b]
    }

    ghost function Client(): Channel
      reads this`queue, out
    {
      Channel(out.View(), queue)
    }

    ghost function Parts(): map<string, Part>
      reads this`partStates, partStates.Values
    {
      map k | k in partStates :: partStates[k].View()
    }

    twostate lemma PartsStay()
      requires partStates == old(partStates) && forall p :: p in partStates.Values ==> unchanged(p)
      ensures Parts() == old(Parts())
    {
    }

    twostate lemma OnePartChanges(id: string)
      requires Valid() && id in partStates && partStates == old(partStates)
      requires forall p :: p in partStates.Values && p != partStates[id] ==> unchanged(p)
      ensures Parts() == old(Parts())[id := partStates[id].View()]
    {
      forall k | k in partStates && k != id
        ensures partStates[k].View() == old(partStates[k].View())
      {
        assert partStates[k] in partStates.Values;
      }
    }

    ghost function View(): Run
      reads this, out, partStates.Values
    {
      Run(Client(), Parts(), pendingDeltas, registry, terminal, stopped, ended, backoff, sleeps, log)
    }

    method EmitOne(next: Chunk)
      modifies this`queue, out
      ensures Client() == EmitChunk(cfg, old(Client()), next)
    {
      var chunk := next;
      if !cfg.allowStructured && chunk.part.DataPart? {
        var fallback := chunk.part.asciiJson;
        chunk := chunk.(part := TextPart(fallback), contentKey := fallback, accumulate := false);
      }
      var messageId := out.View().MessageId(chunk.messageId);
      var drop := out.ShouldDropInitialUserEcho(PayloadText(chunk.part), chunk.blockType, chunk.role);
      if drop {
        return;
      }
      var emit, append := out.RegisterChunk(chunk.blockType, chunk.contentKey, chunk.append, chunk.accumulate);
      if !emit {
        return;
      }
      var n := out.NextSequence();
      queue := queue + [Artifact(chunk.part, append, false, chunk.blockType, chunk.source,
                                 messageId, chunk.role, out.View().EventId(n), n)];
    }

    method EmitChunks(chunks: seq<Chunk>)
      modifies this`queue, out
      ensures Client() == StreamModel.EmitChunks(cfg, old(Client()), chunks)
    {
      for i := 0 to |chunks|
        invariant StreamModel.EmitChunks(cfg, Client(), chunks[i..]) == StreamModel.EmitChunks(cfg, old(Client()), chunks)
      {
        assert chunks[i..][0] == chunks[i] && chunks[i..][1..] == chunks[i + 1..];
        EmitOne(chunks[i]);
      }
    }

    method EmitProgressStatus(progress: Progress, messageId: Option<string>)
      modifies this`queue, out
      ensures Client() == EmitProgress(old(Client()), progress, messageId)
    {
      var changed := out.RegisterProgress(progress.identity, progress.key);
      if !changed {
        return;
      }
      var n := out.NextSequence();
      queue := queue + [ProgressStatus(progress.key, out.View().MessageId(messageId), out.View().EventId(n), n)];
    }

    method EmitInterruptStatus(state: TaskState, id: string, kind: InterruptType, phase: Phase, detail: string)
      modifies this`queue, out`sequence
      ensures Client() == EmitInterrupt(old(Client()), state, id, kind, phase, detail)
    {
      var n := out.NextSequence();
      queue := queue + [InterruptStatus(state, id, kind, phase, detail, out.View().MessageId(None), out.View().EventId(n), n)];
    }

    method UpsertPartState(id: string, blockType: BlockType, role: Option<Role>, messageId: Option<string>) returns (state: PartState)
      requires Valid()
      modifies this`partStates, partStates.Values
      ensures Valid() && id in partStates && state == partStates[id]
      ensures forall k :: k in partStates && k in old(partStates) ==> partStates[k] == old(partStates)[k]
      ensures fresh(partStates.Values - old(partStates.Values))
      ensures Parts() == old(Parts())[id := Upsert(old(Parts()), id, blockType, role, messageId)]
    {
      ghost var parts := Parts();
      if id !in partStates {
        state := new PartState(blockType, messageId, role);
        partStates := partStates[id := state];
        assert Parts() == parts[id := state.View()];
      } else {
        state := partStates[id];
        state.blockType := blockType;
        if role.Some? {
          state.role := role;
        }
        if HasId(messageId) {
          state.messageId := messageId;
        }
        OnePartChanges(id);
      }
    }

    method HandleAsked(id: RequestId, kind: InterruptType, details: string)
      modifies this`queue, this`registry, out
      ensures View() == OnAsked(old(View()), id, kind, details)
    {
      var marked := out.MarkInterruptPending(id);
      if marked {
        registry := registry + {id};
        EmitInterruptStatus(InputRequired, id, kind, AskedPhase, details);
      }
      PartsStay();
    }

    method HandleResolved(id: RequestId, kind: InterruptType, resolution: string)
      modifies this`queue, this`registry, out
      ensures View() == OnResolved(old(View()), id, kind, resolution)
    {
      var cleared := out.ClearInterruptPending(id);
      registry := registry - {id};
      if cleared {
        EmitInterruptStatus(Working, id, kind, ResolvedPhase, resolution);
      }
      PartsStay();
    }

    method Observe(e: Event)
      modifies this`queue, out
      ensures Client() == Observed(old(Client()), e)
    {
      if e.progress.Some? {
        EmitProgressStatus(e.progress.value, e.messageId);
      }
      if e.upstreamError.Some? && out.upstreamError.None? {
        out.upstreamError := e.upstreamError;
      }
    }

    method HandleSession(e: Event)
      modifies this`queue, this`registry, this`terminal, this`stopped, out
      ensures View() == OnSession(old(View()), e)
    {
      Observe(e);
      match e.kind
      case SessionEnded(signal) =>
        if terminal.None? {
          terminal := Some(signal);
          stopped := true;
        }
      case Asked(id, kind, details) => HandleAsked(id, kind, details);
      case Resolved(id, kind, resolution) => HandleResolved(id, kind, resolution);
      case _ =>
    }

    method HandleDelta(id: string, delta: string, messageId: Option<string>)
      requires Valid()
      modifies this`queue, this`pendingDeltas, this`log, out, partStates.Values
      ensures Valid() && View() == OnDelta(cfg, old(View()), id, delta, messageId)
    {
      if delta == "" {
        return;
      }
      if id !in partStates {
        pendingDeltas := pendingDeltas[id := GetOr(pendingDeltas, id, []) + [PendingDelta(delta, messageId)]];
        return;
      }
      var state := partStates[id];
      if Muted(state.View()) {
        return;
      }
      PublishDelta(id, state, delta, messageId);
    }

    method PublishDelta(id: string, state: PartState, delta: string, messageId: Option<string>)
      requires Valid() && id in partStates && partStates[id] == state
      modifies this`queue, this`log, out, state
      ensures var (p, l) := ApplyDelta(id, old(state.View()), delta, messageId);
              View() == Publish(cfg, old(View()), id, p, l)
    {
      var chunks, l := state.DeltaChunks(id, delta, messageId);
      log := log + l;
      EmitChunks(chunks);
      OnePartChanges(id);
    }

    method HandleUpdate(id: string, u: PartUpdate, messageId: Option<string>)
      requires Valid()
      modifies this`queue, this`partStates, this`pendingDeltas, this`log, out, partStates.Values
      ensures Valid() && View() == OnUpdate(cfg, old(View()), id, u, messageId)
      ensures fresh(partStates.Values - old(partStates.Values))
    {
      if u.blockType.None? {
        pendingDeltas := pendingDeltas - {id};
        PartsStay();
        return;
      }
      var pending := GetOr(pendingDeltas, id, []);
      pendingDeltas := pendingDeltas - {id};
      PartsStay();
      Announce(id, u.blockType.value, pending, u, messageId);
    }

    method Announce(id: string, blockType: BlockType, pending: seq<PendingDelta>, u: PartUpdate, messageId: Option<string>)
      requires Valid()
      modifies this`queue, this`partStates, this`log, out, partStates.Values
      ensures Valid()
      ensures View() == OnAnnounced(cfg, old(View()), id, Upsert(old(Parts()), id, blockType, u.role, messageId), pending, u, messageId)
      ensures fresh(partStates.Values - old(partStates.Values))
    {
      ghost var t := View();
      var state := UpsertPartState(id, blockType, u.role, messageId);
      ghost var p := state.View();
      assert Parts()[id] == p;
      assert View() == t.(parts := t.parts[id := p]);
      AnnouncedReplaces(cfg, t, id, p, pending, u, messageId);
      HandleAnnounced(id, state, pending, u, messageId);
    }

    method HandleAnnounced(id: string, state: PartState, pending: seq<PendingDelta>, u: PartUpdate, messageId: Option<string>)
      requires Valid() && id in partStates && partStates[id] == state
      modifies this`queue, this`log, out, state
      ensures View() == OnAnnounced(cfg, old(View()), id, old(state.View()), pending, u, messageId)
    {
      if Muted(state.View()) {
        OnePartChanges(id);
        return;
      }
      var chunks, l := GeneratedChunks(id, state, pending, u, messageId);
      log := log + l;
      EmitChunks(chunks);
      OnePartChanges(id);
    }

    static method GeneratedChunks(ghost id: string, state: PartState, pending: seq<PendingDelta>, u: PartUpdate,
                                  messageId: Option<string>)
      returns (chunks: seq<Chunk>, ghost log: seq<Log>)
      modifies state
      ensures (state.View(), log) == Generate(id, old(state.View()), pending, u, messageId)
      ensures chunks == Chunks(log)
    {
      ghost var early, late;
      var more;
      chunks, early := BufferedChunks(id, state, pending);
      more, late := UpdateChunks(id, state, u, messageId);
      ChunksConcat(early, late);
      chunks, log := chunks + more, early + late;
    }

    static method BufferedChunks(ghost id: string, state: PartState, pending: seq<PendingDelta>)
      returns (chunks: seq<Chunk>, ghost log: seq<Log>)
      modifies state
      ensures (state.View(), log) == ApplyDeltas(id, old(state.View()), pending)
      ensures chunks == Chunks(log)
    {
      chunks, log := [], [];
      ghost var p, all := state.View(), ApplyDeltas(id, state.View(), pending);
      ghost var rest := all.1;
      for i := 0 to |pending|
        invariant p == state.View() && chunks == Chunks(log)
        invariant ApplyDeltas(id, p, pending[i..]) == (all.0, rest)
        invariant all.1 == log + rest
      {
        assert pending[i..][0] == pending[i] && pending[i..][1..] == pending[i + 1..];
        var c, l := state.DeltaChunks(id, pending[i].delta, pending[i].messageId);
        ChunksConcat(log, l);
        p, rest := state.View(), ApplyDeltas(id, state.View(), pending[i + 1..]).1;
        assert log + (l + rest) == (log + l) + rest;
        chunks, log := chunks + c, log + l;
      }
      assert pending[|pending|..] == [] && log + [] == log;
    }

    static method UpdateChunks(ghost id: string, state: PartState, u: PartUpdate, messageId: Option<string>)
      returns (chunks: seq<Chunk>, ghost log: seq<Log>)
      modifies state
      ensures (state.View(), log) == ApplyUpdate(id, old(state.View()), u, messageId)
      ensures chunks == Chunks(log)
    {
      chunks, log := [], [];
      if u.delta != "" {
        chunks, log := state.DeltaChunks(id, u.delta, messageId);
      } else if state.blockType == TOOL_CALL {
        chunks, log := state.ToolChunks(id, u.tool, messageId);
      } else if u.snapshot.Some? {
        chunks, log := state.SnapshotChunks(id, u.snapshot.value, messageId);
      }
    }

    method HandleEvent(e: Event)
      requires Valid()
      modifies this, out, partStates.Values
      ensures Valid() && View() == OnEvent(cfg, old(View()), e)
      ensures fresh(partStates.Values - old(partStates.Values))
    {
      if e.eventSession == Some(cfg.sessionId) {
        HandleSession(e);
      }
      if e.streamSession != Some(cfg.sessionId) || !HasId(e.partId) {
        return;
      }
      match e.kind
      case PartDelta(text) => HandleDelta(e.partId.value, text, e.messageId);
      case PartUpdated(u) => HandleUpdate(e.partId.value, u, e.messageId);
      case _ =>
    }

    method HandleItem(item: Item)
      requires Valid()
      modifies this, out, partStates.Values
      ensures Valid() && View() == Step(cfg, old(View()), item)
      ensures fresh(partStates.Values - old(partStates.Values))
    {
      if stopped || ended {
        return;
      }
      match item
      case Receive(e) => HandleEvent(e);
      case Disconnect =>
        sleeps := sleeps + [backoff];
        backoff := Min(backoff * 2.0, MAX_BACKOFF);
      case EndOfStream => ended := true;
      case StopRequested => stopped := true;
    }

    /** Consume the upstream until it ends, is stopped, or says the session is over; reconnect when it fails. */
    method Consume(feed: seq<Item>)
      requires Valid()
      modifies this, out, partStates.Values
      ensures Valid() && View() == StreamModel.Consume(cfg, old(View()), feed)
    {
      for i := 0 to |feed|
        invariant Valid()
        invariant fresh(partStates.Values - old(partStates.Values))
        invariant StreamModel.Consume(cfg, View(), feed[i..]) == StreamModel.Consume(cfg, old(View()), feed)
      {
        assert feed[i..][0] == feed[i] && feed[i..][1..] == feed[i + 1..];
        HandleItem(feed[i]);
      }
    }
  }

  lemma AnnouncedReplaces(cfg: Config, s: Run, id: string, p: Part, waiting: seq<PendingDelta>, u: PartUpdate,
                          messageId: Option<string>)
    ensures OnAnnounced(cfg, s.(parts := s.parts[id := p]), id, p, waiting, u, messageId)
            == OnAnnounced(cfg, s, id, p, waiting, u, messageId)
  {
    var q := if Muted(p) then p else Generate(id, p, waiting, u, messageId).0;
    assert s.parts[id := p][id := q] == s.parts[id := q];
  }
}

/** The stream normaliser as a function: what one upstream item does to the consumer's state and to the client's queue. */
module StreamModel {
  import opened Basics
  import opened StreamState
  import opened TaskStates

  /** What the consumer remembers about one upstream part. */
  datatype Part = Part(blockType: BlockType, messageId: Option<string>, role: Option<Role>, buffer: string, sawDelta: bool)

  /** A text delta that arrived before its part was announced. */
  datatype PendingDelta = PendingDelta(delta: string, messageId: Option<string>)

  /** Encoded JSON is never empty. */
  type Json = s: string | s != "" witness "{}"

  datatype ToolPayload = ToolPayload(json: Json, asciiJson: Json)

  /** A `message.part.updated` event: an absent delta is empty, an absent snapshot or tool payload is None. */
  datatype PartUpdate = PartUpdate(
    blockType: Option<BlockType>,
    role: Option<Role>,
    delta: string,
    snapshot: Option<string>,
    tool: Option<ToolPayload>)

  datatype Signal = Signal(state: TaskState, message: string)

  datatype InterruptType = Permission | Question

  datatype Progress = Progress(identity: string, key: string)

  /** Interrupt request ids reach the consumer stripped and non-empty. */
  type RequestId = s: string | s != "" && Strip(s) == s witness "r"

  datatype Kind =
    | SessionEnded(signal: Signal)
    | Asked(askedId: RequestId, askedType: InterruptType, details: string)
    | Resolved(resolvedId: RequestId, resolvedType: InterruptType, resolution: string)
    | PartUpdated(update: PartUpdate)
    | PartDelta(text: string)
    | Other

  /** A parsed upstream event. `eventSession` and `streamSession` are the two session lookups the consumer makes. */
  datatype Event = Event(
    kind: Kind,
    eventSession: Option<string>,
    streamSession: Option<string>,
    messageId: Option<string>,
    partId: Option<string>,
    progress: Option<Progress>,
    upstreamError: Option<UpstreamError>)

  /** What the upstream connection can do next: deliver, fail, end, or be stopped from outside. */
  datatype Item = Receive(event: Event) | Disconnect | EndOfStream | StopRequested

  datatype Phase = AskedPhase | ResolvedPhase

  /** Why a request failed: the stream ended too early, or the upstream said so. */
  datatype FailureCause = EndedBeforeTerminal(session: string) | UpstreamSaid(message: string)

  datatype Update =
    | Artifact(part: Payload, append: bool, lastChunk: bool, blockType: BlockType, source: Source,
               messageId: string, role: Option<Role>, eventId: string, sequence: nat)
    | InterruptStatus(state: TaskState, requestId: string, interruptType: InterruptType, phase: Phase, detail: string,
                      messageId: string, eventId: string, sequence: nat)
    | ProgressStatus(key: string, messageId: string, eventId: string, sequence: nat)
    | ErrorArtifact(cause: FailureCause)
    | FinalStatus(state: TaskState, statusId: Option<string>)

  /** The client-facing half of the state: the shared output state and everything enqueued so far. */
  datatype Channel = Channel(out: Output, queue: seq<Update>)

  /** The history of part buffers: a chunk was generated for a part, or its buffer was overwritten. */
  datatype Log = Said(partId: string, chunk: Chunk) | Rewrote(partId: string, buffer: string)

  datatype Config = Config(sessionId: string, allowStructured: bool)

  datatype Run = Run(
    channel: Channel,
    parts: map<string, Part>,
    pending: map<string, seq<PendingDelta>>,
    registry: set<string>,
    terminal: Option<Signal>,
    stopped: bool,
    ended: bool,
    backoff: real,
    sleeps: seq<real>,
    log: seq<Log>)

  const INITIAL_BACKOFF := 0.5
  const MAX_BACKOFF := 5.0

  function Start(out: Output, registry: set<string>): Run {
    Run(Channel(out, []), map[], map[], registry, None, false, false, INITIAL_BACKOFF, [], [])
  }

  // ---- Emission ----

  /** Clients that refuse structured output receive the ASCII JSON of a data part as text. */
  function Deliverable(cfg: Config, c: Chunk): Chunk {
    if !cfg.allowStructured && c.part.DataPart?
    then c.(part := TextPart(c.part.asciiJson), contentKey := c.part.asciiJson, accumulate := false)
    else c
  }

  predicate Emits(out: Output, c: Chunk) {
    && !out.DropsAsEcho(PayloadText(c.part), c.blockType, c.role)
    && out.Registers(c.blockType, c.contentKey, c.append, c.accumulate)
  }

  function EmitChunk(cfg: Config, ch: Channel, chunk: Chunk): Channel {
    var c := Deliverable(cfg, chunk);
    if !Emits(ch.out, c) then ch
    else
      var n := ch.out.sequence + 1;
      Channel(
        ch.out.AfterRegister(c.blockType, c.contentKey, c.append, c.accumulate).(sequence := n),
        ch.queue + [Artifact(c.part, ch.out.emittedStreamChunk, false, c.blockType, c.source,
                             ch.out.MessageId(c.messageId), c.role, ch.out.EventId(n), n)])
  }

  function EmitChunks(cfg: Config, ch: Channel, chunks: seq<Chunk>): Channel
    decreases |chunks|
  {
    if chunks == [] then ch else EmitChunks(cfg, EmitChunk(cfg, ch, chunks[0]), chunks[1..])
  }

  function EmitProgress(ch: Channel, p: Progress, messageId: Option<string>): Channel {
    var out := ch.out.(progress := ch.out.progress[p.identity := p.key]);
    if p.identity in ch.out.progress && ch.out.progress[p.identity] == p.key then Channel(out, ch.queue)
    else
      var n := ch.out.sequence + 1;
      Channel(out.(sequence := n),
              ch.queue + [ProgressStatus(p.key, ch.out.MessageId(messageId), ch.out.EventId(n), n)])
  }

  function EmitInterrupt(ch: Channel, state: TaskState, id: string, kind: InterruptType, phase: Phase, detail: string): Channel {
    var n := ch.out.sequence + 1;
    Channel(ch.out.(sequence := n),
            ch.queue + [InterruptStatus(state, id, kind, phase, detail, ch.out.MessageId(None), ch.out.EventId(n), n)])
  }

  // ---- Part buffers ----

  predicate HasId(messageId: Option<string>) {
    messageId.Some? && messageId.value != ""
  }

  function Renamed(p: Part, messageId: Option<string>): Part {
    if HasId(messageId) then p.(messageId := messageId) else p
  }

  function TextChunk(p: Part, text: string): Chunk {
    Chunk(TextPart(text), text, true, true, p.blockType, FromStream, p.messageId, p.role)
  }

  function ApplyDelta(id: string, p: Part, delta: string, messageId: Option<string>): (Part, seq<Log>) {
    if delta == "" then (p, [])
    else
      var q := Renamed(p, messageId).(buffer := p.buffer + delta, sawDelta := true);
      (q, [Said(id, TextChunk(q, delta))])
  }

  function ApplyDeltas(id: string, p: Part, ds: seq<PendingDelta>): (Part, seq<Log>)
    decreases |ds|
  {
    if ds == [] then (p, [])
    else
      var (q, l) := ApplyDelta(id, p, ds[0].delta, ds[0].messageId);
      var (r, m) := ApplyDeltas(id, q, ds[1..]);
      (r, l + m)
  }

  function ApplySnapshot(id: string, p: Part, snapshot: string, messageId: Option<string>): (Part, seq<Log>) {
    var q := Renamed(p, messageId).(buffer := snapshot);
    if snapshot == p.buffer then (q, [])
    else if p.buffer <= snapshot then (q, [Said(id, TextChunk(q, snapshot[|p.buffer|..]))])
    else (q, [Rewrote(id, snapshot)])
  }

  function ApplyTool(id: string, p: Part, tool: Option<ToolPayload>, messageId: Option<string>): (Part, seq<Log>) {
    if tool.None? then (p, [])
    else
      var q := Renamed(p, messageId).(buffer := tool.value.json);
      if tool.value.json == p.buffer then (q, [])
      else (q, [Said(id, Chunk(DataPart(tool.value.json, tool.value.asciiJson), tool.value.json, false, p.buffer != "",
                               q.blockType, FromToolPart, q.messageId, q.role)),
                Rewrote(id, tool.value.json)])
  }

  function Upsert(parts: map<string, Part>, id: string, blockType: BlockType, role: Option<Role>, messageId: Option<string>): Part {
    if id !in parts then Part(blockType, messageId, role, "", false)
    else
      var p := parts[id];
      Renamed(p.(blockType := blockType, role := if role.Some? then role else p.role), messageId)
  }

  predicate Muted(p: Part) {
    p.role == Some(User) || p.role == Some(System)
  }

  function ApplyUpdate(id: string, p: Part, u: PartUpdate, messageId: Option<string>): (Part, seq<Log>) {
    if u.delta != "" then ApplyDelta(id, p, u.delta, messageId)
    else if p.blockType == TOOL_CALL then ApplyTool(id, p, u.tool, messageId)
    else if u.snapshot.Some? then ApplySnapshot(id, p, u.snapshot.value, messageId)
    else (p, [])
  }

  /** An announced part first takes the deltas that were waiting for it, then the update itself. */
  function Generate(id: string, p: Part, waiting: seq<PendingDelta>, u: PartUpdate, messageId: Option<string>): (Part, seq<Log>) {
    var (q, early) := ApplyDeltas(id, p, waiting);
    var (r, late) := ApplyUpdate(id, q, u, messageId);
    (r, early + late)
  }

  function Chunks(log: seq<Log>): seq<Chunk> {
    if log == [] then []
    else (if log[0].Said? then [log[0].chunk] else []) + Chunks(log[1..])
  }

  lemma {:induction false} ChunksConcat(a: seq<Log>, b: seq<Log>)
    ensures Chunks(a + b) == Chunks(a) + Chunks(b)
  {
    if a == [] {
      assert a + b == b;
    } else {
      ChunksConcat(a[1..], b);
      assert (a + b)[1..] == a[1..] + b;
    }
  }

  /** Store the part, remember what was generated for it, and offer the generated chunks to the client. */
  function Publish(cfg: Config, s: Run, id: string, p: Part, log: seq<Log>): Run {
    s.(parts := s.parts[id := p], log := s.log + log, channel := EmitChunks(cfg, s.channel, Chunks(log)))
  }

  // ---- One upstream item ----

  function OnDelta(cfg: Config, s: Run, id: string, delta: string, messageId: Option<string>): Run {
    if delta == "" then s
    else if id !in s.parts then
      s.(pending := s.pending[id := GetOr(s.pending, id, []) + [PendingDelta(delta, messageId)]])
    else if Muted(s.parts[id]) then s
    else
      var (p, log) := ApplyDelta(id, s.parts[id], delta, messageId);
      Publish(cfg, s, id, p, log)
  }

  function OnUpdate(cfg: Config, s: Run, id: string, u: PartUpdate, messageId: Option<string>): Run {
    var t := s.(pending := s.pending - {id});
    if u.blockType.None? then t
    else OnAnnounced(cfg, t, id, Upsert(s.parts, id, u.blockType.value, u.role, messageId), GetOr(s.pending, id, []), u, messageId)
  }

  /** The announced part replaces the stored one; unless it is a user's or system's, it then generates its chunks. */
  function OnAnnounced(cfg: Config, s: Run, id: string, p: Part, waiting: seq<PendingDelta>, u: PartUpdate,
                       messageId: Option<string>): Run {
    if Muted(p) then s.(parts := s.parts[id := p])
    else
      var (q, log) := Generate(id, p, waiting, u, messageId);
      Publish(cfg, s, id, q, log)
  }

  /** Progress and the first upstream error are recorded before anything else in the event is looked at. */
  function Observed(ch: Channel, e: Event): Channel {
    var c := if e.progress.Some? then EmitProgress(ch, e.progress.value, e.messageId) else ch;
    if e.upstreamError.Some? && c.out.upstreamError.None? then c.(out := c.out.(upstreamError := e.upstreamError)) else c
  }

  function OnSession(s: Run, e: Event): Run {
    var t := s.(channel := Observed(s.channel, e));
    match e.kind
    case SessionEnded(signal) =>
      if t.terminal.None? then t.(terminal := Some(signal), stopped := true) else t
    case Asked(id, kind, details) => OnAsked(t, id, kind, details)
    case Resolved(id, kind, resolution) => OnResolved(t, id, kind, resolution)
    case _ => t
  }

  function OnAsked(s: Run, id: RequestId, kind: InterruptType, details: string): Run {
    var out := s.channel.out;
    if !out.MarksPending(id) then s
    else
      var marked := s.channel.(out := out.(pendingInterrupts := out.pendingInterrupts + {Strip(id)}));
      s.(registry := s.registry + {id}, channel := EmitInterrupt(marked, InputRequired, id, kind, AskedPhase, details))
  }

  function OnResolved(s: Run, id: RequestId, kind: InterruptType, resolution: string): Run {
    var out := s.channel.out;
    var t := s.(registry := s.registry - {id});
    if !out.ClearsPending(id) then t
    else
      var cleared := s.channel.(out := out.(pendingInterrupts := out.pendingInterrupts - {Strip(id)}));
      t.(channel := EmitInterrupt(cleared, Working, id, kind, ResolvedPhase, resolution))
  }

  function OnPart(cfg: Config, s: Run, e: Event): Run {
    if e.streamSession != Some(cfg.sessionId) || !HasId(e.partId) then s
    else match e.kind
      case PartDelta(text) => OnDelta(cfg, s, e.partId.value, text, e.messageId)
      case PartUpdated(u) => OnUpdate(cfg, s, e.partId.value, u, e.messageId)
      case _ => s
  }

  function OnEvent(cfg: Config, s: Run, e: Event): Run {
    OnPart(cfg, if e.eventSession == Some(cfg.sessionId) then OnSession(s, e) else s, e)
  }

  predicate Active(s: Run) { !s.stopped && !s.ended }

  function Step(cfg: Config, s: Run, item: Item): Run {
    if !Active(s) then s
    else match item
      case Receive(e) => OnEvent(cfg, s, e)
      case Disconnect => s.(sleeps := s.sleeps + [s.backoff], backoff := Min(s.backoff * 2.0, MAX_BACKOFF))
      case EndOfStream => s.(ended := true)
      case StopRequested => s.(stopped := true)
  }

  function Consume(cfg: Config, s: Run, feed: seq<Item>): Run
    decreases |feed|
  {
    if feed == [] then s else Consume(cfg, Step(cfg, s, feed[0]), feed[1..])
  }
}

/** What each generated chunk carries, and in what form chunks reach the client. */
module StreamDelivery {
  import opened Basics
  import opened StreamState
  import opened StreamModel
  import opened StreamProperties
  import opened StreamTheorems
  import opened StreamText

  // ---- What one event generates ----

  function Chosen(own: Option<string>, last: Option<string>): Option<string> {
    if own.Some? && own.value != "" then own else last
  }

  /** A delta event of a shown part generates one text chunk: the part's type and role, and the event's message id or,
      without one, the part's last. */
  lemma DeltaEventSays(cfg: Config, s: Run, e: Event, id: string, text: string)
    requires Active(s) && Speaks(cfg, Receive(e), id) && e.kind == PartDelta(text) && text != ""
    requires id in s.parts && !Hidden(s.parts[id].role)
    ensures var p, t := s.parts[id], Step(cfg, s, Receive(e));
            var messageId := Chosen(e.messageId, p.messageId);
            && t.parts == s.parts[id := Part(p.blockType, messageId, p.role, p.buffer + text, true)]
            && t.log == s.log + [Said(id, Chunk(TextPart(text), text, true, true, p.blockType, FromStream, messageId, p.role))]
  {
    SessionSparesParts(cfg, s, e);
  }

  lemma SessionSparesParts(cfg: Config, s: Run, e: Event)
    ensures var t := if e.eventSession == Some(cfg.sessionId) then OnSession(s, e) else s;
            t.parts == s.parts && t.pending == s.pending && t.log == s.log
    ensures Step(cfg, s, Receive(e)) == if Active(s) then OnPart(cfg, if e.eventSession == Some(cfg.sessionId) then OnSession(s, e) else s, e) else s
  {
    OnSessionEffect(s, e);
  }

  /** A tool part's announcement generates one structured chunk if its payload is new, and stores it either way. */
  lemma ToolEventSays(cfg: Config, s: Run, e: Event, id: string, u: PartUpdate)
    requires Active(s) && Speaks(cfg, Receive(e), id) && e.kind == PartUpdated(u)
    requires u.blockType == Some(TOOL_CALL) && u.delta == "" && u.tool.Some? && GetOr(s.pending, id, []) == []
    requires !Hidden(if u.role.Some? || id !in s.parts then u.role else s.parts[id].role)
    ensures var t := Step(cfg, s, Receive(e));
            var role := if u.role.Some? || id !in s.parts then u.role else s.parts[id].role;
            var messageId := if id in s.parts then Chosen(e.messageId, s.parts[id].messageId) else e.messageId;
            var was, tool := if id in s.parts then s.parts[id].buffer else "", u.tool.value;
            && id in t.parts && t.parts[id].buffer == tool.json && t.parts[id].role == role && t.parts[id].messageId == messageId
            && t.log == s.log + if tool.json == was then []
                                else [Said(id, Chunk(DataPart(tool.json, tool.asciiJson), tool.json, false, was != "", TOOL_CALL,
                                                     FromToolPart, messageId, role)),
                                      Rewrote(id, tool.json)]
  {
    SessionSparesParts(cfg, s, e);
    var p := Upsert(s.parts, id, TOOL_CALL, u.role, e.messageId);
    AnnouncementStores(s.parts, id, TOOL_CALL, u.role, e.messageId);
    ToolGenerates(id, p, u, e.messageId);
    ToolApplied(id, p, u.tool.value, e.messageId);
  }

  /** An announcement sets the part's type, its role if it names one, and its message id if it has one. */
  lemma AnnouncementStores(parts: map<string, Part>, id: string, blockType: BlockType, role: Option<Role>, messageId: Option<string>)
    ensures Upsert(parts, id, blockType, role, messageId)
            == if id !in parts then Part(blockType, messageId, role, "", false)
               else
                 Part(blockType, Chosen(messageId, parts[id].messageId), if role.Some? then role else parts[id].role,
                      parts[id].buffer, parts[id].sawDelta)
  {
  }

  lemma ToolApplied(id: string, p: Part, tool: ToolPayload, messageId: Option<string>)
    requires p.messageId == Chosen(messageId, p.messageId)
    ensures var (q, l) := ApplyTool(id, p, Some(tool), messageId);
            && q == p.(buffer := tool.json)
            && l == if tool.json == p.buffer then []
                    else [Said(id, Chunk(DataPart(tool.json, tool.asciiJson), tool.json, false, p.buffer != "", p.blockType,
                                         FromToolPart, p.messageId, p.role)),
                          Rewrote(id, tool.json)]
  {
  }

  lemma ToolGenerates(id: string, p: Part, u: PartUpdate, messageId: Option<string>)
    requires p.blockType == TOOL_CALL && u.delta == "" && u.tool.Some?
    ensures Generate(id, p, [], u, messageId) == ApplyTool(id, p, u.tool, messageId)
  {
    assert ApplyDeltas(id, p, []) == (p, []);
    var l := ApplyTool(id, p, u.tool, messageId).1;
    assert [] + l == l;
  }

  // ---- The form of what is sent ----

  /** How a chunk reaches the client: structured data as it is where that is allowed, otherwise as its ASCII JSON; with
      the chunk's own message id, stripped, or the request's stable one. */
  predicate Carries(cfg: Config, stable: string, u: Update, c: Chunk) {
    && u.Artifact? && u.blockType == c.blockType && u.role == c.role && u.source == c.source
    && u.part == (if c.part.DataPart? && !cfg.allowStructured then TextPart(c.part.asciiJson) else c.part)
    && u.messageId == if c.messageId.Some? && Strip(c.messageId.value) != "" then Strip(c.messageId.value) else stable
  }

  ghost predicate Carried(cfg: Config, stable: string, queue: seq<Update>, chunks: seq<Chunk>) {
    forall i :: 0 <= i < |queue| && queue[i].Artifact? ==> exists c :: c in chunks && Carries(cfg, stable, queue[i], c)
  }

  lemma EmitCarries(cfg: Config, ch: Channel, c: Chunk, chunks: seq<Chunk>)
    requires Carried(cfg, ch.out.stableMessageId, ch.queue, chunks)
    ensures Carried(cfg, ch.out.stableMessageId, EmitChunk(cfg, ch, c).queue, chunks + [c])
  {
    var queue, all := EmitChunk(cfg, ch, c).queue, chunks + [c];
    assert all[|chunks|] == c;
    forall i | 0 <= i < |queue| && queue[i].Artifact?
      ensures exists d :: d in all && Carries(cfg, ch.out.stableMessageId, queue[i], d)
    {
      if i < |ch.queue| {
        assert queue[i] == ch.queue[i];
        var d :| d in chunks && Carries(cfg, ch.out.stableMessageId, queue[i], d);
        assert d in all;
      } else {
        assert Carries(cfg, ch.out.stableMessageId, queue[i], c);
      }
    }
  }

  lemma {:induction false} EmitAllCarries(cfg: Config, ch: Channel, more: seq<Chunk>, chunks: seq<Chunk>)
    requires Carried(cfg, ch.out.stableMessageId, ch.queue, chunks)
    ensures Carried(cfg, ch.out.stableMessageId, EmitChunks(cfg, ch, more).queue, chunks + more)
    decreases |more|
  {
    if more == [] {
      assert chunks + [] == chunks;
    } else {
      EmitCarries(cfg, ch, more[0], chunks);
      EmitChunksKeepsIdentity(cfg, ch, [more[0]]);
      assert [more[0]][1..] == [] && EmitChunks(cfg, ch, [more[0]]) == EmitChunk(cfg, ch, more[0]);
      EmitAllCarries(cfg, EmitChunk(cfg, ch, more[0]), more[1..], chunks + [more[0]]);
      assert chunks + [more[0]] + more[1..] == chunks + more;
    }
  }

  /** The parts of the tool-call block that are sent, in order. */
  function ToolParts(queue: seq<Update>): seq<Payload> {
    if queue == [] then []
    else
      var u := queue[|queue| - 1];
      ToolParts(queue[..|queue| - 1]) + if u.Artifact? && u.blockType == TOOL_CALL then [u.part] else []
  }

  /** What a tool-call block amounts to: text adds to it, a payload replaces it. */
  function ToolState(cfg: Config, chunks: seq<Chunk>): string {
    if chunks == [] then ""
    else
      var c, was := chunks[|chunks| - 1], ToolState(cfg, chunks[..|chunks| - 1]);
      if c.blockType != TOOL_CALL then was
      else
        match c.part
        case TextPart(text) => was + text
        case DataPart(json, ascii) => if cfg.allowStructured then json else ascii
  }

  /** The generated tool chunks in the form they are sent, less those that repeat what the block already is. */
  function ShownTools(cfg: Config, chunks: seq<Chunk>): seq<Payload> {
    if chunks == [] then []
    else
      var c, before := chunks[|chunks| - 1], chunks[..|chunks| - 1];
      ShownTools(cfg, before)
      + if c.blockType != TOOL_CALL || ToolState(cfg, chunks) == ToolState(cfg, before) then []
        else [if c.part.DataPart? && !cfg.allowStructured then TextPart(c.part.asciiJson) else c.part]
  }

  predicate ToolsShown(cfg: Config, ch: Channel, chunks: seq<Chunk>) {
    ToolParts(ch.queue) == ShownTools(cfg, chunks) && ch.out.Buffer(TOOL_CALL) == ToolState(cfg, chunks)
  }

  lemma EmitShowsTool(cfg: Config, ch: Channel, c: Chunk, chunks: seq<Chunk>)
    requires ToolsShown(cfg, ch, chunks) && Genuine(c)
    ensures ToolsShown(cfg, EmitChunk(cfg, ch, c), chunks + [c])
  {
    var t := EmitChunk(cfg, ch, c);
    assert (chunks + [c])[..|chunks + [c]| - 1] == chunks;
    assert ToolParts(ch.queue) + [] == ToolParts(ch.queue);
    if t.queue != ch.queue {
      assert t.queue[..|t.queue| - 1] == ch.queue;
    }
  }

  lemma {:induction false} EmitShowsTools(cfg: Config, ch: Channel, more: seq<Chunk>, chunks: seq<Chunk>)
    requires ToolsShown(cfg, ch, chunks) && forall c :: c in more ==> Genuine(c)
    ensures ToolsShown(cfg, EmitChunks(cfg, ch, more), chunks + more)
    decreases |more|
  {
    if more == [] {
      assert chunks + [] == chunks;
    } else {
      var first, rest := more[0], more[1..];
      assert chunks + [first] + rest == chunks + more;
      EmitShowsTool(cfg, ch, first, chunks);
      EmitShowsTools(cfg, EmitChunk(cfg, ch, first), rest, chunks + [first]);
    }
  }

  // ---- Over a run ----

  /** Every artifact update carries a generated chunk, and the tool output sent is what the tool chunks amount to. */
  ghost predicate Delivering(cfg: Config, s: Run) {
    Carried(cfg, s.channel.out.stableMessageId, s.channel.queue, Chunks(s.log)) && ToolsShown(cfg, s.channel, Chunks(s.log))
  }

  lemma PublishDelivers(cfg: Config, s: Run, id: string, p: Part, log: seq<Log>)
    requires Delivering(cfg, s) && GenuineLog(log, id)
    ensures Delivering(cfg, Publish(cfg, s, id, p, log))
  {
    GenuineChunks(log, id);
    ChunksConcat(s.log, log);
    EmitAllCarries(cfg, s.channel, Chunks(log), Chunks(s.log));
    EmitShowsTools(cfg, s.channel, Chunks(log), Chunks(s.log));
    EmitChunksKeepsIdentity(cfg, s.channel, Chunks(log));
  }

  /** At most one update was sent, and it is a status. */
  predicate OnlyStatus(a: Channel, b: Channel) {
    && b.out.stableMessageId == a.out.stableMessageId && b.out.buffers == a.out.buffers
    && (b.queue == a.queue || (|b.queue| > 0 && b.queue[..|b.queue| - 1] == a.queue && !b.queue[|b.queue| - 1].Artifact?))
  }

  lemma StatusDelivers(cfg: Config, s: Run, t: Run)
    requires Delivering(cfg, s) && t.log == s.log && OnlyStatus(s.channel, t.channel)
    ensures Delivering(cfg, t)
  {
    assert ToolParts(s.channel.queue) + [] == ToolParts(s.channel.queue);
    forall i | 0 <= i < |t.channel.queue| && t.channel.queue[i].Artifact?
      ensures exists c :: c in Chunks(t.log) && Carries(cfg, t.channel.out.stableMessageId, t.channel.queue[i], c)
    {
      assert i < |s.channel.queue| && t.channel.queue[i] == s.channel.queue[i];
    }
  }

  lemma ObservedIsStatus(ch: Channel, e: Event)
    ensures OnlyStatus(ch, Observed(ch, e))
  {
  }

  lemma AskedIsStatus(s: Run, id: RequestId, kind: InterruptType, details: string)
    ensures OnlyStatus(s.channel, OnAsked(s, id, kind, details).channel) && OnAsked(s, id, kind, details).log == s.log
  {
  }

  lemma ResolvedIsStatus(s: Run, id: RequestId, kind: InterruptType, resolution: string)
    ensures OnlyStatus(s.channel, OnResolved(s, id, kind, resolution).channel) && OnResolved(s, id, kind, resolution).log == s.log
  {
  }

  lemma SessionDelivers(cfg: Config, s: Run, e: Event)
    requires Delivering(cfg, s)
    ensures Delivering(cfg, OnSession(s, e))
  {
    var t := s.(channel := Observed(s.channel, e));
    ObservedIsStatus(s.channel, e);
    StatusDelivers(cfg, s, t);
    match e.kind
    case Asked(id, kind, details) =>
      AskedIsStatus(t, id, kind, details);
      StatusDelivers(cfg, t, OnAsked(t, id, kind, details));
    case Resolved(id, kind, resolution) =>
      ResolvedIsStatus(t, id, kind, resolution);
      StatusDelivers(cfg, t, OnResolved(t, id, kind, resolution));
    case _ =>
  }

  lemma DeltaDelivers(cfg: Config, s: Run, id: string, text: string, messageId: Option<string>)
    requires Delivering(cfg, s)
    ensures Delivering(cfg, OnDelta(cfg, s, id, text, messageId))
  {
    if id in s.parts {
      var (p, log) := ApplyDelta(id, s.parts[id], text, messageId);
      PublishDelivers(cfg, s, id, p, log);
    }
  }

  lemma UpdateDelivers(cfg: Config, s: Run, id: string, u: PartUpdate, messageId: Option<string>)
    requires Delivering(cfg, s)
    ensures Delivering(cfg, OnUpdate(cfg, s, id, u, messageId))
  {
    if u.blockType.Some? {
      var p := Upsert(s.parts, id, u.blockType.value, u.role, messageId);
      var (q, log) := Generate(id, p, GetOr(s.pending, id, []), u, messageId);
      GenerateAccounts(id, p, GetOr(s.pending, id, []), u, messageId);
      PublishDelivers(cfg, s.(pending := s.pending - {id}), id, q, log);
    }
  }

  lemma EventDelivers(cfg: Config, s: Run, e: Event)
    requires Delivering(cfg, s)
    ensures Delivering(cfg, OnEvent(cfg, s, e))
  {
    if e.eventSession == Some(cfg.sessionId) {
      SessionDelivers(cfg, s, e);
    }
    PartDelivers(cfg, if e.eventSession == Some(cfg.sessionId) then OnSession(s, e) else s, e);
  }

  lemma PartDelivers(cfg: Config, s: Run, e: Event)
    requires Delivering(cfg, s)
    ensures Delivering(cfg, OnPart(cfg, s, e))
  {
    if e.streamSession == Some(cfg.sessionId) && HasId(e.partId) {
      match e.kind
      case PartDelta(text) => DeltaDelivers(cfg, s, e.partId.value, text, e.messageId);
      case PartUpdated(u) => UpdateDelivers(cfg, s, e.partId.value, u, e.messageId);
      case _ =>
    }
  }

  lemma {:induction false} ConsumeDelivers(cfg: Config, s: Run, feed: seq<Item>)
    requires Delivering(cfg, s)
    ensures Delivering(cfg, Consume(cfg, s, feed))
    decreases |feed|
  {
    if feed != [] {
      StepDelivers(cfg, s, feed[0]);
      ConsumeDelivers(cfg, Step(cfg, s, feed[0]), feed[1..]);
    }
  }

  lemma StepDelivers(cfg: Config, s: Run, item: Item)
    requires Delivering(cfg, s)
    ensures Delivering(cfg, Step(cfg, s, item))
  {
    if Active(s) && item.Receive? {
      EventDelivers(cfg, s, item.event);
    } else {
      assert Step(cfg, s, item).channel == s.channel && Step(cfg, s, item).log == s.log;
    }
  }

  /** Over every feed: each artifact update carries some generated chunk in the form the client takes it, so a client that
      refuses structured output never gets any; and the tool output sent is all that was generated, less what repeats. */
  lemma ChunksAreDelivered(cfg: Config, s0: Run, feed: seq<Item>, i: nat)
    requires Initial(s0)
    ensures var s := Consume(cfg, s0, feed);
            && ToolParts(s.channel.queue) == ShownTools(cfg, Chunks(s.log))
            && (i < |s.channel.queue| && s.channel.queue[i].Artifact? ==>
                  && (exists c :: c in Chunks(s.log) && Carries(cfg, s0.channel.out.stableMessageId, s.channel.queue[i], c))
                  && (s.channel.queue[i].part.DataPart? ==> cfg.allowStructured))
  {
    ConsumeDelivers(cfg, s0, feed);
    ConsumeKeepsIdentity(cfg, s0, feed);
  }
}

/** What a request tells its client besides text, and how it ends, read off the upstream feed alone. */
module StreamSignals {
  import opened Basics
  import opened StreamState
  import opened StreamModel
  import opened StreamProperties
  import opened StreamTheorems
  import opened StreamCompletion
  import opened TaskStates

  // ---- Readings of the feed ----

  predicate OwnEvent(cfg: Config, item: Item) {
    item.Receive? && item.event.eventSession == Some(cfg.sessionId)
  }

  /** Nothing after the item is looked at: the upstream ended, the request was stopped, or the session is over. */
  predicate Ends(cfg: Config, item: Item) {
    item.EndOfStream? || item.StopRequested? || (OwnEvent(cfg, item) && item.event.kind.SessionEnded?)
  }

  /** The first error that an event of the session reports before the run ends. */
  function FirstError(cfg: Config, feed: seq<Item>): Option<UpstreamError> {
    if feed == [] then None
    else if OwnEvent(cfg, feed[0]) && feed[0].event.upstreamError.Some? then feed[0].event.upstreamError
    else if Ends(cfg, feed[0]) then None
    else FirstError(cfg, feed[1..])
  }

  /** The session's own word that it is over, if it comes before the run ends otherwise. */
  function FirstSignal(cfg: Config, feed: seq<Item>): Option<Signal> {
    if feed == [] then None
    else if OwnEvent(cfg, feed[0]) && feed[0].event.kind.SessionEnded? then Some(feed[0].event.kind.signal)
    else if Ends(cfg, feed[0]) then None
    else FirstSignal(cfg, feed[1..])
  }

  /** A status update, without its number. */
  datatype Told =
    | ToldInterrupt(state: TaskState, requestId: string, interruptType: InterruptType, phase: Phase, detail: string, messageId: string)
    | ToldProgress(key: string, messageId: string)

  /** A session event's progress is told if it differs from the last one of its identity, with the event's own message
      id, stripped, or the request's stable one. */
  function ProgressOf(cfg: Config, stable: string, seen: map<string, string>, item: Item): seq<Told> {
    if OwnEvent(cfg, item) && item.event.progress.Some? && Lookup(seen, item.event.progress.value.identity) != Some(item.event.progress.value.key)
    then
      var own := if item.event.messageId.Some? then Strip(item.event.messageId.value) else "";
      [ToldProgress(item.event.progress.value.key, if own != "" then own else stable)]
    else []
  }

  function SeenAfter(cfg: Config, seen: map<string, string>, item: Item): map<string, string> {
    if OwnEvent(cfg, item) && item.event.progress.Some?
    then seen[item.event.progress.value.identity := item.event.progress.value.key] else seen
  }

  /** An interrupt is told when it opens and when it closes. */
  function InterruptOf(cfg: Config, stable: string, open: set<string>, item: Item): seq<Told> {
    if !OwnEvent(cfg, item) then []
    else
      match item.event.kind
      case Asked(id, kind, details) => if id in open then [] else [ToldInterrupt(InputRequired, id, kind, AskedPhase, details, stable)]
      case Resolved(id, kind, resolution) => if id in open then [ToldInterrupt(Working, id, kind, ResolvedPhase, resolution, stable)] else []
      case _ => []
  }

  function OpenAfter(cfg: Config, open: set<string>, item: Item): set<string> {
    if !OwnEvent(cfg, item) then open
    else
      match item.event.kind
      case Asked(id, _, _) => open + {id}
      case Resolved(id, _, _) => open - {id}
      case _ => open
  }

  /** Every status update that a feed calls for, in order. */
  function Statuses(cfg: Config, stable: string, open: set<string>, seen: map<string, string>, feed: seq<Item>): seq<Told>
    decreases |feed|
  {
    if feed == [] then []
    else
      ProgressOf(cfg, stable, seen, feed[0]) + InterruptOf(cfg, stable, open, feed[0])
      + if Ends(cfg, feed[0]) then [] else Statuses(cfg, stable, OpenAfter(cfg, open, feed[0]), SeenAfter(cfg, seen, feed[0]), feed[1..])
  }

  function ToldOf(queue: seq<Update>): seq<Told> {
    if queue == [] then []
    else
      ToldOf(queue[..|queue| - 1])
      + match queue[|queue| - 1]
        case InterruptStatus(state, id, kind, phase, detail, m, _, _) => [ToldInterrupt(state, id, kind, phase, detail, m)]
        case ProgressStatus(key, m, _, _) => [ToldProgress(key, m)]
        case _ => []
  }

  /** All that the signals of a run depend on. */
  datatype Signals = Signals(stable: string, error: Option<UpstreamError>, terminal: Option<Signal>, stopped: bool, ended: bool,
                             open: set<string>, seen: map<string, string>, registry: set<string>, told: seq<Told>)

  function SignalsOf(s: Run): Signals {
    var out := s.channel.out;
    Signals(out.stableMessageId, out.upstreamError, s.terminal, s.stopped, s.ended, out.pendingInterrupts, out.progress, s.registry, ToldOf(s.channel.queue))
  }

  // ---- Part events leave the signals alone ----

  lemma ToldSnoc(queue: seq<Update>, u: Update)
    ensures ToldOf(queue + [u])
            == ToldOf(queue)
               + match u
                 case InterruptStatus(state, id, kind, phase, detail, m, _, _) => [ToldInterrupt(state, id, kind, phase, detail, m)]
                 case ProgressStatus(key, m, _, _) => [ToldProgress(key, m)]
                 case _ => []
  {
    assert (queue + [u])[..|queue|] == queue;
  }

  predicate SameSignals(a: Channel, b: Channel) {
    && a.out.stableMessageId == b.out.stableMessageId && a.out.upstreamError == b.out.upstreamError
    && a.out.pendingInterrupts == b.out.pendingInterrupts && a.out.progress == b.out.progress && ToldOf(a.queue) == ToldOf(b.queue)
  }

  lemma EmitOneKeepsSignals(cfg: Config, ch: Channel, c: Chunk)
    ensures SameSignals(ch, EmitChunk(cfg, ch, c))
  {
    var t := EmitChunk(cfg, ch, c);
    if t.queue != ch.queue {
      ToldSnoc(ch.queue, t.queue[|ch.queue|]);
      assert ToldOf(ch.queue) + [] == ToldOf(ch.queue);
    }
  }

  lemma {:induction false} EmitKeepsSignals(cfg: Config, ch: Channel, chunks: seq<Chunk>)
    ensures SameSignals(ch, EmitChunks(cfg, ch, chunks))
    decreases |chunks|
  {
    if chunks != [] {
      EmitOneKeepsSignals(cfg, ch, chunks[0]);
      EmitKeepsSignals(cfg, EmitChunk(cfg, ch, chunks[0]), chunks[1..]);
    }
  }

  lemma PublishKeepsSignals(cfg: Config, s: Run, id: string, p: Part, log: seq<Log>)
    ensures SignalsOf(Publish(cfg, s, id, p, log)) == SignalsOf(s)
  {
    EmitKeepsSignals(cfg, s.channel, Chunks(log));
  }

  lemma PartKeepsSignals(cfg: Config, s: Run, e: Event)
    ensures SignalsOf(OnPart(cfg, s, e)) == SignalsOf(s)
  {
    if e.streamSession == Some(cfg.sessionId) && HasId(e.partId) {
      var id := e.partId.value;
      match e.kind
      case PartDelta(text) =>
        if id in s.parts {
          var (p, log) := ApplyDelta(id, s.parts[id], text, e.messageId);
          PublishKeepsSignals(cfg, s, id, p, log);
        }
      case PartUpdated(u) => UpdateKeepsSignals(cfg, s, id, u, e.messageId);
      case _ =>
    }
  }

  lemma UpdateKeepsSignals(cfg: Config, s: Run, id: string, u: PartUpdate, messageId: Option<string>)
    ensures SignalsOf(OnUpdate(cfg, s, id, u, messageId)) == SignalsOf(s)
  {
    if u.blockType.Some? {
      var t := s.(pending := s.pending - {id});
      var p := Upsert(s.parts, id, u.blockType.value, u.role, messageId);
      var (q, log) := Generate(id, p, GetOr(s.pending, id, []), u, messageId);
      PublishKeepsSignals(cfg, t, id, q, log);
    }
  }

  // ---- What one item does to them ----

  /** One item of the feed, from the signals alone. */
  function SignalStep(cfg: Config, g: Signals, item: Item): Signals {
    var own := OwnEvent(cfg, item);
    Signals(
      g.stable,
      if g.error.None? && own then item.event.upstreamError else g.error,
      if g.terminal.None? && own && item.event.kind.SessionEnded? then Some(item.event.kind.signal) else g.terminal,
      g.stopped || item.StopRequested? || (g.terminal.None? && own && item.event.kind.SessionEnded?),
      g.ended || item.EndOfStream?,
      OpenAfter(cfg, g.open, item),
      SeenAfter(cfg, g.seen, item),
      if own && item.event.kind.Resolved? then g.registry - {item.event.kind.resolvedId}
      else if own && item.event.kind.Asked? && item.event.kind.askedId !in g.open then g.registry + {item.event.kind.askedId}
      else g.registry,
      g.told + ProgressOf(cfg, g.stable, g.seen, item) + InterruptOf(cfg, g.stable, g.open, item))
  }

  lemma ObservedSignals(cfg: Config, ch: Channel, e: Event)
    requires e.eventSession == Some(cfg.sessionId)
    ensures var c := Observed(ch, e);
            && c.out.upstreamError == (if ch.out.upstreamError.None? then e.upstreamError else ch.out.upstreamError)
            && c.out.progress == SeenAfter(cfg, ch.out.progress, Receive(e)) && c.out.stableMessageId == ch.out.stableMessageId
            && c.out.pendingInterrupts == ch.out.pendingInterrupts
            && ToldOf(c.queue) == ToldOf(ch.queue) + ProgressOf(cfg, ch.out.stableMessageId, ch.out.progress, Receive(e))
  {
    var c := Observed(ch, e);
    if c.queue != ch.queue {
      ToldSnoc(ch.queue, c.queue[|ch.queue|]);
    }
    assert ToldOf(ch.queue) + [] == ToldOf(ch.queue);
  }

  lemma InterruptTold(ch: Channel, state: TaskState, id: string, kind: InterruptType, phase: Phase, detail: string)
    ensures var c := EmitInterrupt(ch, state, id, kind, phase, detail);
            && ToldOf(c.queue) == ToldOf(ch.queue) + [ToldInterrupt(state, id, kind, phase, detail, ch.out.stableMessageId)]
            && c.out == ch.out.(sequence := c.out.sequence)
  {
    var c := EmitInterrupt(ch, state, id, kind, phase, detail);
    ToldSnoc(ch.queue, c.queue[|ch.queue|]);
  }

  /** The run after an interrupt event, compared to the one before. */
  predicate Interrupted(s: Run, t: Run, open: set<string>, told: seq<Told>) {
    && t.channel.out.upstreamError == s.channel.out.upstreamError && t.channel.out.progress == s.channel.out.progress
    && t.channel.out.pendingInterrupts == open && t.channel.out.stableMessageId == s.channel.out.stableMessageId
    && ToldOf(t.channel.queue) == ToldOf(s.channel.queue) + told
    && t.terminal == s.terminal && t.stopped == s.stopped && t.ended == s.ended
  }

  lemma AskedSignals(s: Run, id: RequestId, kind: InterruptType, details: string)
    ensures var t, open := OnAsked(s, id, kind, details), s.channel.out.pendingInterrupts;
            && Interrupted(s, t, open + {id}, if id in open then [] else [ToldInterrupt(InputRequired, id, kind, AskedPhase, details, s.channel.out.stableMessageId)])
            && t.registry == if id in open then s.registry else s.registry + {id}
  {
    var out := s.channel.out;
    if id in out.pendingInterrupts {
      assert out.pendingInterrupts + {id} == out.pendingInterrupts;
      assert ToldOf(s.channel.queue) + [] == ToldOf(s.channel.queue);
    } else {
      var marked := s.channel.(out := out.(pendingInterrupts := out.pendingInterrupts + {id}));
      InterruptTold(marked, InputRequired, id, kind, AskedPhase, details);
    }
  }

  lemma ResolvedSignals(s: Run, id: RequestId, kind: InterruptType, resolution: string)
    ensures var t, open := OnResolved(s, id, kind, resolution), s.channel.out.pendingInterrupts;
            && Interrupted(s, t, open - {id}, if id in open then [ToldInterrupt(Working, id, kind, ResolvedPhase, resolution, s.channel.out.stableMessageId)] else [])
            && t.registry == s.registry - {id}
  {
    var out := s.channel.out;
    if id !in out.pendingInterrupts {
      assert out.pendingInterrupts - {id} == out.pendingInterrupts;
      assert ToldOf(s.channel.queue) + [] == ToldOf(s.channel.queue);
    } else {
      var cleared := s.channel.(out := out.(pendingInterrupts := out.pendingInterrupts - {id}));
      InterruptTold(cleared, Working, id, kind, ResolvedPhase, resolution);
    }
  }

  lemma AskedStep(cfg: Config, s: Run, e: Event)
    requires e.eventSession == Some(cfg.sessionId) && e.kind.Asked?
    ensures SignalsOf(OnSession(s, e)) == SignalStep(cfg, SignalsOf(s), Receive(e))
  {
    ObservedSignals(cfg, s.channel, e);
    var t := s.(channel := Observed(s.channel, e));
    AskedSignals(t, e.kind.askedId, e.kind.askedType, e.kind.details);
  }

  lemma ResolvedStep(cfg: Config, s: Run, e: Event)
    requires e.eventSession == Some(cfg.sessionId) && e.kind.Resolved?
    ensures SignalsOf(OnSession(s, e)) == SignalStep(cfg, SignalsOf(s), Receive(e))
  {
    ObservedSignals(cfg, s.channel, e);
    var t := s.(channel := Observed(s.channel, e));
    ResolvedSignals(t, e.kind.resolvedId, e.kind.resolvedType, e.kind.resolution);
  }

  lemma NoInterrupt(cfg: Config, stable: string, open: set<string>, e: Event)
    requires !e.kind.Asked? && !e.kind.Resolved?
    ensures InterruptOf(cfg, stable, open, Receive(e)) == [] && OpenAfter(cfg, open, Receive(e)) == open
  {
  }

  lemma QuietStep(cfg: Config, s: Run, e: Event)
    requires e.eventSession == Some(cfg.sessionId) && !e.kind.Asked? && !e.kind.Resolved?
    ensures SignalsOf(OnSession(s, e)) == SignalStep(cfg, SignalsOf(s), Receive(e))
  {
    var out, t := s.channel.out, OnSession(s, e);
    ObservedSignals(cfg, s.channel, e);
    NoInterrupt(cfg, out.stableMessageId, out.pendingInterrupts, e);
    assert t.channel == Observed(s.channel, e) && t.registry == s.registry;
    var told := ToldOf(s.channel.queue) + ProgressOf(cfg, out.stableMessageId, out.progress, Receive(e));
    assert told + [] == told;
  }

  lemma SessionSignals(cfg: Config, s: Run, e: Event)
    requires e.eventSession == Some(cfg.sessionId)
    ensures SignalsOf(OnSession(s, e)) == SignalStep(cfg, SignalsOf(s), Receive(e))
  {
    if e.kind.Asked? {
      AskedStep(cfg, s, e);
    } else if e.kind.Resolved? {
      ResolvedStep(cfg, s, e);
    } else {
      QuietStep(cfg, s, e);
    }
  }

  /** The signals of a run follow their own course: what an item does to them depends on nothing else. */
  lemma StepSignals(cfg: Config, s: Run, item: Item)
    requires Active(s)
    ensures SignalsOf(Step(cfg, s, item)) == SignalStep(cfg, SignalsOf(s), item)
  {
    if item.Receive? {
      var e := item.event;
      if OwnEvent(cfg, item) {
        SessionSignals(cfg, s, e);
        PartKeepsSignals(cfg, OnSession(s, e), e);
      } else {
        PartKeepsSignals(cfg, s, e);
        NothingTold(s);
      }
    } else {
      NothingTold(s);
    }
  }

  lemma NothingTold(s: Run)
    ensures ToldOf(s.channel.queue) + [] + [] == ToldOf(s.channel.queue)
  {
  }

  // ---- Over a feed ----

  /** The recorded error is the first that the session reported, and the terminal signal the session's first. */
  lemma {:induction false} FirstOnesCount(cfg: Config, s: Run, feed: seq<Item>)
    requires Active(s) && s.terminal.None?
    ensures var t, was := Consume(cfg, s, feed), s.channel.out.upstreamError;
            && t.terminal == FirstSignal(cfg, feed)
            && t.channel.out.upstreamError == if was.Some? then was else FirstError(cfg, feed)
    decreases |feed|
  {
    if feed != [] {
      var t := Step(cfg, s, feed[0]);
      StepSignals(cfg, s, feed[0]);
      if Active(t) {
        FirstOnesCount(cfg, t, feed[1..]);
      } else {
        StoppedStays(cfg, t, feed[1..]);
      }
    }
  }

  /** A client is told exactly the interrupts that open and close and the progress that changes, each with its details,
      in the order of the feed. */
  lemma {:induction false} StatusesAreTold(cfg: Config, s: Run, feed: seq<Item>)
    requires Active(s) && s.terminal.None?
    ensures var out := s.channel.out;
            ToldOf(Consume(cfg, s, feed).channel.queue)
            == ToldOf(s.channel.queue) + Statuses(cfg, out.stableMessageId, out.pendingInterrupts, out.progress, feed)
    decreases |feed|
  {
    var told, out := ToldOf(s.channel.queue), s.channel.out;
    if feed == [] {
      assert told + [] == told;
    } else {
      var t := Step(cfg, s, feed[0]);
      StepSignals(cfg, s, feed[0]);
      var now := ProgressOf(cfg, out.stableMessageId, out.progress, feed[0])
                 + InterruptOf(cfg, out.stableMessageId, out.pendingInterrupts, feed[0]);
      assert ToldOf(t.channel.queue) == told + now;
      if Active(t) {
        StatusesAreTold(cfg, t, feed[1..]);
        assert !Ends(cfg, feed[0]);
        JoinTold(told, now, Statuses(cfg, out.stableMessageId, t.channel.out.pendingInterrupts, t.channel.out.progress, feed[1..]));
      } else {
        StoppedStays(cfg, t, feed[1..]);
        assert Ends(cfg, feed[0]) && now + [] == now;
      }
    }
  }

  lemma JoinTold(a: seq<Told>, b: seq<Told>, c: seq<Told>)
    ensures (a + b) + c == a + (b + c)
  {
  }

  /** The registry holds what it held and every request asked for since, less those that were resolved. */
  lemma {:induction false} RegistryFollows(cfg: Config, s: Run, feed: seq<Item>)
    requires Active(s) && s.terminal.None? && s.channel.out.pendingInterrupts <= s.registry
    ensures Consume(cfg, s, feed).registry == OpenRequests(cfg.sessionId, s.registry, feed)
    decreases |feed|
  {
    if feed != [] {
      var t := Step(cfg, s, feed[0]);
      RegistryStep(cfg, s, feed[0]);
      if Active(t) {
        RegistryFollows(cfg, t, feed[1..]);
      } else {
        StoppedStays(cfg, t, feed[1..]);
      }
    }
  }

  lemma RegistryStep(cfg: Config, s: Run, item: Item)
    requires Active(s) && s.terminal.None? && s.channel.out.pendingInterrupts <= s.registry
    ensures var t := Step(cfg, s, item);
            && t.registry == OpenAfter(cfg, s.registry, item)
            && t.channel.out.pendingInterrupts <= t.registry
            && (Active(t) <==> !Ends(cfg, item)) && (Active(t) ==> t.terminal.None?)
  {
    StepSignals(cfg, s, item);
    if OwnEvent(cfg, item) && item.event.kind.Asked? {
      assert Step(cfg, s, item).registry == s.registry + {item.event.kind.askedId};
    }
  }

  // ---- How a request ends ----

  /** The state a request closes in: failed if the session never said it was over, the state it said, or, if it said
      "completed" after an error, the state of the first error. */
  function ClosingState(cfg: Config, feed: seq<Item>): TaskState {
    var signal, error := FirstSignal(cfg, feed), FirstError(cfg, feed);
    if signal.None? then TaskState.Failed
    else if signal.value.state != Completed then signal.value.state
    else if error.Some? then error.value.state
    else Completed
  }

  /** A request closes once, in the state that the feed alone decides: it completes exactly if the session said so and
      reported no error before; and then its closing status carries the status id, otherwise the cause stands before it. */
  lemma RequestCloses(cfg: Config, s0: Run, feed: seq<Item>, responseText: string, messageId: Option<string>)
    requires Initial(s0)
    ensures var s := Consume(cfg, s0, feed);
            var queue := Finish(cfg, s, responseText, messageId).queue;
            var signal, error, n := FirstSignal(cfg, feed), FirstError(cfg, feed), |queue|;
            && n > |s.channel.queue| && queue[n - 1].FinalStatus? && queue[n - 1].state == ClosingState(cfg, feed)
            && (queue[n - 1].statusId.Some? <==> signal.Some? && signal.value.state == Completed && error.None?)
            && (queue[n - 1].statusId.None? ==>
                  && n == |s.channel.queue| + 2
                  && queue[n - 2] == ErrorArtifact(if signal.None? then EndedBeforeTerminal(cfg.sessionId)
                                                   else if signal.value.state != Completed then UpstreamSaid(signal.value.message)
                                                   else UpstreamSaid(error.value.message)))
  {
    FirstOnesCount(cfg, s0, feed);
  }
}

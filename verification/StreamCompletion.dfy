/** How the coordinator ends a streaming request: error, or at most one final snapshot and the completed status. */
module StreamCompletion {
  import opened Basics
  import opened StreamState
  import opened StreamModel
  import opened StreamProperties
  import opened StreamTheorems
  import opened StreamConsumer
  import opened TaskStates

  /** Emit an error in place of a result. It goes to its own artifact, never to the stream artifact. */
  function Failed(ch: Channel, cause: FailureCause, state: TaskState): Channel {
    ch.(queue := ch.queue + [ErrorArtifact(cause), FinalStatus(state, None)])
  }

  /** The coordinator's answer once the upstream has answered and the consumer has stopped. */
  function Finish(cfg: Config, s: Run, responseText: string, messageId: Option<string>): Channel {
    var ch := s.channel;
    if s.terminal.None? then Failed(ch, EndedBeforeTerminal(cfg.sessionId), TaskState.Failed)
    else if s.terminal.value.state != Completed then Failed(ch, UpstreamSaid(s.terminal.value.message), s.terminal.value.state)
    else if ch.out.upstreamError.Some? then Failed(ch, UpstreamSaid(ch.out.upstreamError.value.message), ch.out.upstreamError.value.state)
    else
      var done := if ch.out.NeedsFinalSnapshot(responseText) then Snapshot(ch, responseText, messageId) else ch;
      done.(queue := done.queue + [FinalStatus(Completed, Some(done.out.namespace + ":status"))])
  }

  function Snapshot(ch: Channel, responseText: string, messageId: Option<string>): Channel {
    var n := ch.out.sequence + 1;
    Channel(
      ch.out.(buffers := ch.out.buffers[TEXT := responseText], sawAnyChunk := true, sequence := n),
      ch.queue + [Artifact(TextPart(responseText), ch.out.emittedStreamChunk, true, TEXT, FromFinalSnapshot,
                           ch.out.MessageId(messageId), None, ch.out.EventId(n), n)])
  }

  method HandleStreamingResponse(runtime: StreamRuntime, responseText: string, messageId: Option<string>)
    requires runtime.Valid()
    modifies runtime`queue, runtime.out
    ensures runtime.Client() == Finish(runtime.cfg, old(runtime.View()), responseText, messageId)
  {
    if runtime.terminal.None? {
      runtime.queue := runtime.queue
        + [ErrorArtifact(EndedBeforeTerminal(runtime.cfg.sessionId)), FinalStatus(TaskState.Failed, None)];
      return;
    }
    var signal := runtime.terminal.value;
    if signal.state != Completed {
      runtime.queue := runtime.queue + [ErrorArtifact(UpstreamSaid(signal.message)), FinalStatus(signal.state, None)];
      return;
    }
    if runtime.out.upstreamError.Some? {
      var error := runtime.out.upstreamError.value;
      runtime.queue := runtime.queue + [ErrorArtifact(UpstreamSaid(error.message)), FinalStatus(error.state, None)];
      return;
    }
    var append, id := runtime.out.emittedStreamChunk, runtime.out.View().MessageId(messageId);
    var emit := runtime.out.ShouldEmitFinalSnapshot(responseText);
    if emit {
      var n := runtime.out.NextSequence();
      runtime.queue := runtime.queue
        + [Artifact(TextPart(responseText), append, true, TEXT, FromFinalSnapshot, id, None, runtime.out.View().EventId(n), n)];
    }
    runtime.queue := runtime.queue + [FinalStatus(Completed, Some(runtime.out.namespace + ":status"))];
  }

  /** A request that completes with non-blank text has either streamed exactly that text, up to surrounding whitespace,
      and adds no artifact update, or its last artifact update is one final snapshot carrying the whole response. The
      snapshot appends exactly when something was streamed before it, and the numbering continues through it. */
  lemma CompletedRunDelivers(cfg: Config, s0: Run, feed: seq<Item>, responseText: string, messageId: Option<string>)
    requires Initial(s0)
    requires var s := Consume(cfg, s0, feed);
             s.terminal.Some? && s.terminal.value.state == Completed && s.channel.out.upstreamError.None?
    ensures var s := Consume(cfg, s0, feed);
            var streamed, done := Artifacts(s.channel.queue), Artifacts(Finish(cfg, s, responseText, messageId).queue);
            if Strip(responseText) == "" || Strip(TextOf(s.channel.queue, TEXT)) == Strip(responseText) then done == streamed
            else
              && |done| == |streamed| + 1 && done[..|streamed|] == streamed
              && var last := done[|streamed|];
                 && last.Artifact? && last.part == TextPart(responseText) && last.source == FromFinalSnapshot
                 && last.append == (streamed != []) && last.lastChunk && last.sequence == |s.channel.queue| + 1
  {
    var s := Consume(cfg, s0, feed);
    StreamedText(cfg, s0, feed, TEXT);
    FreshInv(cfg, s0, feed);
    assert Holds(Opening, s.channel, Chunks(s.log)) && Holds(Numbering, s.channel, Chunks(s.log));
    CompletionDelivers(cfg, s, responseText, messageId);
  }

  lemma CompletionDelivers(cfg: Config, s: Run, responseText: string, messageId: Option<string>)
    requires s.terminal.Some? && s.terminal.value.state == Completed && s.channel.out.upstreamError.None?
    requires s.channel.out.sequence == |s.channel.queue|
    requires s.channel.out.emittedStreamChunk == (Artifacts(s.channel.queue) != [])
    ensures var streamed, done := Artifacts(s.channel.queue), Artifacts(Finish(cfg, s, responseText, messageId).queue);
            if Strip(responseText) == "" || Strip(s.channel.out.Buffer(TEXT)) == Strip(responseText) then done == streamed
            else
              && |done| == |streamed| + 1 && done[..|streamed|] == streamed
              && var last := done[|streamed|];
                 && last.Artifact? && last.part == TextPart(responseText) && last.source == FromFinalSnapshot
                 && last.append == (streamed != []) && last.lastChunk && last.sequence == |s.channel.queue| + 1
  {
    var ch := s.channel;
    var done := if ch.out.NeedsFinalSnapshot(responseText) then Snapshot(ch, responseText, messageId) else ch;
    StatusAddsNoArtifact(done, FinalStatus(Completed, Some(done.out.namespace + ":status")));
    if ch.out.NeedsFinalSnapshot(responseText) {
      SnapshotIsLast(ch, responseText, messageId);
    }
  }

  lemma StatusAddsNoArtifact(ch: Channel, status: Update)
    requires status.FinalStatus?
    ensures Artifacts(ch.queue + [status]) == Artifacts(ch.queue)
  {
    Snoc(ch.queue, status);
  }

  lemma SnapshotIsLast(ch: Channel, responseText: string, messageId: Option<string>)
    ensures var n := ch.out.sequence + 1;
            Artifacts(Snapshot(ch, responseText, messageId).queue)
            == Artifacts(ch.queue) + [Artifact(TextPart(responseText), ch.out.emittedStreamChunk, true, TEXT, FromFinalSnapshot,
                                               ch.out.MessageId(messageId), None, ch.out.EventId(n), n)]
  {
    var n := ch.out.sequence + 1;
    Snoc(ch.queue, Artifact(TextPart(responseText), ch.out.emittedStreamChunk, true, TEXT, FromFinalSnapshot,
                            ch.out.MessageId(messageId), None, ch.out.EventId(n), n));
  }

  /** A request that does not complete never adds to the stream artifact, and says why in its final status. */
  lemma FailedRunAddsNoText(cfg: Config, s: Run, responseText: string, messageId: Option<string>)
    requires s.terminal.None? || s.terminal.value.state != Completed || s.channel.out.upstreamError.Some?
    ensures var queue := Finish(cfg, s, responseText, messageId).queue;
            && Artifacts(queue) == Artifacts(s.channel.queue)
            && queue != [] && queue[|queue| - 1].FinalStatus?
            && queue[|queue| - 1].state == (if s.terminal.None? then TaskState.Failed
                                            else if s.terminal.value.state != Completed then s.terminal.value.state
                                            else s.channel.out.upstreamError.value.state)
  {
    var queue := Finish(cfg, s, responseText, messageId).queue;
    var n := |s.channel.queue|;
    FailureAddsNoText(s.channel, queue[n].cause, queue[n + 1].state);
  }

  lemma FailureAddsNoText(ch: Channel, cause: FailureCause, state: TaskState)
    ensures Artifacts(Failed(ch, cause, state).queue) == Artifacts(ch.queue)
  {
    Snoc(ch.queue, ErrorArtifact(cause));
    Snoc(ch.queue + [ErrorArtifact(cause)], FinalStatus(state, None));
    assert ch.queue + [ErrorArtifact(cause)] + [FinalStatus(state, None)] == Failed(ch, cause, state).queue;
  }

  /** With the final snapshot and the closing status included, event ids of a completed request are still distinct. */
  lemma FinalIdsAreNew(cfg: Config, s0: Run, feed: seq<Item>, responseText: string, messageId: Option<string>)
    requires Initial(s0)
    ensures var s := Consume(cfg, s0, feed);
            var queue := Finish(cfg, s, responseText, messageId).queue;
            forall i, j :: 0 <= i < j < |queue| && UpdateId(queue[i]).Some? ==> UpdateId(queue[i]) != UpdateId(queue[j])
  {
    var s := Consume(cfg, s0, feed);
    FreshInv(cfg, s0, feed);
    assert Holds(Numbering, s.channel, Chunks(s.log));
    FinishTail(cfg, s, responseText, messageId);
    NumberedIdsAreDistinct(s.channel, Finish(cfg, s, responseText, messageId).queue);
  }

  lemma FinishTail(cfg: Config, s: Run, responseText: string, messageId: Option<string>)
    requires s.channel.out.sequence == |s.channel.queue|
    ensures var ch, queue := s.channel, Finish(cfg, s, responseText, messageId).queue;
            && ch.queue <= queue
            && forall i :: |ch.queue| <= i < |queue| ==> ClosesStream(ch, queue, i)
  {
    var ch, queue := s.channel, Finish(cfg, s, responseText, messageId).queue;
    var n := |ch.queue|;
    forall i | n <= i < |queue|
      ensures ClosesStream(ch, queue, i)
    {
      assert i == n || i == n + 1;
      assert i == n || queue[i].FinalStatus?;
    }
  }

  predicate ClosesStream(ch: Channel, queue: seq<Update>, i: nat)
    requires i < |queue|
  {
    || UpdateId(queue[i]).None?
    || UpdateId(queue[i]) == Some(ch.out.EventId(i + 1))
    || (i == |queue| - 1 && UpdateId(queue[i]) == Some(ch.out.namespace + ":status"))
  }

  lemma NumberedIdsAreDistinct(ch: Channel, queue: seq<Update>)
    requires Numbered(ch) && ch.queue <= queue
    requires forall i :: |ch.queue| <= i < |queue| ==> ClosesStream(ch, queue, i)
    ensures forall i, j :: 0 <= i < j < |queue| && UpdateId(queue[i]).Some? ==> UpdateId(queue[i]) != UpdateId(queue[j])
  {
    forall i, j | 0 <= i < j < |queue| && UpdateId(queue[i]).Some?
      ensures UpdateId(queue[i]) != UpdateId(queue[j])
    {
      assert if i < |ch.queue| then Numbers(ch, i) && queue[i] == ch.queue[i] else ClosesStream(ch, queue, i);
      assert if j < |ch.queue| then Numbers(ch, j) && queue[j] == ch.queue[j] else ClosesStream(ch, queue, j);
      EventIdsDiffer(ch.out, i + 1, j + 1);
      assert UpdateId(queue[i]) == Some(ch.out.EventId(i + 1));
    }
  }

  function UpdateId(u: Update): Option<string> {
    match u
    case ErrorArtifact(_) => None
    case FinalStatus(_, id) => id
    case _ => Some(u.eventId)
  }
}

/** Each upstream part is processed on its own: what the rest of the feed does in between makes no difference to it. */
module StreamOrder {
  import opened Basics
  import opened StreamState
  import opened StreamModel
  import opened StreamProperties
  import opened StreamTheorems

  /** All that a run remembers about one part: its state, the deltas that wait for it, and what was generated for it. */
  datatype PartView = PartView(part: Option<Part>, waiting: Option<seq<PendingDelta>>, said: seq<Log>)

  function LogOf(log: seq<Log>, id: string): seq<Log> {
    if log == [] then [] else (if log[0].partId == id then [log[0]] else []) + LogOf(log[1..], id)
  }

  function ViewOf(s: Run, id: string): PartView {
    PartView(Lookup(s.parts, id), Lookup(s.pending, id), LogOf(s.log, id))
  }

  predicate Addresses(cfg: Config, item: Item, id: string) {
    && item.Receive? && item.event.streamSession == Some(cfg.sessionId) && id != "" && item.event.partId == Some(id)
    && (item.event.kind.PartUpdated? || (item.event.kind.PartDelta? && item.event.kind.text != ""))
  }

  function Waited(v: PartView): seq<PendingDelta> { if v.waiting.Some? then v.waiting.value else [] }

  /** The part as its announcement leaves it. */
  function Announced(part: Option<Part>, u: PartUpdate, messageId: Option<string>): Part
    requires u.blockType.Some?
  {
    Upsert(if part.Some? then map["" := part.value] else map[], "", u.blockType.value, u.role, messageId)
  }

  /** What an item does to one part, from that part's own view. */
  function PartStep(cfg: Config, v: PartView, item: Item, id: string): PartView {
    if !Addresses(cfg, item, id) then v
    else if item.event.kind.PartDelta? then TakeDelta(v, id, item.event.kind.text, item.event.messageId)
    else TakeUpdate(v, id, item.event.kind.update, item.event.messageId)
  }

  function TakeDelta(v: PartView, id: string, delta: string, messageId: Option<string>): PartView {
    if v.part.None? then v.(waiting := Some(Waited(v) + [PendingDelta(delta, messageId)]))
    else if Muted(v.part.value) then v
    else
      var (p, l) := ApplyDelta(id, v.part.value, delta, messageId);
      v.(part := Some(p), said := v.said + l)
  }

  function TakeUpdate(v: PartView, id: string, u: PartUpdate, messageId: Option<string>): PartView {
    if u.blockType.None? then v.(waiting := None)
    else TakeAnnounced(v.said, id, Announced(v.part, u, messageId), Waited(v), u, messageId)
  }

  function TakeAnnounced(said: seq<Log>, id: string, p: Part, waiting: seq<PendingDelta>, u: PartUpdate,
                         messageId: Option<string>): PartView {
    if Muted(p) then PartView(Some(p), None, said)
    else
      var (q, l) := Generate(id, p, waiting, u, messageId);
      PartView(Some(q), None, said + l)
  }

  function PartRun(cfg: Config, v: PartView, feed: seq<Item>, id: string): PartView
    decreases |feed|
  {
    if feed == [] then v else PartRun(cfg, PartStep(cfg, v, feed[0], id), feed[1..], id)
  }

  // ---- The consumer, seen from one part ----

  lemma {:induction false} LogOfConcat(a: seq<Log>, b: seq<Log>, id: string)
    ensures LogOf(a + b, id) == LogOf(a, id) + LogOf(b, id)
  {
    if a == [] {
      assert a + b == b;
    } else {
      assert (a + b)[1..] == a[1..] + b;
      LogOfConcat(a[1..], b, id);
      JoinLogs(if a[0].partId == id then [a[0]] else [], LogOf(a[1..], id), LogOf(b, id));
    }
  }

  lemma JoinLogs(a: seq<Log>, b: seq<Log>, c: seq<Log>)
    ensures (a + b) + c == a + (b + c)
  {
  }

  lemma {:induction false} LogOfOne(log: seq<Log>, id: string, x: string)
    requires forall l :: l in log ==> l.partId == id
    ensures LogOf(log, x) == if x == id then log else []
  {
    if log != [] {
      assert log == [log[0]] + log[1..];
      LogOfOne(log[1..], id, x);
    }
  }

  /** Publishing for one part is seen by that part alone. */
  lemma PublishView(cfg: Config, s: Run, id: string, p: Part, log: seq<Log>, x: string)
    requires forall l :: l in log ==> l.partId == id
    ensures ViewOf(Publish(cfg, s, id, p, log), x)
            == if x == id then PartView(Some(p), Lookup(s.pending, id), LogOf(s.log, id) + log) else ViewOf(s, x)
  {
    LogOfConcat(s.log, log, x);
    LogOfOne(log, id, x);
    assert LogOf(s.log, x) + [] == LogOf(s.log, x);
  }

  lemma DeltaView(cfg: Config, s: Run, id: string, delta: string, messageId: Option<string>, x: string)
    requires delta != ""
    ensures ViewOf(OnDelta(cfg, s, id, delta, messageId), x)
            == if x == id then TakeDelta(ViewOf(s, id), id, delta, messageId) else ViewOf(s, x)
  {
    if id in s.parts && !Muted(s.parts[id]) {
      var (p, l) := ApplyDelta(id, s.parts[id], delta, messageId);
      PublishView(cfg, s, id, p, l, x);
    }
  }

  lemma AnnouncedView(cfg: Config, s: Run, id: string, p: Part, waiting: seq<PendingDelta>, u: PartUpdate,
                      messageId: Option<string>, x: string)
    requires id !in s.pending
    ensures ViewOf(OnAnnounced(cfg, s, id, p, waiting, u, messageId), x)
            == if x == id then TakeAnnounced(LogOf(s.log, id), id, p, waiting, u, messageId) else ViewOf(s, x)
  {
    if !Muted(p) {
      var (q, l) := Generate(id, p, waiting, u, messageId);
      GenerateAccounts(id, p, waiting, u, messageId);
      PublishView(cfg, s, id, q, l, x);
    }
  }

  lemma UpdateView(cfg: Config, s: Run, id: string, u: PartUpdate, messageId: Option<string>, x: string)
    ensures ViewOf(OnUpdate(cfg, s, id, u, messageId), x)
            == if x == id then TakeUpdate(ViewOf(s, id), id, u, messageId) else ViewOf(s, x)
  {
    if u.blockType.Some? {
      var p := Upsert(s.parts, id, u.blockType.value, u.role, messageId);
      assert p == Announced(Lookup(s.parts, id), u, messageId);
      AnnouncedView(cfg, s.(pending := s.pending - {id}), id, p, GetOr(s.pending, id, []), u, messageId, x);
    }
  }

  /** One item acts on each part as if that part were alone. */
  lemma StepView(cfg: Config, s: Run, item: Item, x: string)
    requires Active(s)
    ensures ViewOf(Step(cfg, s, item), x) == PartStep(cfg, ViewOf(s, x), item, x)
  {
    if item.Receive? {
      var e := item.event;
      var t := if e.eventSession == Some(cfg.sessionId) then OnSession(s, e) else s;
      OnSessionEffect(s, e);
      assert ViewOf(t, x) == ViewOf(s, x);
      if e.streamSession == Some(cfg.sessionId) && HasId(e.partId) {
        if e.kind.PartDelta? && e.kind.text != "" {
          DeltaView(cfg, t, e.partId.value, e.kind.text, e.messageId, x);
        } else if e.kind.PartUpdated? {
          UpdateView(cfg, t, e.partId.value, e.kind.update, e.messageId, x);
        }
      }
    }
  }

  /** A feed that is consumed to its end acts on each part as if that part were alone. */
  lemma {:induction false} ConsumeView(cfg: Config, s: Run, feed: seq<Item>, x: string)
    requires Active(Consume(cfg, s, feed))
    ensures Active(s) && ViewOf(Consume(cfg, s, feed), x) == PartRun(cfg, ViewOf(s, x), feed, x)
    decreases |feed|
  {
    if !Active(s) {
      StoppedStays(cfg, s, feed);
    } else if feed != [] {
      ConsumeView(cfg, Step(cfg, s, feed[0]), feed[1..], x);
      StepView(cfg, s, feed[0], x);
    }
  }

  // ---- Whether a run goes on does not depend on its parts ----

  predicate SameLife(a: Run, b: Run) { a.terminal == b.terminal && a.stopped == b.stopped && a.ended == b.ended }

  lemma StepLife(cfg: Config, a: Run, b: Run, item: Item)
    requires SameLife(a, b)
    ensures SameLife(Step(cfg, a, item), Step(cfg, b, item))
  {
    if Active(a) && item.Receive? {
      EventLife(cfg, a, item.event);
      EventLife(cfg, b, item.event);
    }
  }

  lemma EventLife(cfg: Config, s: Run, e: Event)
    ensures var t, ends := OnEvent(cfg, s, e), e.eventSession == Some(cfg.sessionId) && e.kind.SessionEnded? && s.terminal.None?;
            && t.terminal == (if ends then Some(e.kind.signal) else s.terminal)
            && t.stopped == (s.stopped || ends) && t.ended == s.ended
  {
    OnSessionEffect(s, e);
    OnPartOnlyParts(cfg, if e.eventSession == Some(cfg.sessionId) then OnSession(s, e) else s, e);
  }

  lemma {:induction false} ConsumeLife(cfg: Config, a: Run, b: Run, feed: seq<Item>)
    requires SameLife(a, b)
    ensures SameLife(Consume(cfg, a, feed), Consume(cfg, b, feed))
    decreases |feed|
  {
    if feed != [] {
      StepLife(cfg, a, b, feed[0]);
      ConsumeLife(cfg, Step(cfg, a, feed[0]), Step(cfg, b, feed[0]), feed[1..]);
    }
  }

  // ---- Early deltas ----

  /** The deltas of one part in a feed, in order. */
  function DeltasOf(cfg: Config, feed: seq<Item>, id: string): seq<PendingDelta> {
    if feed == [] then []
    else
      (if Addresses(cfg, feed[0], id) && feed[0].event.kind.PartDelta?
       then [PendingDelta(feed[0].event.kind.text, feed[0].event.messageId)] else [])
      + DeltasOf(cfg, feed[1..], id)
  }

  predicate NoUpdateOf(cfg: Config, feed: seq<Item>, id: string) {
    forall i :: 0 <= i < |feed| && Addresses(cfg, feed[i], id) ==> feed[i].event.kind.PartDelta?
  }

  lemma {:induction false} UnknownCollects(cfg: Config, v: PartView, feed: seq<Item>, id: string)
    requires v.part.None? && NoUpdateOf(cfg, feed, id)
    ensures var w := PartRun(cfg, v, feed, id);
            && w.part.None? && w.said == v.said && Waited(w) == Waited(v) + DeltasOf(cfg, feed, id)
    decreases |feed|
  {
    if feed == [] {
      assert Waited(v) + [] == Waited(v);
    } else {
      var rest := feed[1..];
      assert NoUpdateOf(cfg, rest, id) by {
        assert forall i :: 0 <= i < |rest| ==> rest[i] == feed[i + 1];
      }
      var w := PartStep(cfg, v, feed[0], id);
      UnknownCollects(cfg, w, rest, id);
      var first := if w == v then [] else [PendingDelta(feed[0].event.kind.text, feed[0].event.messageId)];
      assert Waited(w) == Waited(v) + first by {
        assert Waited(v) + [] == Waited(v);
      }
      assert (Waited(v) + first) + DeltasOf(cfg, rest, id) == Waited(v) + (first + DeltasOf(cfg, rest, id));
    }
  }

  lemma {:induction false} MutedIgnores(cfg: Config, v: PartView, feed: seq<Item>, id: string)
    requires v.part.Some? && Muted(v.part.value) && NoUpdateOf(cfg, feed, id)
    ensures PartRun(cfg, v, feed, id) == v
    decreases |feed|
  {
    if feed != [] {
      assert NoUpdateOf(cfg, feed[1..], id) by {
        assert forall i :: 0 <= i < |feed[1..]| ==> feed[1..][i] == feed[i + 1];
      }
      MutedIgnores(cfg, v, feed[1..], id);
    }
  }

  lemma {:induction false} KnownSpeaks(cfg: Config, v: PartView, feed: seq<Item>, id: string)
    requires v.part.Some? && !Muted(v.part.value) && NoUpdateOf(cfg, feed, id)
    ensures var (q, l) := ApplyDeltas(id, v.part.value, DeltasOf(cfg, feed, id));
            PartRun(cfg, v, feed, id) == PartView(Some(q), v.waiting, v.said + l)
    decreases |feed|
  {
    if feed == [] {
      assert v.said + [] == v.said;
    } else {
      var rest := feed[1..];
      assert NoUpdateOf(cfg, rest, id) by {
        assert forall i :: 0 <= i < |rest| ==> rest[i] == feed[i + 1];
      }
      var w := PartStep(cfg, v, feed[0], id);
      KnownSpeaks(cfg, w, rest, id);
      if Addresses(cfg, feed[0], id) {
        SpeakOne(cfg, v, feed, id);
      } else {
        assert DeltasOf(cfg, feed, id) == DeltasOf(cfg, rest, id);
      }
    }
  }

  lemma SpeakOne(cfg: Config, v: PartView, feed: seq<Item>, id: string)
    requires v.part.Some? && !Muted(v.part.value) && feed != [] && Addresses(cfg, feed[0], id) && feed[0].event.kind.PartDelta?
    ensures var w, d := PartStep(cfg, v, feed[0], id), PendingDelta(feed[0].event.kind.text, feed[0].event.messageId);
            var (p, l) := ApplyDelta(id, v.part.value, d.delta, d.messageId);
            var (q, m) := ApplyDeltas(id, p, DeltasOf(cfg, feed[1..], id));
            && w == v.(part := Some(p), said := v.said + l) && w.part.Some? && !Muted(p)
            && ApplyDeltas(id, v.part.value, DeltasOf(cfg, feed, id)) == (q, l + m)
            && v.said + l + m == v.said + (l + m)
  {
    var d := PendingDelta(feed[0].event.kind.text, feed[0].event.messageId);
    assert DeltasOf(cfg, feed, id) == [d] + DeltasOf(cfg, feed[1..], id);
    ApplyFirst(id, v.part.value, d, DeltasOf(cfg, feed[1..], id));
    var (p, l) := ApplyDelta(id, v.part.value, d.delta, d.messageId);
    JoinLogs(v.said, l, ApplyDeltas(id, p, DeltasOf(cfg, feed[1..], id)).1);
  }

  lemma ApplyFirst(id: string, p: Part, d: PendingDelta, ds: seq<PendingDelta>)
    ensures var (q, l) := ApplyDelta(id, p, d.delta, d.messageId);
            var (r, m) := ApplyDeltas(id, q, ds);
            ApplyDeltas(id, p, [d] + ds) == (r, l + m)
  {
    assert ([d] + ds)[1..] == ds;
  }

  lemma AnnouncementCommutes(cfg: Config, v: PartView, feed: seq<Item>, id: string, u: PartUpdate, messageId: Option<string>)
    requires v.part.None? && NoUpdateOf(cfg, feed, id) && TextFree(u) && u.blockType.Some?
    ensures TakeUpdate(PartRun(cfg, v, feed, id), id, u, messageId) == PartRun(cfg, TakeUpdate(v, id, u, messageId), feed, id)
  {
    UnknownCollects(cfg, v, feed, id);
    var early := TakeUpdate(v, id, u, messageId);
    if Muted(Announced(None, u, messageId)) {
      MutedIgnores(cfg, early, feed, id);
    } else {
      FlushThenSpeak(id, Announced(None, u, messageId), Waited(v), DeltasOf(cfg, feed, id), u, messageId, v.said);
      KnownSpeaks(cfg, early, feed, id);
    }
  }

  /** Taking the waiting deltas at the announcement and the rest one by one is taking all of them at the announcement. */
  lemma FlushThenSpeak(id: string, p: Part, waiting: seq<PendingDelta>, ds: seq<PendingDelta>, u: PartUpdate,
                       messageId: Option<string>, said: seq<Log>)
    requires TextFree(u) && !Muted(p)
    ensures var (q, l) := Generate(id, p, waiting, u, messageId);
            var (r, m) := ApplyDeltas(id, q, ds);
            && !Muted(q)
            && Generate(id, p, waiting + ds, u, messageId) == (r, l + m)
            && (said + l) + m == said + (l + m)
  {
    TextFreeGenerates(id, p, waiting, u, messageId);
    TextFreeGenerates(id, p, waiting + ds, u, messageId);
    ApplyDeltasConcat(id, p, waiting, ds);
    DeltasKeepIdentity(id, p, waiting);
    var (q, l) := ApplyDeltas(id, p, waiting);
    JoinLogs(said, l, ApplyDeltas(id, q, ds).1);
  }

  /** The event announces the part with no text of its own. */
  predicate Announces(cfg: Config, e: Event, id: string) {
    Addresses(cfg, Receive(e), id) && e.kind.PartUpdated? && TextFree(e.kind.update)
  }

  /** Whatever else the feed brings in between (other parts, session events, reconnects), it makes no difference to any
      part whether an unknown part is announced before or after the deltas that came for it: every part ends in the
      same state, with the same deltas waiting and the same chunks generated in the same order. */
  lemma EarlyDeltasCommuteInFeeds(cfg: Config, s: Run, feed: seq<Item>, e: Event, id: string, x: string)
    requires Announces(cfg, e, id) && e.kind.update.blockType.Some? && id !in s.parts && NoUpdateOf(cfg, feed, id)
    requires Active(Consume(cfg, s, feed))
    ensures ViewOf(Step(cfg, Consume(cfg, s, feed), Receive(e)), x) == ViewOf(Consume(cfg, Step(cfg, s, Receive(e)), feed), x)
  {
    BothOrders(cfg, s, feed, e, x);
    if x == id {
      AnnouncementCommutes(cfg, ViewOf(s, id), feed, id, e.kind.update, e.messageId);
    }
  }

  /** Both orders, each told from one part's own view. */
  lemma BothOrders(cfg: Config, s: Run, feed: seq<Item>, e: Event, x: string)
    requires e.kind.PartUpdated? && Active(Consume(cfg, s, feed))
    ensures ViewOf(Step(cfg, Consume(cfg, s, feed), Receive(e)), x)
            == PartStep(cfg, PartRun(cfg, ViewOf(s, x), feed, x), Receive(e), x)
    ensures ViewOf(Consume(cfg, Step(cfg, s, Receive(e)), feed), x)
            == PartRun(cfg, PartStep(cfg, ViewOf(s, x), Receive(e), x), feed, x)
  {
    ConsumeView(cfg, s, feed, x);
    StepView(cfg, Consume(cfg, s, feed), Receive(e), x);
    EventLife(cfg, s, e);
    StepView(cfg, s, Receive(e), x);
    ConsumeLife(cfg, s, Step(cfg, s, Receive(e)), feed);
    ConsumeView(cfg, Step(cfg, s, Receive(e)), feed, x);
  }

  /** For a part that is a user's, a system's or of an unmapped type nothing is ever generated, in either order and
      whatever the feed brings in between. */
  lemma UnshownPartsStaySilent(cfg: Config, s: Run, feed: seq<Item>, e: Event, id: string)
    requires Addresses(cfg, Receive(e), id) && e.kind.PartUpdated? && id !in s.parts && NoUpdateOf(cfg, feed, id)
    requires var u := e.kind.update; u.blockType.None? || u.role == Some(User) || u.role == Some(System)
    requires Active(Consume(cfg, s, feed))
    ensures LogOf(Step(cfg, Consume(cfg, s, feed), Receive(e)).log, id) == LogOf(s.log, id)
    ensures LogOf(Consume(cfg, Step(cfg, s, Receive(e)), feed).log, id) == LogOf(s.log, id)
  {
    BothOrders(cfg, s, feed, e, id);
    var v := ViewOf(s, id);
    UnknownCollects(cfg, v, feed, id);
    var w := TakeUpdate(v, id, e.kind.update, e.messageId);
    if e.kind.update.blockType.None? {
      UnknownCollects(cfg, w, feed, id);
    } else {
      MutedIgnores(cfg, w, feed, id);
    }
  }

  // ---- Redelivery ----

  predicate NothingFor(cfg: Config, feed: seq<Item>, id: string) {
    forall i :: 0 <= i < |feed| ==> !Addresses(cfg, feed[i], id)
  }

  lemma {:induction false} OthersSpareView(cfg: Config, s: Run, feed: seq<Item>, id: string)
    requires NothingFor(cfg, feed, id)
    ensures ViewOf(Consume(cfg, s, feed), id) == ViewOf(s, id)
    decreases |feed|
  {
    if feed != [] {
      if Active(s) {
        StepView(cfg, s, feed[0], id);
      }
      assert NothingFor(cfg, feed[1..], id) by {
        assert forall i :: 0 <= i < |feed[1..]| ==> feed[1..][i] == feed[i + 1];
      }
      OthersSpareView(cfg, Step(cfg, s, feed[0]), feed[1..], id);
    }
  }

  /** Redelivering a part's newest snapshot or tool payload changes nothing at all, whatever the feed brought for other
      parts in between. */
  lemma LateRedeliveryIsSilent(cfg: Config, s: Run, feed: seq<Item>, id: string, u: PartUpdate, messageId: Option<string>)
    requires u.blockType.Some? && u.delta == "" && NothingFor(cfg, feed, id)
    requires if u.blockType.value == TOOL_CALL then u.tool.Some? else u.snapshot.Some?
    ensures var t := Consume(cfg, OnUpdate(cfg, s, id, u, messageId), feed); OnUpdate(cfg, t, id, u, messageId) == t
  {
    var t0 := OnUpdate(cfg, s, id, u, messageId);
    var t := Consume(cfg, t0, feed);
    OthersSpareView(cfg, t0, feed, id);
    var p, waiting := Upsert(s.parts, id, u.blockType.value, u.role, messageId), GetOr(s.pending, id, []);
    RegeneratesNothing(id, p, waiting, u, messageId);
    UpdateStoresPart(cfg, s, id, u, messageId);
    SamePart(t0, t, id);
    AnnouncedAgain(cfg, t, id, u, messageId);
  }

  lemma SamePart(a: Run, b: Run, id: string)
    requires ViewOf(a, id) == ViewOf(b, id) && id in a.parts && id !in a.pending
    ensures id in b.parts && b.parts[id] == a.parts[id] && id !in b.pending
  {
  }
}

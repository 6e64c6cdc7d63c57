/** What is said for each upstream part, as plain text read off the feed: which events speak, and with which words. */
module StreamText {
  import opened Basics
  import opened StreamState
  import opened StreamModel
  import opened StreamProperties
  import opened StreamTheorems
  import opened StreamOrder

  // ---- The telling of one part ----

  /** A part that has been announced: its type, its role, and the text it stands at. */
  datatype Known = Known(blockType: BlockType, role: Option<Role>, text: string)

  /** One part as a reader of the feed alone sees it; words that come before the announcement wait for it. */
  datatype Telling = Telling(known: Option<Known>, waiting: string, said: string)

  const Untold := Telling(None, "", "")

  predicate Hidden(role: Option<Role>) { role == Some(User) || role == Some(System) }

  /** The item is a delta or an announcement of the part, in the request's session. */
  predicate Speaks(cfg: Config, item: Item, id: string) {
    && item.Receive? && item.event.streamSession == Some(cfg.sessionId) && id != "" && item.event.partId == Some(id)
    && (item.event.kind.PartUpdated? || item.event.kind.PartDelta?)
  }

  function Tell(cfg: Config, t: Telling, item: Item, id: string): Telling {
    if !Speaks(cfg, item, id) then t
    else
      match item.event.kind
      case PartDelta(text) =>
        if t.known.None? then t.(waiting := t.waiting + text)
        else if Hidden(t.known.value.role) then t
        else Told(t, t.known.value, text)
      case PartUpdated(u) =>
        if u.blockType.None? then t.(waiting := "")
        else
          var role := if u.role.Some? || t.known.None? then u.role else t.known.value.role;
          var k := Known(u.blockType.value, role, if t.known.Some? then t.known.value.text else "");
          if Hidden(role) then Telling(Some(k), "", t.said) else Updated(Told(t.(waiting := ""), k, t.waiting), u)
      case _ => t
  }

  /** The part goes on with some words. */
  function Told(t: Telling, k: Known, words: string): Telling {
    t.(known := Some(k.(text := k.text + words)), said := t.said + words)
  }

  /** The announcement's own words: its delta; or its tool payload, which is not text; or what its snapshot adds to the
      text so far, which is nothing if the snapshot is some other text. */
  function Updated(t: Telling, u: PartUpdate): Telling
    requires t.known.Some?
  {
    var k := t.known.value;
    if u.delta != "" then Told(t, k, u.delta)
    else if k.blockType == TOOL_CALL then
      if u.tool.Some? then t.(known := Some(k.(text := u.tool.value.json))) else t
    else if u.snapshot.None? then t
    else if k.text <= u.snapshot.value then Told(t, k, u.snapshot.value[|k.text|..])
    else t.(known := Some(k.(text := u.snapshot.value)))
  }

  function TellAll(cfg: Config, t: Telling, feed: seq<Item>, id: string): Telling
    decreases |feed|
  {
    if feed == [] then t else TellAll(cfg, Tell(cfg, t, feed[0], id), feed[1..], id)
  }

  // ---- The consumer tells the same ----

  function Words(ds: seq<PendingDelta>): string {
    if ds == [] then "" else ds[0].delta + Words(ds[1..])
  }

  function KnownOf(p: Part): Known { Known(p.blockType, p.role, p.buffer) }

  function TellingOf(v: PartView, id: string): Telling {
    Telling(if v.part.Some? then Some(KnownOf(v.part.value)) else None, Words(Waited(v)), SaidBy(v.said, id))
  }

  lemma {:induction false} SaidConcat(a: seq<Log>, b: seq<Log>, id: string)
    ensures SaidBy(a + b, id) == SaidBy(a, id) + SaidBy(b, id)
  {
    if a == [] {
      assert a + b == b;
    } else {
      assert (a + b)[1..] == a[1..] + b;
      SaidConcat(a[1..], b, id);
      JoinTexts(if a[0].Said? && a[0].partId == id then PayloadText(a[0].chunk.part) else "", SaidBy(a[1..], id), SaidBy(b, id));
    }
  }

  lemma {:induction false} WordsSnoc(ds: seq<PendingDelta>, d: PendingDelta)
    ensures Words(ds + [d]) == Words(ds) + d.delta
  {
    if ds == [] {
      assert [] + [d] == [d] && [d][1..] == [];
      assert d.delta + "" == d.delta;
    } else {
      assert (ds + [d])[1..] == ds[1..] + [d];
      WordsSnoc(ds[1..], d);
      JoinTexts(ds[0].delta, Words(ds[1..]), d.delta);
    }
  }

  lemma {:induction false} SaidOfOne(log: seq<Log>, id: string)
    ensures SaidBy(LogOf(log, id), id) == SaidBy(log, id)
  {
    if log != [] {
      SaidOfOne(log[1..], id);
      if log[0].partId == id {
        assert ([log[0]] + LogOf(log[1..], id))[1..] == LogOf(log[1..], id);
      } else {
        assert [] + LogOf(log[1..], id) == LogOf(log[1..], id);
        assert "" + SaidBy(log[1..], id) == SaidBy(log[1..], id);
      }
    }
  }

  lemma DeltaTold(id: string, p: Part, text: string, messageId: Option<string>)
    ensures var (q, l) := ApplyDelta(id, p, text, messageId);
            && KnownOf(q) == KnownOf(p).(text := p.buffer + text)
            && SaidBy(l, id) == text
  {
    var (q, l) := ApplyDelta(id, p, text, messageId);
    if text != "" {
      assert l[1..] == [] && text + "" == text;
    }
    assert p.buffer + "" == p.buffer;
  }

  lemma {:induction false} DeltasTold(id: string, p: Part, ds: seq<PendingDelta>)
    ensures var (q, l) := ApplyDeltas(id, p, ds);
            && KnownOf(q) == KnownOf(p).(text := p.buffer + Words(ds))
            && SaidBy(l, id) == Words(ds)
    decreases |ds|
  {
    if ds == [] {
      assert p.buffer + "" == p.buffer;
    } else {
      var (q, l) := ApplyDelta(id, p, ds[0].delta, ds[0].messageId);
      DeltaTold(id, p, ds[0].delta, ds[0].messageId);
      DeltasTold(id, q, ds[1..]);
      SaidConcat(l, ApplyDeltas(id, q, ds[1..]).1, id);
      JoinTexts(p.buffer, ds[0].delta, Words(ds[1..]));
    }
  }

  lemma UpdateTold(id: string, p: Part, u: PartUpdate, messageId: Option<string>, said: string)
    ensures var (q, l) := ApplyUpdate(id, p, u, messageId);
            Telling(Some(KnownOf(q)), "", said + SaidBy(l, id)) == Updated(Telling(Some(KnownOf(p)), "", said), u)
  {
    assert said + "" == said;
    if u.delta != "" {
      DeltaTold(id, p, u.delta, messageId);
    } else if p.blockType == TOOL_CALL {
      ToolSaysNoText(id, p, u.tool, messageId);
    } else if u.snapshot.Some? {
      SnapshotTold(id, p, u.snapshot.value, messageId);
    }
  }

  lemma ToolSaysNoText(id: string, p: Part, tool: Option<ToolPayload>, messageId: Option<string>)
    ensures var (q, l) := ApplyTool(id, p, tool, messageId);
            && SaidBy(l, id) == ""
            && KnownOf(q) == KnownOf(p).(text := if tool.Some? then tool.value.json else p.buffer)
  {
    var l := ApplyTool(id, p, tool, messageId).1;
    if l != [] {
      assert l[1..][1..] == [] && SaidBy(l[1..], id) == "";
    }
  }

  lemma SnapshotTold(id: string, p: Part, snapshot: string, messageId: Option<string>)
    ensures var (q, l) := ApplySnapshot(id, p, snapshot, messageId);
            && KnownOf(q) == KnownOf(p).(text := snapshot)
            && SaidBy(l, id) == (if p.buffer <= snapshot then snapshot[|p.buffer|..] else "")
            && (p.buffer <= snapshot ==> p.buffer + snapshot[|p.buffer|..] == snapshot)
  {
    var l := ApplySnapshot(id, p, snapshot, messageId).1;
    if l != [] {
      assert l[1..] == [];
    }
  }

  lemma AnnouncedTold(v: PartView, id: string, u: PartUpdate, messageId: Option<string>, p: Part)
    requires u.blockType.Some? && p == StreamOrder.Announced(v.part, u, messageId) && !Hidden(p.role)
    ensures TellingOf(TakeUpdate(v, id, u, messageId), id)
            == Updated(Told(TellingOf(v, id).(waiting := ""), KnownOf(p), Words(Waited(v))), u)
  {
    var waiting, said := Waited(v), SaidBy(v.said, id);
    var (q, early) := ApplyDeltas(id, p, waiting);
    var (r, late) := ApplyUpdate(id, q, u, messageId);
    DeltasTold(id, p, waiting);
    UpdateTold(id, q, u, messageId, said + Words(waiting));
    SaidConcat(v.said, early + late, id);
    SaidConcat(early, late, id);
    JoinTexts(said, Words(waiting), SaidBy(late, id));
  }

  lemma StepTold(cfg: Config, v: PartView, item: Item, id: string)
    ensures TellingOf(PartStep(cfg, v, item, id), id) == Tell(cfg, TellingOf(v, id), item, id)
  {
    if Speaks(cfg, item, id) {
      match item.event.kind
      case PartDelta(text) => SpokenDelta(cfg, v, item, id, text);
      case PartUpdated(u) =>
        if u.blockType.Some? {
          var p := StreamOrder.Announced(v.part, u, item.event.messageId);
          if !Hidden(p.role) {
            AnnouncedTold(v, id, u, item.event.messageId, p);
          }
        }
    }
  }

  lemma SpokenDelta(cfg: Config, v: PartView, item: Item, id: string, text: string)
    requires Speaks(cfg, item, id) && item.event.kind == PartDelta(text)
    ensures TellingOf(PartStep(cfg, v, item, id), id) == Tell(cfg, TellingOf(v, id), item, id)
  {
    var t := TellingOf(v, id);
    assert t.waiting + "" == t.waiting && t.said + "" == t.said;
    if v.part.None? {
      WordsSnoc(Waited(v), PendingDelta(text, item.event.messageId));
    } else {
      DeltaTold(id, v.part.value, text, item.event.messageId);
      SaidConcat(v.said, ApplyDelta(id, v.part.value, text, item.event.messageId).1, id);
    }
  }

  lemma {:induction false} RunTold(cfg: Config, v: PartView, feed: seq<Item>, id: string)
    ensures TellingOf(PartRun(cfg, v, feed, id), id) == TellAll(cfg, TellingOf(v, id), feed, id)
    decreases |feed|
  {
    if feed != [] {
      StepTold(cfg, v, feed[0], id);
      RunTold(cfg, PartStep(cfg, v, feed[0], id), feed[1..], id);
    }
  }

  /** Over every feed that is consumed to its end: what has been said for a part, what its text stands at, and which
      words still wait for its announcement are exactly what a reader of the feed alone tells. */
  lemma FeedIsTold(cfg: Config, s0: Run, feed: seq<Item>, id: string)
    requires Initial(s0) && Active(Consume(cfg, s0, feed))
    ensures var s, t := Consume(cfg, s0, feed), TellAll(cfg, Untold, feed, id);
            && SaidBy(s.log, id) == t.said
            && (t.known.Some? <==> id in s.parts)
            && (id in s.parts ==> t.known == Some(Known(s.parts[id].blockType, s.parts[id].role, s.parts[id].buffer)))
            && Words(GetOr(s.pending, id, [])) == t.waiting
  {
    ConsumeView(cfg, s0, feed, id);
    RunTold(cfg, ViewOf(s0, id), feed, id);
    assert TellingOf(ViewOf(s0, id), id) == Untold;
    SaidOfOne(Consume(cfg, s0, feed).log, id);
  }

  // ---- Feeds of deltas ----

  /** The text of a delta event of the part, or of the delta in its announcement. */
  function OwnWords(cfg: Config, item: Item, id: string): string {
    if !Speaks(cfg, item, id) then ""
    else
      match item.event.kind
      case PartDelta(text) => text
      case PartUpdated(u) => u.delta
      case _ => ""
  }

  /** The texts of a part's delta events, those of its announcements included, in order. */
  function DeltaText(cfg: Config, feed: seq<Item>, id: string): string {
    if feed == [] then "" else OwnWords(cfg, feed[0], id) + DeltaText(cfg, feed[1..], id)
  }

  /** Every announcement of the part shows it as text or reasoning of no user and no system, and brings a delta or
      nothing. */
  predicate OnlyDeltas(cfg: Config, feed: seq<Item>, id: string) {
    forall i :: 0 <= i < |feed| && Speaks(cfg, feed[i], id) && feed[i].event.kind.PartUpdated? ==> Plain(feed[i].event.kind.update)
  }

  predicate Plain(u: PartUpdate) {
    && u.blockType.Some? && u.blockType.value != TOOL_CALL && !Hidden(u.role)
    && (u.delta != "" || u.snapshot.None?)
  }

  ghost predicate IsAnnounced(cfg: Config, feed: seq<Item>, id: string) {
    exists i :: 0 <= i < |feed| && Speaks(cfg, feed[i], id) && feed[i].event.kind.PartUpdated?
  }

  lemma OnlyDeltasTail(cfg: Config, feed: seq<Item>, id: string)
    requires feed != [] && OnlyDeltas(cfg, feed, id)
    ensures OnlyDeltas(cfg, feed[1..], id)
    ensures IsAnnounced(cfg, feed, id)
            <==> (Speaks(cfg, feed[0], id) && feed[0].event.kind.PartUpdated?) || IsAnnounced(cfg, feed[1..], id)
  {
    var rest := feed[1..];
    assert forall i :: 0 <= i < |rest| ==> rest[i] == feed[i + 1];
    if IsAnnounced(cfg, feed, id) && !(Speaks(cfg, feed[0], id) && feed[0].event.kind.PartUpdated?) {
      var i :| 0 <= i < |feed| && Speaks(cfg, feed[i], id) && feed[i].event.kind.PartUpdated?;
      assert rest[i - 1] == feed[i];
    }
    if IsAnnounced(cfg, rest, id) {
      var i :| 0 <= i < |rest| && Speaks(cfg, rest[i], id) && rest[i].event.kind.PartUpdated?;
      assert feed[i + 1] == rest[i];
    }
  }

  predicate TellsDeltas(t: Telling) {
    t.known.Some? ==> t.waiting == "" && t.known.value.blockType != TOOL_CALL && !Hidden(t.known.value.role)
  }

  /** An item adds its own words to what is said or waits; they are said as soon as the part is known. */
  lemma WordsAddUp(cfg: Config, t: Telling, item: Item, id: string)
    requires TellsDeltas(t) && (Speaks(cfg, item, id) && item.event.kind.PartUpdated? ==> Plain(item.event.kind.update))
    ensures var u := Tell(cfg, t, item, id);
            && TellsDeltas(u)
            && (u.known.Some? <==> t.known.Some? || (Speaks(cfg, item, id) && item.event.kind.PartUpdated?))
            && (u.known.None? ==> u.said == t.said)
            && u.said + u.waiting == t.said + t.waiting + OwnWords(cfg, item, id)
  {
    var words := OwnWords(cfg, item, id);
    assert t.said + t.waiting + "" == t.said + t.waiting && t.said + "" == t.said;
    if Speaks(cfg, item, id) {
      match item.event.kind
      case PartDelta(text) => JoinTexts(t.said, t.waiting, text);
      case PartUpdated(u) => AnnouncedWordsAddUp(t, u, cfg, item, id);
    }
  }

  lemma AnnouncedWordsAddUp(t: Telling, update: PartUpdate, cfg: Config, item: Item, id: string)
    requires TellsDeltas(t) && Speaks(cfg, item, id) && item.event.kind == PartUpdated(update) && Plain(update)
    ensures var u := Tell(cfg, t, item, id); u.known.Some? && TellsDeltas(u) && u.said == t.said + t.waiting + update.delta
  {
    assert t.said + t.waiting + "" == t.said + t.waiting;
  }

  lemma {:induction false} DeltasAddUp(cfg: Config, t: Telling, feed: seq<Item>, id: string)
    requires OnlyDeltas(cfg, feed, id) && TellsDeltas(t)
    ensures var u := TellAll(cfg, t, feed, id);
            && TellsDeltas(u)
            && (u.known.Some? <==> t.known.Some? || IsAnnounced(cfg, feed, id))
            && (u.known.None? ==> u.said == t.said)
            && u.said + u.waiting == t.said + t.waiting + DeltaText(cfg, feed, id)
    decreases |feed|
  {
    if feed == [] {
      assert t.said + t.waiting + "" == t.said + t.waiting;
    } else {
      OnlyDeltasTail(cfg, feed, id);
      WordsAddUp(cfg, t, feed[0], id);
      DeltasAddUp(cfg, Tell(cfg, t, feed[0], id), feed[1..], id);
      JoinTexts(t.said + t.waiting, OwnWords(cfg, feed[0], id), DeltaText(cfg, feed[1..], id));
    }
  }

  /** For a text or reasoning part that is never shown as a user's or a system's and gets no snapshots: over a feed that
      is consumed to its end exactly the texts of its delta events are said, in order, wherever the announcement stands
      among them and whatever else the feed brings; without an announcement they all wait and nothing is said. */
  lemma DeltasAreSaid(cfg: Config, s0: Run, feed: seq<Item>, id: string)
    requires Initial(s0) && Active(Consume(cfg, s0, feed)) && OnlyDeltas(cfg, feed, id)
    ensures var s, words := Consume(cfg, s0, feed), DeltaText(cfg, feed, id);
            if IsAnnounced(cfg, feed, id)
            then id in s.parts && SaidBy(s.log, id) == words && GetOr(s.pending, id, []) == []
            else id !in s.parts && SaidBy(s.log, id) == "" && Words(GetOr(s.pending, id, [])) == words
  {
    FeedIsTold(cfg, s0, feed, id);
    DeltasAddUp(cfg, Untold, feed, id);
    var t := TellAll(cfg, Untold, feed, id);
    assert "" + "" + DeltaText(cfg, feed, id) == DeltaText(cfg, feed, id);
    assert t.said + "" == t.said && "" + t.waiting == t.waiting;
    KnownWaitsForNothing(cfg, s0, feed, id);
  }

  /** The same from any state of an announced part: what is said for it grows by exactly the texts of its deltas. */
  lemma DeltasAreAdded(cfg: Config, s: Run, feed: seq<Item>, id: string)
    requires Active(Consume(cfg, s, feed)) && OnlyDeltas(cfg, feed, id)
    requires id in s.parts && s.parts[id].blockType != TOOL_CALL && !Hidden(s.parts[id].role) && id !in s.pending
    ensures SaidBy(Consume(cfg, s, feed).log, id) == SaidBy(s.log, id) + DeltaText(cfg, feed, id)
  {
    ConsumeView(cfg, s, feed, id);
    RunTold(cfg, ViewOf(s, id), feed, id);
    SaidOfOne(s.log, id);
    SaidOfOne(Consume(cfg, s, feed).log, id);
    var t := TellingOf(ViewOf(s, id), id);
    DeltasAddUp(cfg, t, feed, id);
    var u := TellAll(cfg, t, feed, id);
    assert t.said + "" == t.said && u.said + "" == u.said;
  }

  lemma {:induction false} KnownNeverWaits(cfg: Config, v: PartView, feed: seq<Item>, id: string)
    requires v.part.Some? ==> Waited(v) == []
    ensures var w := PartRun(cfg, v, feed, id); w.part.Some? ==> Waited(w) == []
    decreases |feed|
  {
    if feed != [] {
      KnownNeverWaits(cfg, PartStep(cfg, v, feed[0], id), feed[1..], id);
    }
  }

  lemma KnownWaitsForNothing(cfg: Config, s0: Run, feed: seq<Item>, id: string)
    requires Initial(s0) && Active(Consume(cfg, s0, feed))
    ensures id in Consume(cfg, s0, feed).parts ==> GetOr(Consume(cfg, s0, feed).pending, id, []) == []
  {
    ConsumeView(cfg, s0, feed, id);
    KnownNeverWaits(cfg, ViewOf(s0, id), feed, id);
  }
}

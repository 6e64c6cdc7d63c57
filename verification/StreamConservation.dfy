/** Exactly which feeds overwrite a part, and that all others conserve its text. */
module StreamConservation {
  import opened Basics
  import opened StreamState
  import opened StreamModel
  import opened StreamProperties
  import opened StreamTheorems

  /** An update replaces what the part has said: a snapshot that does not extend its buffer, or new tool output. */
  predicate Replaces(p: Part, u: PartUpdate) {
    u.delta == "" &&
    if p.blockType == TOOL_CALL then u.tool.Some? && u.tool.value.json != p.buffer
    else u.snapshot.Some? && !(p.buffer <= u.snapshot.value)
  }

  /** The item announces the part, and once the deltas that waited for it are applied, replaces what it has said. */
  predicate Overwrites(cfg: Config, s: Run, item: Item, id: string) {
    && Active(s) && item.Receive?
    && var e := item.event;
       && e.streamSession == Some(cfg.sessionId) && HasId(e.partId) && e.partId.value == id
       && e.kind.PartUpdated? && e.kind.update.blockType.Some?
       && var u := e.kind.update;
          var p := Upsert(s.parts, id, u.blockType.value, u.role, e.messageId);
          !Muted(p) && Replaces(ApplyDeltas(id, p, GetOr(s.pending, id, [])).0, u)
  }

  predicate NeverOverwrites(cfg: Config, s: Run, feed: seq<Item>, id: string)
    decreases |feed|
  {
    feed != [] ==> !Overwrites(cfg, s, feed[0], id) && NeverOverwrites(cfg, Step(cfg, s, feed[0]), feed[1..], id)
  }

  // ---- What one item logs ----

  /** Every entry of the log is about some other part, or is text that was generated. */
  lemma UnwrittenConcat(a: seq<Log>, b: seq<Log>, id: string)
    ensures NeverRewritten(a + b, id) <==> NeverRewritten(a, id) && NeverRewritten(b, id)
  {
    var all := a + b;
    assert forall i :: 0 <= i < |a| ==> all[i] == a[i];
    assert forall i :: 0 <= i < |b| ==> all[|a| + i] == b[i];
  }

  lemma {:induction false} DeltasNeverRewrite(id: string, p: Part, ds: seq<PendingDelta>, x: string)
    ensures NeverRewritten(ApplyDeltas(id, p, ds).1, x)
    decreases |ds|
  {
    if ds != [] {
      var (q, l) := ApplyDelta(id, p, ds[0].delta, ds[0].messageId);
      DeltasNeverRewrite(id, q, ds[1..], x);
      UnwrittenConcat(l, ApplyDeltas(id, q, ds[1..]).1, x);
    }
  }

  lemma UpdateRewritesIff(id: string, p: Part, u: PartUpdate, messageId: Option<string>, x: string)
    ensures NeverRewritten(ApplyUpdate(id, p, u, messageId).1, x) <==> x != id || !Replaces(p, u)
  {
    var log := ApplyUpdate(id, p, u, messageId).1;
    if x == id && Replaces(p, u) {
      assert log[|log| - 1].Rewrote? && log[|log| - 1].partId == id;
    }
  }

  lemma GenerateRewritesIff(id: string, p: Part, waiting: seq<PendingDelta>, u: PartUpdate, messageId: Option<string>, x: string)
    ensures NeverRewritten(Generate(id, p, waiting, u, messageId).1, x)
            <==> x != id || !Replaces(ApplyDeltas(id, p, waiting).0, u)
  {
    var (q, early) := ApplyDeltas(id, p, waiting);
    DeltasNeverRewrite(id, p, waiting, x);
    UpdateRewritesIff(id, q, u, messageId, x);
    UnwrittenConcat(early, ApplyUpdate(id, q, u, messageId).1, x);
  }

  lemma OnUpdateRewritesIff(cfg: Config, s: Run, id: string, u: PartUpdate, messageId: Option<string>, x: string)
    requires u.blockType.Some?
    ensures var p := Upsert(s.parts, id, u.blockType.value, u.role, messageId);
            NeverRewritten(OnUpdate(cfg, s, id, u, messageId).log, x)
            <==> NeverRewritten(s.log, x)
                 && (x != id || Muted(p) || !Replaces(ApplyDeltas(id, p, GetOr(s.pending, id, [])).0, u))
  {
    var p := Upsert(s.parts, id, u.blockType.value, u.role, messageId);
    if !Muted(p) {
      var log := Generate(id, p, GetOr(s.pending, id, []), u, messageId).1;
      GenerateRewritesIff(id, p, GetOr(s.pending, id, []), u, messageId, x);
      UnwrittenConcat(s.log, log, x);
    }
  }

  lemma OnDeltaNeverRewrites(cfg: Config, s: Run, id: string, delta: string, messageId: Option<string>, x: string)
    ensures NeverRewritten(OnDelta(cfg, s, id, delta, messageId).log, x) <==> NeverRewritten(s.log, x)
  {
    if id in s.parts {
      UnwrittenConcat(s.log, ApplyDelta(id, s.parts[id], delta, messageId).1, x);
    }
  }

  lemma StepRewritesIff(cfg: Config, s: Run, item: Item, id: string)
    ensures NeverRewritten(Step(cfg, s, item).log, id) <==> NeverRewritten(s.log, id) && !Overwrites(cfg, s, item, id)
  {
    if Active(s) && item.Receive? {
      var e := item.event;
      var t := if e.eventSession == Some(cfg.sessionId) then OnSession(s, e) else s;
      OnSessionEffect(s, e);
      assert t.parts == s.parts && t.pending == s.pending && t.log == s.log;
      if e.streamSession == Some(cfg.sessionId) && HasId(e.partId) {
        match e.kind
        case PartDelta(text) => OnDeltaNeverRewrites(cfg, t, e.partId.value, text, e.messageId, id);
        case PartUpdated(u) =>
          if u.blockType.Some? {
            OnUpdateRewritesIff(cfg, t, e.partId.value, u, e.messageId, id);
          }
        case _ =>
      }
    }
  }

  lemma {:induction false} FeedRewritesIff(cfg: Config, s: Run, feed: seq<Item>, id: string)
    ensures NeverRewritten(Consume(cfg, s, feed).log, id) <==> NeverRewritten(s.log, id) && NeverOverwrites(cfg, s, feed, id)
    decreases |feed|
  {
    if feed != [] {
      StepRewritesIff(cfg, s, feed[0], id);
      FeedRewritesIff(cfg, Step(cfg, s, feed[0]), feed[1..], id);
    }
  }

  /** Over a feed of deltas and of snapshots that each extend what the part has said, exactly the part's buffer has been
      generated for it; and every other feed overwrites the part somewhere. */
  lemma ExtendingFeedsConserveText(cfg: Config, s0: Run, feed: seq<Item>, id: string)
    requires Initial(s0)
    ensures var s := Consume(cfg, s0, feed);
            && (NeverOverwrites(cfg, s0, feed, id) && id in s.parts ==> s.parts[id].buffer == SaidBy(s.log, id))
            && (!NeverOverwrites(cfg, s0, feed, id) ==> exists b :: Rewrote(id, b) in s.log)
  {
    var s := Consume(cfg, s0, feed);
    FeedRewritesIff(cfg, s0, feed, id);
    if NeverOverwrites(cfg, s0, feed, id) {
      PartTextIsConserved(cfg, s0, feed, id);
    } else {
      var i :| 0 <= i < |s.log| && s.log[i].partId == id && !s.log[i].Said?;
      assert Rewrote(id, s.log[i].buffer) in s.log;
    }
  }
}

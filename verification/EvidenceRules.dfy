/** Which record an event gets, in the columns of the event and the rows that exist; and that a consumer
    that keeps passing over the table gets every published event into the index. */
module EvidenceRules {
  import opened Base
  import opened Outbox
  import opened Evidence
  import N = NoGap

  // ---- the rules ----

  /** A JSON object without forbidden content. */
  predicate Clean(e: Event) { e.payload.isObject && !e.payload.redLine }

  predicate OfBinding(topic: string) {
    || topic == "binding.published" || topic == "binding.suspended" || topic == "binding.resumed"
    || topic == "binding.deprecated" || topic == "binding.retired"
  }

  predicate Known(topic: string) {
    topic == "plan.resolved" || OfBinding(topic) || topic == "provider.snapshot-changed"
  }

  /** The row the event is about exists. */
  predicate RowExists(e: Event, refs: set<Ref>) {
    || (e.topic == "plan.resolved" && PlanRef(e.aggregateId) in refs)
    || (OfBinding(e.topic) && BindingRef(e.aggregateId) in refs)
    || (e.topic == "provider.snapshot-changed" && ProviderRef(e.aggregateId) in refs)
  }

  /** How long the record is kept, in days. */
  predicate Retains(r: Record, retention: Retention, days: nat) {
    r.retention == retention && r.until == r.event.createdAt + days * 86400000
  }

  ghost predicate RetentionRuled(r: Record) {
    && (r.event.topic == "plan.resolved" ==> Retains(r, PlanItem, 90))
    && (OfBinding(r.event.topic) ==> Retains(r, Change, 730))
    && (r.event.topic == "provider.snapshot-changed" ==> Retains(r, SnapshotMeta, 365))
    && (!Known(r.event.topic) ==> Retains(r, EventAudit, 14))
  }

  /** What the record of an event is for good; only whether a clean event of a known topic is LINKED or a
      BROKEN_LINK depends on the rows there are. */
  ghost predicate Ruled(r: Record) {
    && r.digest == Sha256(r.event.payload)
    && r.content == (if Clean(r.event) then Stored(r.event.payload) else Stub(r.reason))
    && r.planId == (if !Clean(r.event) || r.event.topic == "plan.resolved" then r.event.aggregateId else "")
    && RetentionRuled(r)
    && (r.state == Linked <==> r.reason == NoReason)
    && (r.reason == MalformedPayload <==> !r.event.payload.isObject)
    && (r.reason == ForbiddenContent <==> r.event.payload.isObject && r.event.payload.redLine)
    && (r.reason == UnknownTopic <==> Clean(r.event) && !Known(r.event.topic))
  }

  /** LINKED exactly when the event is clean and its row exists, BROKEN_LINK exactly when only the row is
      missing. */
  ghost predicate RuledBy(r: Record, refs: set<Ref>) {
    && Ruled(r)
    && (r.state == Linked <==> Clean(r.event) && Known(r.event.topic) && RowExists(r.event, refs))
    && (r.reason == BrokenLink <==> Clean(r.event) && Known(r.event.topic) && !RowExists(r.event, refs))
  }

  ghost predicate AllRuled(records: seq<Record>) { forall k :: 0 <= k < |records| ==> Ruled(records[k]) }

  lemma RowExistsExactly(e: Event, refs: set<Ref>)
    ensures Known(e.topic) <==> LinkOf(e).Some?
    ensures Known(e.topic) ==> (RowExists(e, refs) <==> LinkOf(e).value in refs)
  {
  }

  lemma ClassifyIsRuled(e: Event, refs: set<Ref>)
    ensures RuledBy(Classify(e, refs), refs)
  {
    RowExistsExactly(e, refs);
  }

  /** Ingesting an event whose id is new adds its record, as the rules say; otherwise it adds nothing. */
  lemma IngestWrites(records: seq<Record>, refs: set<Ref>, c: Consumed)
    ensures var t := IngestOne(records, refs, c);
            if forall k :: 0 <= k < |records| ==> records[k].event.eventId != c.event.eventId
            then |t| == |records| + 1 && t[..|records|] == records && t[|records|].event == c.event
                 && RuledBy(t[|records|], refs)
            else t == records
  {
    hide Classify;
    ClassifyIsRuled(c.event, refs);
    ClassifyKeepsEvent(c.event, refs);
  }

  lemma ClassifyKeepsEvent(e: Event, refs: set<Ref>)
    ensures Classify(e, refs).event == e
  {
  }

  /** The repair flips exactly the broken links whose row exists by now, and changes nothing else. */
  lemma RepairFlipsExactly(records: seq<Record>, refs: set<Ref>, k: nat)
    requires k < |records| && Ruled(records[k]) && Faithful(records[k], refs)
    ensures var r, t := records[k], Repair(records, refs);
            && |t| == |records|
            && t[k] == (if r.reason == BrokenLink && RowExists(r.event, refs) then r.(state := Linked, reason := NoReason) else r)
            && RuledBy(t[k], refs)
  {
    hide LinkOf, RepairLink;
    var r := records[k];
    RowExistsExactly(r.event, refs);
    if LinkOf(r.event).Some? { RepairLinksAlike(r.event); }
  }

  lemma {:induction false} BatchIsRuled(records: seq<Record>, refs: set<Ref>, batch: seq<Consumed>)
    requires AllRuled(records)
    ensures AllRuled(IngestAll(records, refs, batch))
    decreases |batch|
  {
    hide Ruled, Classify;
    if batch != [] {
      var init, last := batch[..|batch| - 1], batch[|batch| - 1];
      BatchIsRuled(records, refs, init);
      ClassifyIsRuled(last.event, refs);
    }
  }

  lemma ActKeepsRuled(s: N.System, a: N.Action)
    requires N.AllInv(s) && AllRuled(s.records)
    ensures AllRuled(N.Act(s, a).records)
  {
    hide Ruled, N.AllInv, Repaired, IngestAll, Faithful;
    match a {
      case Ingest(i) =>
        if i < |s.scans| && s.scans[i].batch.Some? { BatchIsRuled(s.records, s.refs, s.scans[i].batch.value); }
      case Repair =>
        forall k | 0 <= k < |s.records| ensures Ruled(N.Act(s, a).records[k]) {
          RecordIsFaithful(s, k);
          RepairFlipsExactly(s.records, s.refs, k);
        }
      case _ =>
    }
  }

  lemma RecordIsFaithful(s: N.System, k: nat)
    requires N.AllInv(s) && k < |s.records|
    ensures Faithful(s.records[k], s.refs)
  {
  }

  lemma {:induction false} RunKeepsRuled(s: N.System, actions: seq<N.Action>)
    requires N.AllInv(s) && AllRuled(s.records)
    ensures AllRuled(N.RunAll(s, actions).records)
    decreases actions
  {
    hide AllRuled, N.AllInv, N.Act;
    if actions != [] {
      N.ActKeepsInv(s, actions[0]);
      ActKeepsRuled(s, actions[0]);
      RunKeepsRuled(N.Act(s, actions[0]), actions[1..]);
    }
  }

  /** In every interleaving each record is what the rules say of its event; and once a repair has run, a
      record is LINKED exactly when its event is clean and its row exists. */
  lemma RecordsAreRuled(actions: seq<N.Action>, k: nat)
    requires k < |N.RunAll(N.START, actions).records|
    ensures var t := N.RunAll(N.START, actions); Ruled(t.records[k]) && RuledBy(N.Act(t, N.Repair).records[k], t.refs)
  {
    hide Ruled, RuledBy, N.AllInv, N.RunAll, Repaired;
    var t := N.RunAll(N.START, actions);
    N.StartHolds();
    N.RunAllKeepsInv(N.START, actions);
    RunKeepsRuled(N.START, actions);
    RecordIsFaithful(t, k);
    RepairFlipsExactly(t.records, t.refs, k);
  }

  // ---- passes ----

  /** The published rows past the consumer's checkpoint. */
  function Waiting(s: N.System, consumer: string): set<nat> {
    set id | id in s.box.rows && s.box.rows[id].status == Published && s.box.rows[id].seqNo.Some?
             && s.box.rows[id].seqNo.value > (if consumer in s.checkpoints then s.checkpoints[consumer] else 0)
  }

  /** One pass of a consumer that nothing interrupts. */
  function Pass(s: N.System, consumer: string, limit: nat, ids: seq<nat>): seq<N.Action> {
    [N.ReadCheckpoint(consumer), N.ReadRows(|s.scans|, limit, ids), N.Ingest(|s.scans|)]
  }

  /** After a batch the checkpoint is the greatest published_seq of it, or higher already. */
  lemma CheckpointMoves(checkpoints: map<string, nat>, consumer: string, batch: seq<Consumed>, k: nat)
    requires k < |batch| && forall j :: 0 <= j < |batch| ==> batch[j].seqNo <= batch[k].seqNo
    ensures var t := Advance(checkpoints, consumer, TopSeq(batch));
            t == checkpoints[consumer := if consumer in checkpoints && checkpoints[consumer] > batch[k].seqNo
                                         then checkpoints[consumer] else batch[k].seqNo]
  {
    TopSeqBounds(batch);
  }

  lemma ActsOfPass(s: N.System, consumer: string, limit: nat, ids: seq<nat>)
    ensures N.RunAll(s, Pass(s, consumer, limit, ids))
         == N.Act(N.Act(N.Act(s, N.ReadCheckpoint(consumer)), N.ReadRows(|s.scans|, limit, ids)), N.Ingest(|s.scans|))
  {
    hide N.Act;
    var p := Pass(s, consumer, limit, ids);
    var a := N.Act(s, p[0]);
    var b := N.Act(a, p[1]);
    assert p[1..][0] == p[1] && p[1..][1..][0] == p[2] && p[1..][1..][1..] == [];
    assert N.RunAll(s, p) == N.RunAll(a, p[1..]) == N.RunAll(b, p[1..][1..]) == N.RunAll(N.Act(b, p[2]), []);
  }

  lemma PassWrites(s: N.System, consumer: string, limit: nat, ids: seq<nat>)
    requires N.IsScan(s.box.rows, Checkpoint(s.checkpoints, consumer), limit, ids)
    ensures var t, batch := N.RunAll(s, Pass(s, consumer, limit, ids)), N.ReadBatch(s.box.rows, ids);
            && t.box == s.box && t.refs == s.refs
            && (ids == [] ==> t.records == s.records && t.checkpoints == s.checkpoints)
            && (ids != [] ==> t.records == IngestAll(s.records, s.refs, batch)
                              && t.checkpoints == Advance(s.checkpoints, consumer, TopSeq(batch)))
  {
    hide N.IsScan, IngestAll, Advance, TopSeq, N.RunAll;
    ActsOfPass(s, consumer, limit, ids);
  }

  function Elements(ids: seq<nat>): set<nat> { set x | x in ids }

  lemma {:induction false} DistinctElements(ids: seq<nat>)
    requires forall i, j :: 0 <= i < j < |ids| ==> ids[i] != ids[j]
    ensures |Elements(ids)| == |ids|
    decreases |ids|
  {
    if ids != [] {
      var init, last := ids[..|ids| - 1], ids[|ids| - 1];
      DistinctElements(init);
      assert Elements(ids) == Elements(init) + {last};
      assert last !in init;
    }
  }

  /** A scan takes the whole limit or all that waits. */
  lemma ScanTakes(s: N.System, consumer: string, limit: nat, ids: seq<nat>)
    requires N.IsScan(s.box.rows, Checkpoint(s.checkpoints, consumer), limit, ids)
    ensures var w := Waiting(s, consumer);
            Elements(ids) <= w && |Elements(ids)| == (if |w| <= limit then |w| else limit)
  {
    var w, e := Waiting(s, consumer), Elements(ids);
    DistinctElements(ids);
    assert e <= w;
    SubsetSize(e, w);
    if |ids| < limit { assert e == w; }
  }

  lemma SubsetSize(a: set<nat>, b: set<nat>)
    requires a <= b
    ensures |a| <= |b| && |b - a| == |b| - |a|
  {
    assert b == a + (b - a);
  }

  /** A waiting row is scanned exactly when it is not above the last row scanned. */
  lemma ScannedExactly(rows: map<nat, Row>, last: nat, limit: nat, ids: seq<nat>, id: nat)
    requires N.IsScan(rows, last, limit, ids) && ids != [] && id in rows && N.Visible(rows[id], last)
    ensures id in ids <==> rows[id].seqNo.value <= rows[ids[|ids| - 1]].seqNo.value
  {
  }

  lemma TopOfScan(rows: map<nat, Row>, last: nat, limit: nat, ids: seq<nat>, checkpoints: map<string, nat>, consumer: string)
    requires N.IsScan(rows, last, limit, ids) && ids != [] && last == Checkpoint(checkpoints, consumer)
    ensures Checkpoint(Advance(checkpoints, consumer, TopSeq(N.ReadBatch(rows, ids))), consumer) == rows[ids[|ids| - 1]].seqNo.value
  {
    var batch := N.ReadBatch(rows, ids);
    CheckpointMoves(checkpoints, consumer, batch, |ids| - 1);
  }

  /** What waits after the pass is what waited and was not scanned. */
  lemma PassLeaves(s: N.System, consumer: string, limit: nat, ids: seq<nat>)
    requires N.IsScan(s.box.rows, Checkpoint(s.checkpoints, consumer), limit, ids)
    ensures Waiting(N.RunAll(s, Pass(s, consumer, limit, ids)), consumer) == Waiting(s, consumer) - Elements(ids)
  {
    hide N.RunAll, IngestAll, Advance, TopSeq;
    var t, rows, last := N.RunAll(s, Pass(s, consumer, limit, ids)), s.box.rows, Checkpoint(s.checkpoints, consumer);
    PassWrites(s, consumer, limit, ids);
    if ids != [] {
      TopOfScan(rows, last, limit, ids, s.checkpoints, consumer);
      var top := rows[ids[|ids| - 1]].seqNo.value;
      assert last < top;
      hide N.IsScan;
      forall id | id in Waiting(s, consumer) ensures id in ids <==> rows[id].seqNo.value <= top {
        ScannedExactly(rows, last, limit, ids, id);
      }
    }
  }

  /** Consecutive passes of one consumer, each with the scan it made. */
  ghost function Passes(s: N.System, consumer: string, limit: nat, scans: seq<seq<nat>>): N.System
    decreases |scans|
  {
    if scans == [] then s
    else Passes(N.RunAll(s, Pass(s, consumer, limit, scans[0])), consumer, limit, scans[1..])
  }

  ghost predicate AllScans(s: N.System, consumer: string, limit: nat, scans: seq<seq<nat>>)
    decreases |scans|
  {
    scans == [] || (N.IsScan(s.box.rows, Checkpoint(s.checkpoints, consumer), limit, scans[0])
                    && AllScans(N.RunAll(s, Pass(s, consumer, limit, scans[0])), consumer, limit, scans[1..]))
  }

  lemma PassSteps(w: nat, n: nat, limit: nat)
    requires n > 0
    ensures Left(if w <= limit then 0 else w - limit, n - 1, limit) == Left(w, n, limit)
  {
    assert n * limit == (n - 1) * limit + limit;
  }

  /** What n passes leave of w rows. */
  function Left(w: nat, n: nat, limit: nat): nat { if w <= n * limit then 0 else w - n * limit }

  lemma NoPasses(w: nat, limit: nat)
    ensures Left(w, 0, limit) == w
  {
  }

  /** Each pass takes a batch off what waits for the consumer, until nothing does. */
  lemma {:induction false} PassesCatchUp(s: N.System, consumer: string, limit: nat, scans: seq<seq<nat>>)
    requires N.AllInv(s) && AllScans(s, consumer, limit, scans)
    ensures var t := Passes(s, consumer, limit, scans);
            && N.AllInv(t) && t.box == s.box
            && |Waiting(t, consumer)| == Left(|Waiting(s, consumer)|, |scans|, limit)
    decreases |scans|
  {
    hide N.AllInv, N.RunAll, Waiting, Left, N.IsScan, Pass, Elements;
    if scans == [] {
      NoPasses(|Waiting(s, consumer)|, limit);
    } else {
      var m := N.RunAll(s, Pass(s, consumer, limit, scans[0]));
      N.RunAllKeepsInv(s, Pass(s, consumer, limit, scans[0]));
      PassWrites(s, consumer, limit, scans[0]);
      ScanTakes(s, consumer, limit, scans[0]);
      PassLeaves(s, consumer, limit, scans[0]);
      SubsetSize(Elements(scans[0]), Waiting(s, consumer));
      PassSteps(|Waiting(s, consumer)|, |scans|, limit);
      PassesCatchUp(m, consumer, limit, scans[1..]);
    }
  }

  /** With passes enough for all that waits, every published row has its record, with its own event. */
  lemma EveryPublishedEventIsIndexed(s: N.System, consumer: string, limit: nat, scans: seq<seq<nat>>, id: nat)
    requires N.AllInv(s) && AllScans(s, consumer, limit, scans) && |Waiting(s, consumer)| <= |scans| * limit
    requires id in s.box.rows && s.box.rows[id].status == Published && scans != [] && limit > 0
    ensures var t := Passes(s, consumer, limit, scans); HasEvent(t.records, s.box.rows[id].event.eventId)
  {
    hide Passes, AllScans, N.IsScan;
    PassesCatchUp(s, consumer, limit, scans);
    var t := Passes(s, consumer, limit, scans);
    assert |Waiting(t, consumer)| == 0;
    assert id !in Waiting(t, consumer);
  }
}

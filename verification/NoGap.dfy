/** Outbox workers and evidence consumers running together: nothing published is ever skipped. */
module NoGap {
  import opened Base
  import opened Outbox
  import E = Evidence

  /** One pass of a consumer: the checkpoint it read, then the batch it read, then its ingest. */
  datatype Scan = Scan(consumer: string, last: nat, batch: Option<seq<E.Consumed>>, open: bool)

  datatype System = System(box: State, records: seq<E.Record>, refs: set<E.Ref>,
                           checkpoints: map<string, nat>, scans: seq<Scan>)

  datatype Action =
    | Box(step: Step)
    | AddRef(ref: E.Ref)
    | Repair
    | ReadCheckpoint(consumer: string)
    | ReadRows(scan: nat, limit: nat, ids: seq<nat>)
    | Ingest(scan: nat)
    | CrashScan(scan: nat)

  const START := System(INIT, [], {}, map[], [])

  predicate Visible(r: Row, last: nat) { r.status == Published && r.seqNo.Some? && r.seqNo.value > last }

  /** ids answers the scan query: visible rows past last in published_seq order, at most limit of
      them, and none left out below the last one taken. */
  ghost predicate IsScan(rows: map<nat, Row>, last: nat, limit: nat, ids: seq<nat>) {
    && |ids| <= limit
    && (forall k :: 0 <= k < |ids| ==> ids[k] in rows && Visible(rows[ids[k]], last))
    && (forall i, j :: 0 <= i < j < |ids| ==> rows[ids[i]].seqNo.value < rows[ids[j]].seqNo.value)
    && (forall id :: id in rows && Visible(rows[id], last) ==>
          id in ids || (|ids| == limit && forall k :: 0 <= k < |ids| ==>
                          rows[ids[k]].seqNo.value < rows[id].seqNo.value))
  }

  function ReadBatch(rows: map<nat, Row>, ids: seq<nat>): seq<E.Consumed>
    requires forall k :: 0 <= k < |ids| ==> ids[k] in rows && rows[ids[k]].seqNo.Some?
  {
    seq(|ids|, k requires 0 <= k < |ids| => E.Consumed(rows[ids[k]].event, rows[ids[k]].seqNo.value))
  }

  ghost function Act(s: System, a: Action): System {
    match a
    case Box(step) => s.(box := Apply(s.box, step))
    case AddRef(ref) => s.(refs := s.refs + {ref})
    case Repair => s.(records := E.Repair(s.records, s.refs))
    case ReadCheckpoint(c) => s.(scans := s.scans + [Scan(c, E.Checkpoint(s.checkpoints, c), None, true)])
    case ReadRows(i, limit, ids) =>
      if i < |s.scans| && s.scans[i].open && s.scans[i].batch == None && IsScan(s.box.rows, s.scans[i].last, limit, ids)
      then s.(scans := s.scans[i := s.scans[i].(batch := Some(ReadBatch(s.box.rows, ids)))])
      else s
    case Ingest(i) =>
      if i < |s.scans| && s.scans[i].open && s.scans[i].batch.Some? && s.scans[i].batch.value != [] then
        var sc := s.scans[i];
        s.(records := E.IngestAll(s.records, s.refs, sc.batch.value),
           checkpoints := E.Advance(s.checkpoints, sc.consumer, E.TopSeq(sc.batch.value)),
           scans := s.scans[i := sc.(open := false)])
      else s
    case CrashScan(i) =>
      if i < |s.scans| then s.(scans := s.scans[i := s.scans[i].(open := false)]) else s
  }

  ghost function RunAll(s: System, actions: seq<Action>): System
    decreases actions
  {
    if actions == [] then s else RunAll(Act(s, actions[0]), actions[1..])
  }

  // ---- invariant ----

  ghost predicate Pending(batch: seq<E.Consumed>, eventId: string) {
    exists k :: 0 <= k < |batch| && batch[k].event.eventId == eventId
  }

  /** Every PUBLISHED row up to the watermark upto is recorded, or is in the batch about to be. */
  ghost predicate Covered(rows: map<nat, Row>, records: seq<E.Record>, upto: nat, batch: seq<E.Consumed>) {
    forall id :: id in rows && rows[id].status == Published && rows[id].seqNo.Some? && rows[id].seqNo.value <= upto ==>
      E.HasEvent(records, rows[id].event.eventId) || Pending(batch, rows[id].event.eventId)
  }

  function BatchOf(sc: Scan): seq<E.Consumed> { if sc.batch.Some? then sc.batch.value else [] }

  function Reach(sc: Scan): nat { Max(sc.last, E.TopSeq(BatchOf(sc))) }

  ghost predicate InTable(rows: map<nat, Row>, e: Event) {
    exists id :: id in rows && rows[id].event == e
  }

  /** The batch was read from the table. */
  ghost predicate FromTable(batch: seq<E.Consumed>, rows: map<nat, Row>) {
    forall k :: 0 <= k < |batch| ==> InTable(rows, batch[k].event)
  }

  ghost predicate ScanOk(sc: Scan, rows: map<nat, Row>, records: seq<E.Record>, top: nat) {
    && Reach(sc) <= top
    && FromTable(BatchOf(sc), rows)
    && (sc.open ==> Covered(rows, records, Reach(sc), BatchOf(sc)))
  }

  ghost predicate CheckpointsOk(s: System) {
    forall c :: c in s.checkpoints ==>
      s.checkpoints[c] <= MaxSeq(s.box.rows) && Covered(s.box.rows, s.records, s.checkpoints[c], [])
  }

  ghost predicate ScansOk(s: System) {
    forall i :: 0 <= i < |s.scans| ==> ScanOk(s.scans[i], s.box.rows, s.records, MaxSeq(s.box.rows))
  }

  ghost predicate RecordsOk(s: System) {
    && E.OnePerEvent(s.records)
    && E.AllFaithful(s.records, s.refs)
    && AllInTable(s.records, s.box.rows)
  }

  ghost predicate AllInv(s: System) {
    Inv(s.box) && RecordsOk(s) && CheckpointsOk(s) && ScansOk(s)
  }

  // ---- a worker's step ----

  /** What a worker can do to the table without opening a gap: a row PUBLISHED at or below top was
      PUBLISHED at the same place before. Re-marking takes MAX + 1, so it lands above top. */
  ghost predicate NoNewBelow(a: map<nat, Row>, b: map<nat, Row>, top: nat) {
    forall id :: id in b && b[id].status == Published && b[id].seqNo.Some? && b[id].seqNo.value <= top ==>
      id in a && a[id].status == Published && a[id].seqNo == b[id].seqNo && a[id].event == b[id].event
  }

  lemma StepOpensNoGap(s: State, step: Step)
    ensures NoNewBelow(s.rows, Apply(s, step).rows, MaxSeq(s.rows))
  {
    hide ClaimIds, Settled;
    match step {
      case Settle(c) =>
        if c < |s.calls| && s.calls[c].open && s.calls[c].answer.Some? && s.calls[c].row in s.rows {
          SettledGrows(s.rows[s.calls[c].row], s.calls[c], s.now, MaxSeq(s.rows) + 1);
        }
      case _ =>
    }
  }

  lemma CoveredAfterStep(a: map<nat, Row>, b: map<nat, Row>, records: seq<E.Record>, upto: nat,
                         batch: seq<E.Consumed>, top: nat)
    requires Covered(a, records, upto, batch) && NoNewBelow(a, b, top) && upto <= top
    ensures Covered(b, records, upto, batch)
  {
  }

  lemma InTableGrows(e: Event, a: map<nat, Row>, b: map<nat, Row>)
    requires InTable(a, e) && Grows(a, b)
    ensures InTable(b, e)
  {
    var id :| id in a && a[id].event == e;
    assert RowGrows(a[id], b[id]);
  }

  lemma BoxKeepsInv(s: System, step: Step)
    requires AllInv(s)
    ensures AllInv(Act(s, Box(step)))
  {
    var t := Act(s, Box(step));
    var a, b, top := s.box.rows, t.box.rows, MaxSeq(s.box.rows);
    StepKeepsInv(s.box, step);
    StepGrows(s.box, step);
    StepOpensNoGap(s.box, step);
    GrowsRaisesMax(a, b);
    forall c | c in t.checkpoints
      ensures t.checkpoints[c] <= MaxSeq(b) && Covered(b, t.records, t.checkpoints[c], [])
    {
      CoveredAfterStep(a, b, s.records, s.checkpoints[c], [], top);
    }
    forall i | 0 <= i < |t.scans| ensures ScanOk(t.scans[i], b, t.records, MaxSeq(b)) {
      var sc := s.scans[i];
      assert ScanOk(sc, a, s.records, top);
      forall k | 0 <= k < |BatchOf(sc)| ensures InTable(b, BatchOf(sc)[k].event) {
        InTableGrows(BatchOf(sc)[k].event, a, b);
      }
      if sc.open { CoveredAfterStep(a, b, s.records, Reach(sc), BatchOf(sc), top); }
    }
    forall k | 0 <= k < |t.records| ensures InTable(b, t.records[k].event) {
      InTableGrows(s.records[k].event, a, b);
    }
  }

  // ---- a consumer's step ----

  /** Reading a batch covers everything up to its last published_seq. */
  lemma ScanCovers(rows: map<nat, Row>, records: seq<E.Record>, last: nat, limit: nat, ids: seq<nat>)
    requires IsScan(rows, last, limit, ids) && Covered(rows, records, last, [])
    ensures Covered(rows, records, Max(last, E.TopSeq(ReadBatch(rows, ids))), ReadBatch(rows, ids))
  {
    var batch := ReadBatch(rows, ids);
    E.TopSeqBounds(batch);
    forall id | id in rows && rows[id].status == Published && rows[id].seqNo.Some?
                && rows[id].seqNo.value <= Max(last, E.TopSeq(batch))
      ensures E.HasEvent(records, rows[id].event.eventId) || Pending(batch, rows[id].event.eventId)
    {
      if rows[id].seqNo.value <= last {
        assert !Pending([], rows[id].event.eventId);
      } else {
        assert id in ids by { LeftOutIsAbove(rows, last, limit, ids, id); }
        var k :| 0 <= k < |ids| && ids[k] == id;
        assert batch[k].event == rows[id].event;
      }
    }
  }

  lemma LeftOutIsAbove(rows: map<nat, Row>, last: nat, limit: nat, ids: seq<nat>, id: nat)
    requires IsScan(rows, last, limit, ids) && id in rows && Visible(rows[id], last)
    requires rows[id].seqNo.value <= E.TopSeq(ReadBatch(rows, ids))
    ensures id in ids
  {
    var batch := ReadBatch(rows, ids);
    E.TopSeqBounds(batch);
    var k :| 0 <= k < |batch| && batch[k].seqNo == E.TopSeq(batch);
    assert rows[ids[k]].seqNo.value >= rows[id].seqNo.value;
  }

  lemma ScanBelowTop(rows: map<nat, Row>, last: nat, limit: nat, ids: seq<nat>)
    requires IsScan(rows, last, limit, ids) && last <= MaxSeq(rows)
    ensures Max(last, E.TopSeq(ReadBatch(rows, ids))) <= MaxSeq(rows)
    ensures FromTable(ReadBatch(rows, ids), rows)
  {
    var batch := ReadBatch(rows, ids);
    E.TopSeqBounds(batch);
    if E.TopSeq(batch) != 0 {
      var k :| 0 <= k < |batch| && batch[k].seqNo == E.TopSeq(batch);
      assert rows[ids[k]].seqNo.value == batch[k].seqNo;
    }
    forall k | 0 <= k < |batch| ensures InTable(rows, batch[k].event) {
      assert rows[ids[k]].event == batch[k].event;
    }
  }

  lemma ReadKeepsInv(s: System, i: nat, limit: nat, ids: seq<nat>)
    requires AllInv(s)
    ensures AllInv(Act(s, ReadRows(i, limit, ids)))
  {
    var t := Act(s, ReadRows(i, limit, ids));
    if i < |s.scans| && s.scans[i].open && s.scans[i].batch == None && IsScan(s.box.rows, s.scans[i].last, limit, ids) {
      assert ScanOk(s.scans[i], s.box.rows, s.records, MaxSeq(s.box.rows));
      ScanCovers(s.box.rows, s.records, s.scans[i].last, limit, ids);
      ScanBelowTop(s.box.rows, s.scans[i].last, limit, ids);
      forall j | 0 <= j < |t.scans| ensures ScanOk(t.scans[j], t.box.rows, t.records, MaxSeq(t.box.rows)) {
        assert ScanOk(s.scans[j], s.box.rows, s.records, MaxSeq(s.box.rows));
      }
    }
  }

  lemma StartKeepsInv(s: System, c: string)
    requires AllInv(s)
    ensures AllInv(Act(s, ReadCheckpoint(c)))
  {
    var t := Act(s, ReadCheckpoint(c));
    forall j | 0 <= j < |t.scans| ensures ScanOk(t.scans[j], t.box.rows, t.records, MaxSeq(t.box.rows)) {
      if j < |s.scans| {
        assert ScanOk(s.scans[j], s.box.rows, s.records, MaxSeq(s.box.rows));
      }
    }
  }

  /** More records never uncover anything. */
  lemma CoveredWithMore(rows: map<nat, Row>, a: seq<E.Record>, b: seq<E.Record>, upto: nat, batch: seq<E.Consumed>)
    requires Covered(rows, a, upto, batch) && E.Keeps(a, b)
    ensures Covered(rows, b, upto, batch)
  {
    forall id | id in rows && rows[id].status == Published && rows[id].seqNo.Some? && rows[id].seqNo.value <= upto
      ensures E.HasEvent(b, rows[id].event.eventId) || Pending(batch, rows[id].event.eventId)
    {
      if E.HasEvent(a, rows[id].event.eventId) { E.KeepsHasEvent(a, b, rows[id].event.eventId); }
    }
  }

  /** Once a batch is ingested it need not be pending any more. */
  lemma CoveredWithBatch(rows: map<nat, Row>, a: seq<E.Record>, refs: set<E.Ref>, upto: nat, batch: seq<E.Consumed>)
    requires Covered(rows, a, upto, batch) && E.OnePerEvent(a) && E.AllFaithful(a, refs)
    ensures Covered(rows, E.IngestAll(a, refs, batch), upto, [])
  {
    var b := E.IngestAll(a, refs, batch);
    E.IngestAllCovers(a, refs, batch);
    forall id | id in rows && rows[id].status == Published && rows[id].seqNo.Some? && rows[id].seqNo.value <= upto
      ensures E.HasEvent(b, rows[id].event.eventId)
    {
      if E.HasEvent(a, rows[id].event.eventId) { E.KeepsHasEvent(a, b, rows[id].event.eventId); }
    }
  }

  /** Any larger record table over the same rows keeps checkpoints and scans covered. */
  lemma MoreRecordsKeep(s: System, b: seq<E.Record>)
    requires CheckpointsOk(s) && ScansOk(s) && E.Keeps(s.records, b)
    ensures CheckpointsOk(s.(records := b)) && ScansOk(s.(records := b))
  {
    var t := s.(records := b);
    forall c | c in t.checkpoints
      ensures t.checkpoints[c] <= MaxSeq(t.box.rows) && Covered(t.box.rows, b, t.checkpoints[c], [])
    {
      CoveredWithMore(s.box.rows, s.records, b, s.checkpoints[c], []);
    }
    forall i | 0 <= i < |t.scans| ensures ScanOk(t.scans[i], t.box.rows, b, MaxSeq(t.box.rows)) {
      assert ScanOk(s.scans[i], s.box.rows, s.records, MaxSeq(s.box.rows));
      if s.scans[i].open { CoveredWithMore(s.box.rows, s.records, b, Reach(s.scans[i]), BatchOf(s.scans[i])); }
    }
  }

  ghost predicate AllInTable(records: seq<E.Record>, rows: map<nat, Row>) {
    forall k :: 0 <= k < |records| ==> InTable(rows, records[k].event)
  }

  lemma IngestStaysInTable(rows: map<nat, Row>, a: seq<E.Record>, refs: set<E.Ref>, batch: seq<E.Consumed>)
    requires AllInTable(a, rows) && FromTable(batch, rows)
    ensures AllInTable(E.IngestAll(a, refs, batch), rows)
  {
    var b := E.IngestAll(a, refs, batch);
    E.IngestAllAddsOnly(a, refs, batch);
    forall k | 0 <= k < |b| ensures InTable(rows, b[k].event) {
      if k < |a| {
        assert b[k] == a[k];
      } else {
        assert E.FromBatch(b[k], refs, batch);
        var j :| 0 <= j < |batch| && b[k] == E.Classify(batch[j].event, refs);
        assert InTable(rows, batch[j].event);
      }
    }
  }

  lemma IngestKeepsInv(s: System, i: nat)
    requires AllInv(s)
    ensures AllInv(Act(s, Ingest(i)))
  {
    hide Inv, E.IngestAll;
    var t := Act(s, Ingest(i));
    if i < |s.scans| && s.scans[i].open && s.scans[i].batch.Some? && s.scans[i].batch.value != [] {
      var sc, rows, top := s.scans[i], s.box.rows, MaxSeq(s.box.rows);
      var batch := sc.batch.value;
      assert ScanOk(sc, rows, s.records, top);
      E.IngestAllCovers(s.records, s.refs, batch);
      IngestStaysInTable(rows, s.records, s.refs, batch);
      MoreRecordsKeep(s, t.records);
      CoveredWithBatch(rows, s.records, s.refs, Reach(sc), batch);
      assert Covered(rows, t.records, E.TopSeq(batch), []);
      var m := s.(records := t.records);
      forall j | 0 <= j < |t.scans| ensures ScanOk(t.scans[j], rows, t.records, top) {
        assert ScanOk(m.scans[j], rows, t.records, top);
      }
    }
  }

  lemma RepairKeepsInv(s: System)
    requires AllInv(s)
    ensures AllInv(Act(s, Repair))
  {
    E.RepairKeeps(s.records, s.refs);
    MoreRecordsKeep(s, E.Repair(s.records, s.refs));
  }

  lemma ActKeepsInv(s: System, a: Action)
    requires AllInv(s)
    ensures AllInv(Act(s, a))
  {
    match a {
      case Box(step) => BoxKeepsInv(s, step);
      case AddRef(_) =>
      case Repair => RepairKeepsInv(s);
      case ReadCheckpoint(c) => StartKeepsInv(s, c);
      case ReadRows(i, limit, ids) => ReadKeepsInv(s, i, limit, ids);
      case Ingest(i) => IngestKeepsInv(s, i);
      case CrashScan(i) =>
        forall j | 0 <= j < |Act(s, a).scans|
          ensures ScanOk(Act(s, a).scans[j], s.box.rows, s.records, MaxSeq(s.box.rows))
        {
          assert ScanOk(s.scans[j], s.box.rows, s.records, MaxSeq(s.box.rows));
        }
    }
  }

  lemma {:induction false} RunAllKeepsInv(s: System, actions: seq<Action>)
    requires AllInv(s)
    ensures AllInv(RunAll(s, actions))
    decreases actions
  {
    if actions != [] {
      ActKeepsInv(s, actions[0]);
      RunAllKeepsInv(Act(s, actions[0]), actions[1..]);
    }
  }

  lemma StartHolds()
    ensures AllInv(START)
  {
  }

  // ---- the theorems ----

  ghost predicate ExactlyOne(records: seq<E.Record>, eventId: string) {
    exists k :: 0 <= k < |records| && records[k].event.eventId == eventId
      && (forall j :: 0 <= j < |records| && records[j].event.eventId == eventId ==> j == k)
  }

  /** In every interleaving of workers and consumers, whatever crashes and however stale the writes:
      a PUBLISHED row at or below any consumer's checkpoint has exactly one evidence record, and
      that record carries the row's own event. */
  lemma NothingPublishedIsSkipped(actions: seq<Action>, consumer: string, id: nat)
    requires var t := RunAll(START, actions);
             && consumer in t.checkpoints && id in t.box.rows && t.box.rows[id].status == Published
             && t.box.rows[id].seqNo.Some? && t.box.rows[id].seqNo.value <= t.checkpoints[consumer]
    ensures var t := RunAll(START, actions);
            && ExactlyOne(t.records, t.box.rows[id].event.eventId)
            && exists k :: 0 <= k < |t.records| && t.records[k].event == t.box.rows[id].event
  {
    var t := RunAll(START, actions);
    StartHolds();
    RunAllKeepsInv(START, actions);
    var eventId := t.box.rows[id].event.eventId;
    assert !Pending([], eventId);
    assert E.HasEvent(t.records, eventId);
    var k :| 0 <= k < |t.records| && t.records[k].event.eventId == eventId;
    assert InTable(t.box.rows, t.records[k].event);
    var i :| i in t.box.rows && t.box.rows[i].event == t.records[k].event;
    assert i == id;
  }

  lemma CheckpointStep(s: System, a: Action, consumer: string)
    ensures E.Checkpoint(s.checkpoints, consumer) <= E.Checkpoint(Act(s, a).checkpoints, consumer)
    ensures consumer in s.checkpoints ==> consumer in Act(s, a).checkpoints
  {
  }

  /** No checkpoint ever goes back, and no record is ever lost. */
  lemma {:induction false} CheckpointsOnlyAdvance(s: System, actions: seq<Action>, consumer: string)
    requires AllInv(s)
    ensures E.Checkpoint(s.checkpoints, consumer) <= E.Checkpoint(RunAll(s, actions).checkpoints, consumer)
    ensures E.Keeps(s.records, RunAll(s, actions).records)
    decreases actions
  {
    if actions != [] {
      CheckpointStep(s, actions[0], consumer);
      ActKeepsInv(s, actions[0]);
      RecordsPersist(s, actions[0]);
      CheckpointsOnlyAdvance(Act(s, actions[0]), actions[1..], consumer);
    }
  }

  lemma RecordsPersist(s: System, a: Action)
    requires AllInv(s)
    ensures E.Keeps(s.records, Act(s, a).records)
  {
    match a {
      case Ingest(i) =>
        if i < |s.scans| && s.scans[i].batch.Some? { E.IngestAllCovers(s.records, s.refs, s.scans[i].batch.value); }
      case Repair => E.RepairKeeps(s.records, s.refs);
      case _ =>
    }
  }

  /** The red line over every run: no record ever stores a payload that violates it, every record's
      digest is its payload's, and a LINKED record points at an existing row. */
  lemma RecordsStayFaithful(actions: seq<Action>, k: nat)
    requires k < |RunAll(START, actions).records|
    ensures var t := RunAll(START, actions);
            E.Faithful(t.records[k], t.refs) && InTable(t.box.rows, t.records[k].event)
  {
    StartHolds();
    RunAllKeepsInv(START, actions);
  }
}

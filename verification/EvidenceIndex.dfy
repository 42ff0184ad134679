/** The evidence index's code: scanning a batch, ingesting it, repairing quarantined records. */
module EvidenceIndex {
  import opened Base
  import opened Outbox
  import E = Evidence
  import opened NoGap

  /** The lowest visible row past a watermark, if any. */
  method NextVisible(rows: map<nat, Row>, last: nat) returns (next: Option<nat>)
    ensures next.Some? ==>
              (&& next.value in rows && Visible(rows[next.value], last)
               && forall id :: id in rows && Visible(rows[id], last) ==>
                    rows[next.value].seqNo.value <= rows[id].seqNo.value)
    ensures next == None ==> forall id :: id in rows ==> !Visible(rows[id], last)
  {
    next := None;
    var left := rows.Keys;
    while left != {}
      invariant left <= rows.Keys
      invariant next.Some? ==> next.value in rows && Visible(rows[next.value], last)
      invariant forall id :: id in rows && id !in left && Visible(rows[id], last) ==>
                  next.Some? && rows[next.value].seqNo.value <= rows[id].seqNo.value
      decreases |left|
    {
      var id :| id in left;
      if Visible(rows[id], last) && (next == None || rows[id].seqNo.value < rows[next.value].seqNo.value) {
        next := Some(id);
      }
      left := left - {id};
    }
  }

  /** ScanBatch's second read: the visible rows in published_seq order, at most limit. */
  method ScanRows(rows: map<nat, Row>, last: nat, limit: nat) returns (ids: seq<nat>, batch: seq<E.Consumed>)
    requires UniqueSeqs(rows)
    ensures IsScan(rows, last, limit, ids) && batch == ReadBatch(rows, ids)
  {
    ids, batch := [], [];
    var at := last;
    while |ids| < limit
      invariant |ids| <= limit && last <= at
      invariant IsScan(rows, last, |ids|, ids)
      invariant forall k :: 0 <= k < |ids| ==> rows[ids[k]].seqNo.value <= at
      invariant forall id :: id in rows && Visible(rows[id], last) && id !in ids ==> rows[id].seqNo.value > at
      invariant batch == ReadBatch(rows, ids)
    {
      var next := NextVisible(rows, at);
      if next == None {
        NothingLeft(rows, last, at, ids);
        break;
      }
      ScanOneMore(rows, last, at, ids, next.value);
      at := rows[next.value].seqNo.value;
      batch := batch + [E.Consumed(rows[next.value].event, at)];
      ids := ids + [next.value];
    }
  }

  lemma NothingLeft(rows: map<nat, Row>, last: nat, at: nat, ids: seq<nat>)
    requires forall id :: id in rows ==> !Visible(rows[id], at)
    requires forall id :: id in rows && Visible(rows[id], last) && id !in ids ==> rows[id].seqNo.value > at
    ensures forall id :: id in rows && Visible(rows[id], last) ==> id in ids
  {
    forall id | id in rows && Visible(rows[id], last) ensures id in ids {
      assert !Visible(rows[id], at);
    }
  }

  lemma ScanOneMore(rows: map<nat, Row>, last: nat, at: nat, ids: seq<nat>, next: nat)
    requires UniqueSeqs(rows) && IsScan(rows, last, |ids|, ids) && last <= at
    requires forall k :: 0 <= k < |ids| ==> rows[ids[k]].seqNo.value <= at
    requires forall id :: id in rows && Visible(rows[id], last) && id !in ids ==> rows[id].seqNo.value > at
    requires next in rows && Visible(rows[next], at)
    requires forall id :: id in rows && Visible(rows[id], at) ==> rows[next].seqNo.value <= rows[id].seqNo.value
    ensures IsScan(rows, last, |ids| + 1, ids + [next])
    ensures forall id :: id in rows && Visible(rows[id], last) && id !in ids + [next] ==>
              rows[id].seqNo.value > rows[next].seqNo.value
    ensures ReadBatch(rows, ids + [next]) ==
            ReadBatch(rows, ids) + [E.Consumed(rows[next].event, rows[next].seqNo.value)]
  {
    var more := ids + [next];
    forall id | id in rows && Visible(rows[id], last) && id !in more
      ensures rows[id].seqNo.value > rows[next].seqNo.value
    {
      assert id !in ids && id != next;
      assert Visible(rows[id], at);
    }
  }

  class Index {
    var records: seq<E.Record>
    var refs: set<E.Ref>
    var checkpoints: map<string, nat>

    constructor ()
      ensures records == [] && refs == {} && checkpoints == map[]
    {
      records, refs, checkpoints := [], {}, map[];
    }

    /** INSERT ... ON CONFLICT (event_id) DO NOTHING of the classified event. */
    method IngestOne(c: E.Consumed) returns (created: bool)
      modifies this`records
      ensures records == E.IngestOne(old(records), refs, c)
      ensures created <==> !E.HasEvent(old(records), c.event.eventId)
    {
      created := true;
      for i := 0 to |records|
        invariant created && forall k :: 0 <= k < i ==> records[k].event.eventId != c.event.eventId
      {
        if records[i].event.eventId == c.event.eventId { return false; }
      }
      records := records + [E.Classify(c.event, refs)];
    }

    /** One transaction: every event of the batch, then the checkpoint upsert. An empty batch
        touches nothing. */
    method IngestBatch(consumer: string, batch: seq<E.Consumed>) returns (created: nat)
      modifies this`records, this`checkpoints
      ensures records == E.IngestAll(old(records), refs, batch)
      ensures checkpoints == if batch == [] then old(checkpoints)
                             else E.Advance(old(checkpoints), consumer, E.TopSeq(batch))
      ensures created == |records| - |old(records)|
    {
      created := 0;
      if batch == [] { return; }
      var top := 0;
      assert batch[..0] == [];
      for i := 0 to |batch|
        invariant records == E.IngestAll(old(records), refs, batch[..i])
        invariant checkpoints == old(checkpoints)
        invariant top == E.TopSeq(batch[..i]) && created == |records| - |old(records)|
      {
        assert batch[..i + 1][..i] == batch[..i];
        if batch[i].seqNo > top { top := batch[i].seqNo; }
        var isNew := IngestOne(batch[i]);
        if isNew { created := created + 1; }
      }
      assert batch[..|batch|] == batch;
      if consumer !in checkpoints || checkpoints[consumer] <= top {
        checkpoints := checkpoints[consumer := top];
      }
    }

    /** RepairQuarantined; returns how many records it flipped to LINKED. */
    method RepairQuarantined() returns (repaired: nat)
      modifies this`records
      ensures records == E.Repair(old(records), refs)
      ensures repaired == |set k | 0 <= k < |records| && records[k] != old(records)[k]|
    {
      repaired := 0;
      ghost var flipped: set<int> := {};
      for i := 0 to |records|
        invariant |records| == |old(records)|
        invariant forall k :: 0 <= k < i ==> records[k] == E.Repaired(old(records)[k], refs)
        invariant forall k :: i <= k < |records| ==> records[k] == old(records)[k]
        invariant flipped == (set k | 0 <= k < i && records[k] != old(records)[k]) && repaired == |flipped|
      {
        var r := E.Repaired(records[i], refs);
        if r != records[i] {
          repaired := repaired + 1;
          flipped := flipped + {i};
          records := records[i := r];
        }
      }
    }
  }
}

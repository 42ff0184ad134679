/** The evidence index: scan past a checkpoint, ingest idempotently (internal/evidence/index.go). */
module Evidence {
  import opened Base
  import opened Outbox

  /** SHA-256 of a payload, idealized: distinct payloads have distinct digests. */
  datatype Digest = Sha256(payload: Payload)

  datatype State = Linked | Quarantined
  datatype Reason = NoReason | UnknownTopic | BrokenLink | ForbiddenContent | MalformedPayload
  datatype Content = Stored(payload: Payload) | Stub(reason: Reason)
  datatype Retention = PlanItem | Change | SnapshotMeta | EventAudit

  /** A row of another module's table that an event may point at. */
  datatype Ref = PlanRef(id: string) | BindingRef(id: string) | ProviderRef(id: string)

  datatype Consumed = Consumed(event: Event, seqNo: nat)

  datatype Record = Record(event: Event, digest: Digest, content: Content, planId: string,
                           retention: Retention, until: nat, state: State, reason: Reason)

  const DAY: nat := 24 * 3600 * 1000

  const BINDING_TOPICS: set<string> :=
    {"binding.published", "binding.suspended", "binding.resumed", "binding.deprecated", "binding.retired"}

  function RetentionFor(topic: string): (Retention, nat) {
    if topic == "plan.resolved" then (PlanItem, 90 * DAY)
    else if topic in BINDING_TOPICS then (Change, 2 * 365 * DAY)
    else if topic == "provider.snapshot-changed" then (SnapshotMeta, 365 * DAY)
    else (EventAudit, 14 * DAY)
  }

  function Violation(p: Payload): Reason {
    if !p.isObject then MalformedPayload
    else if p.redLine then ForbiddenContent
    else NoReason
  }

  /** The row an event of this topic must link to; None for a topic nobody knows. */
  function LinkOf(e: Event): Option<Ref> {
    if e.topic == "plan.resolved" then Some(PlanRef(e.aggregateId))
    else if e.topic in BINDING_TOPICS then Some(BindingRef(e.aggregateId))
    else if e.topic == "provider.snapshot-changed" then Some(ProviderRef(e.aggregateId))
    else None
  }

  /** classify: red line first, then the topic's link. */
  function Classify(e: Event, refs: set<Ref>): Record {
    var (retention, d) := RetentionFor(e.topic);
    var r := Record(e, Sha256(e.payload), Stored(e.payload), if e.topic == "plan.resolved" then e.aggregateId else "",
                    retention, e.createdAt + d, Linked, NoReason);
    var v := Violation(e.payload);
    if v != NoReason then
      r.(state := Quarantined, reason := v, content := Stub(v), planId := e.aggregateId)
    else if LinkOf(e) == None then r.(state := Quarantined, reason := UnknownTopic)
    else if LinkOf(e).value in refs then r
    else r.(state := Quarantined, reason := BrokenLink)
  }

  predicate HasEvent(records: seq<Record>, eventId: string) {
    exists k :: 0 <= k < |records| && records[k].event.eventId == eventId
  }

  /** INSERT ... ON CONFLICT (event_id) DO NOTHING. */
  function IngestOne(records: seq<Record>, refs: set<Ref>, c: Consumed): seq<Record> {
    if HasEvent(records, c.event.eventId) then records else records + [Classify(c.event, refs)]
  }

  function IngestAll(records: seq<Record>, refs: set<Ref>, batch: seq<Consumed>): seq<Record> {
    if batch == [] then records
    else IngestOne(IngestAll(records, refs, batch[..|batch| - 1]), refs, batch[|batch| - 1])
  }

  /** The greatest published_seq of a batch, from 0. */
  function TopSeq(batch: seq<Consumed>): nat {
    if batch == [] then 0 else Max(TopSeq(batch[..|batch| - 1]), batch[|batch| - 1].seqNo)
  }

  /** The upsert of the checkpoint: forward only. */
  function Advance(checkpoints: map<string, nat>, consumer: string, top: nat): map<string, nat> {
    if consumer in checkpoints && checkpoints[consumer] > top then checkpoints
    else checkpoints[consumer := top]
  }

  function Checkpoint(checkpoints: map<string, nat>, consumer: string): nat {
    if consumer in checkpoints then checkpoints[consumer] else 0
  }

  /** The row the repair looks for; it takes any topic LIKE 'binding.%'. */
  function RepairLink(e: Event): Option<Ref> {
    if e.topic == "plan.resolved" then Some(PlanRef(e.aggregateId))
    else if "binding." <= e.topic then Some(BindingRef(e.aggregateId))
    else if e.topic == "provider.snapshot-changed" then Some(ProviderRef(e.aggregateId))
    else None
  }

  /** RepairQuarantined on one record. */
  function Repaired(r: Record, refs: set<Ref>): Record {
    if r.state == Quarantined && r.reason == BrokenLink && RepairLink(r.event).Some? && RepairLink(r.event).value in refs
    then r.(state := Linked, reason := NoReason)
    else r
  }

  function Repair(records: seq<Record>, refs: set<Ref>): seq<Record> {
    seq(|records|, k requires 0 <= k < |records| => Repaired(records[k], refs))
  }

  // ---- one record per event ----

  ghost predicate OnePerEvent(records: seq<Record>) {
    forall i, j :: 0 <= i < j < |records| ==> records[i].event.eventId != records[j].event.eventId
  }

  /** What a stored record may look like: the digest is the payload's, a payload that violates the
      red line is kept as a stub only, and a LINKED record is clean and its link exists. */
  ghost predicate Faithful(r: Record, refs: set<Ref>) {
    && r.digest == Sha256(r.event.payload)
    && r.content == (if Violation(r.event.payload) == NoReason then Stored(r.event.payload)
                     else Stub(Violation(r.event.payload)))
    && (r.state == Linked ==> r.content.Stored? && LinkOf(r.event).Some? && LinkOf(r.event).value in refs)
    && (r.state == Quarantined && r.reason == BrokenLink ==> r.content.Stored? && LinkOf(r.event).Some?)
  }

  ghost predicate AllFaithful(records: seq<Record>, refs: set<Ref>) {
    forall k :: 0 <= k < |records| ==> Faithful(records[k], refs)
  }

  ghost predicate Keeps(a: seq<Record>, b: seq<Record>) {
    |a| <= |b| && forall k :: 0 <= k < |a| ==> b[k].event == a[k].event
  }

  lemma KeepsHasEvent(a: seq<Record>, b: seq<Record>, eventId: string)
    requires Keeps(a, b) && HasEvent(a, eventId)
    ensures HasEvent(b, eventId)
  {
    var k :| 0 <= k < |a| && a[k].event.eventId == eventId;
    assert b[k].event.eventId == eventId;
  }

  lemma IngestOneKeeps(records: seq<Record>, refs: set<Ref>, c: Consumed)
    requires OnePerEvent(records)
    ensures OnePerEvent(IngestOne(records, refs, c))
    ensures Faithful(Classify(c.event, refs), refs) && Classify(c.event, refs).event == c.event
  {
  }

  lemma {:induction false} IngestAllKeeps(records: seq<Record>, refs: set<Ref>, batch: seq<Consumed>)
    requires OnePerEvent(records) && AllFaithful(records, refs)
    ensures var t := IngestAll(records, refs, batch); OnePerEvent(t) && AllFaithful(t, refs) && records <= t
    decreases |batch|
  {
    hide HasEvent, Faithful, OnePerEvent;
    if batch != [] {
      var init, last := batch[..|batch| - 1], batch[|batch| - 1];
      IngestAllKeeps(records, refs, init);
      IngestOneKeeps(IngestAll(records, refs, init), refs, last);
    }
  }

  /** After a batch every event of the batch has exactly one record and nothing was lost. */
  lemma {:induction false} IngestAllCovers(records: seq<Record>, refs: set<Ref>, batch: seq<Consumed>)
    requires OnePerEvent(records) && AllFaithful(records, refs)
    ensures var t := IngestAll(records, refs, batch);
            OnePerEvent(t) && AllFaithful(t, refs) && records <= t
            && forall k :: 0 <= k < |batch| ==> HasEvent(t, batch[k].event.eventId)
    decreases |batch|
  {
    hide OnePerEvent, AllFaithful;
    IngestAllKeeps(records, refs, batch);
    if batch != [] {
      var init, last := batch[..|batch| - 1], batch[|batch| - 1];
      IngestAllCovers(records, refs, init);
      var m, t := IngestAll(records, refs, init), IngestAll(records, refs, batch);
      assert HasEvent(t, last.event.eventId) by {
        if !HasEvent(m, last.event.eventId) { assert t[|m|].event == last.event; }
      }
      forall k | 0 <= k < |batch| ensures HasEvent(t, batch[k].event.eventId) {
        if k < |init| {
          assert init[k] == batch[k];
          KeepsHasEvent(m, t, batch[k].event.eventId);
        }
      }
    }
  }

  ghost predicate FromBatch(r: Record, refs: set<Ref>, batch: seq<Consumed>) {
    exists j :: 0 <= j < |batch| && r == Classify(batch[j].event, refs)
  }

  /** Every record of a batch's result was there before or is the classification of one of the batch. */
  lemma {:induction false} IngestAllAddsOnly(records: seq<Record>, refs: set<Ref>, batch: seq<Consumed>)
    ensures records <= IngestAll(records, refs, batch)
    ensures forall k :: |records| <= k < |IngestAll(records, refs, batch)| ==>
              FromBatch(IngestAll(records, refs, batch)[k], refs, batch)
    decreases |batch|
  {
    if batch != [] {
      var init, n := batch[..|batch| - 1], |batch| - 1;
      IngestAllAddsOnly(records, refs, init);
      var m, t := IngestAll(records, refs, init), IngestAll(records, refs, batch);
      forall k | |records| <= k < |t| ensures FromBatch(t[k], refs, batch) {
        if k < |m| {
          assert FromBatch(m[k], refs, init) && t[k] == m[k];
          var j :| 0 <= j < |init| && m[k] == Classify(init[j].event, refs);
          assert batch[j] == init[j];
        } else {
          assert t[k] == Classify(batch[n].event, refs);
        }
      }
    }
  }

  lemma RepairLinksAlike(e: Event)
    requires LinkOf(e).Some?
    ensures RepairLink(e) == LinkOf(e)
  {
    assert "binding.published"[..8] == "binding." && "binding.suspended"[..8] == "binding.";
    assert "binding.resumed"[..8] == "binding." && "binding.deprecated"[..8] == "binding.";
    assert "binding.retired"[..8] == "binding." && "provider.snapshot-changed"[0] != "binding."[0];
  }

  lemma RepairKeeps(records: seq<Record>, refs: set<Ref>)
    requires OnePerEvent(records) && AllFaithful(records, refs)
    ensures OnePerEvent(Repair(records, refs)) && AllFaithful(Repair(records, refs), refs) && Keeps(records, Repair(records, refs))
  {
    hide LinkOf, RepairLink;
    forall k | 0 <= k < |records| ensures Faithful(Repaired(records[k], refs), refs) {
      assert Faithful(records[k], refs);
      if LinkOf(records[k].event).Some? { RepairLinksAlike(records[k].event); }
    }
  }

  lemma {:induction false} TopSeqBounds(batch: seq<Consumed>)
    ensures forall k :: 0 <= k < |batch| ==> batch[k].seqNo <= TopSeq(batch)
    ensures TopSeq(batch) == 0 || exists k :: 0 <= k < |batch| && batch[k].seqNo == TopSeq(batch)
    decreases |batch|
  {
    if batch != [] {
      var init := batch[..|batch| - 1];
      TopSeqBounds(init);
      assert forall k :: 0 <= k < |init| ==> init[k] == batch[k];
    }
  }
}

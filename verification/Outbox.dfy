/** The transactional outbox and its workers (internal/events/worker.go).
    A worker claims rows under a lease, publishes each one, then settles it with one more
    transaction. Every claimed row is a Call; a call that never settles is a crashed worker, a
    call that settles after its lease ran out is a stale one. */
module Outbox {
  import opened Base

  /** Payload bytes with what the JSON decoder and the red-line scan say about them. */
  datatype Payload = Payload(raw: string, isObject: bool, redLine: bool)

  /** The columns of an outbox row that no worker ever writes. */
  datatype Event = Event(eventId: string, topic: string, payload: Payload, aggregateKind: string,
                         aggregateId: string, revision: nat, tenantRef: string, createdAt: nat)

  datatype Status = Pending | Publishing | Published | Failed

  datatype Row = Row(event: Event, status: Status, attempts: nat, lease: Option<nat>,
                     claimedBy: string, retryAt: Option<nat>, seqNo: Option<nat>)

  /** Worker configuration; times in milliseconds. */
  datatype Worker = Worker(id: string, batch: nat, leaseTTL: nat, retryMax: nat, backoff: nat)

  datatype Answer = Ack | Outage | Reject

  /** One claimed row in the hands of a worker: the attempts it read at claim time, the lease it
      was given, the transport's answer once it has one, and whether the worker still owes a
      settling write. */
  datatype Call = Call(row: nat, attempts: nat, worker: Worker, until: nat, answer: Option<Answer>, open: bool)

  /** rows is the table; calls, acks (rows the transport accepted) and marks (published_seq
      assignments in order) record what the workers did. */
  datatype State = State(now: nat, rows: map<nat, Row>, calls: seq<Call>, acks: set<nat>,
                         marks: seq<(nat, nat)>)

  datatype Step =
    | Tick(ms: nat)
    | Insert(id: nat, event: Event)
    | Claim(worker: Worker, locked: set<nat>)
    | Publish(call: nat, answer: Answer)
    | Settle(call: nat)
    | Crash(call: nat)

  const INIT := State(0, map[], [], {}, [])

  /** A duration written into SQL as whole seconds. */
  function WholeSeconds(ms: nat): nat { ms / 1000 * 1000 }

  predicate Claimable(r: Row, now: nat) {
    || (r.status == Pending && (r.retryAt == None || r.retryAt.value < now))
    || (r.status == Publishing && r.lease.Some? && r.lease.value < now)
  }

  /** The rows one claim takes: lowest ids first, skipping rows another transaction has locked. */
  function ClaimIds(rows: map<nat, Row>, now: nat, w: Worker, locked: set<nat>): seq<nat> {
    Limit(Ascending(set id | id in rows && Claimable(rows[id], now) && id !in locked), w.batch)
  }

  lemma ClaimIdsAreClaimable(rows: map<nat, Row>, now: nat, w: Worker, locked: set<nat>)
    ensures forall id :: id in ClaimIds(rows, now, w, locked) ==>
              id in rows && Claimable(rows[id], now) && id !in locked
  {
    var all := Ascending(set id | id in rows && Claimable(rows[id], now) && id !in locked);
    forall id | id in ClaimIds(rows, now, w, locked)
      ensures id in rows && Claimable(rows[id], now) && id !in locked
    {
      assert id in all;
    }
  }

  function Lease(r: Row, w: Worker, now: nat): Row {
    r.(status := Publishing, lease := Some(now + WholeSeconds(w.leaseTTL)), claimedBy := w.id)
  }

  function LeaseAll(rows: map<nat, Row>, ids: seq<nat>, w: Worker, now: nat): map<nat, Row> {
    map id | id in rows :: if id in ids then Lease(rows[id], w, now) else rows[id]
  }

  function CallFor(rows: map<nat, Row>, id: nat, w: Worker, now: nat): Call {
    Call(id, if id in rows then rows[id].attempts else 0, w, now + WholeSeconds(w.leaseTTL), None, true)
  }

  function CallsFor(rows: map<nat, Row>, ids: seq<nat>, w: Worker, now: nat): seq<Call> {
    seq(|ids|, k requires 0 <= k < |ids| => CallFor(rows, ids[k], w, now))
  }

  ghost predicate Below(rows: map<nat, Row>, m: nat) {
    forall id :: id in rows && rows[id].seqNo.Some? ==> rows[id].seqNo.value <= m
  }

  ghost predicate Reached(rows: map<nat, Row>, m: nat) {
    m == 0 || exists id :: id in rows && rows[id].seqNo == Some(m)
  }

  /** COALESCE(MAX(published_seq), 0) over the table. */
  ghost function MaxSeq(rows: map<nat, Row>): (m: nat)
    ensures Below(rows, m) && Reached(rows, m)
  {
    MaxSeqExists(rows);
    var m: nat :| Below(rows, m) && Reached(rows, m);
    m
  }

  lemma {:induction false} MaxSeqExists(rows: map<nat, Row>)
    ensures exists m: nat :: Below(rows, m) && Reached(rows, m)
    decreases |rows.Keys|
  {
    if rows.Keys == {} {
      assert Below(rows, 0) && Reached(rows, 0);
    } else {
      var id :| id in rows;
      var rest := rows - {id};
      assert rest.Keys == rows.Keys - {id};
      MaxSeqExists(rest);
      var m: nat :| Below(rest, m) && Reached(rest, m);
      var v := if rows[id].seqNo.Some? then Max(m, rows[id].seqNo.value) else m;
      assert forall k :: k in rows ==> k == id || (k in rest && rest[k] == rows[k]);
      assert Below(rows, v) && Reached(rows, v);
    }
  }

  /** The mark statement, run under the watermark lock: only a PUBLISHING row is taken. */
  function Mark(r: Row, seqNo: nat): Row {
    if r.status != Publishing then r
    else r.(status := Published, lease := None, seqNo := Some(seqNo))
  }

  /** Both failure writes put the row back without looking at its status. */
  function PutBack(r: Row, at: nat): Row {
    r.(status := Pending, lease := None, claimedBy := "", attempts := r.attempts + 1, retryAt := Some(at))
  }

  function DeadLetter(r: Row): Row { r.(status := Failed, lease := None) }

  /** The row write that follows the transport's answer. */
  function Settled(r: Row, c: Call, now: nat, seqNo: nat): Row
    requires c.answer.Some?
  {
    match c.answer.value
    case Ack => Mark(r, seqNo)
    case Outage => PutBack(r, now + c.worker.backoff * (c.attempts + 1))
    case Reject =>
      if c.attempts >= c.worker.retryMax then DeadLetter(r)
      else PutBack(r, now + WholeSeconds(c.worker.backoff) * (c.attempts + 1))
  }

  /** A refused step (no such call, duplicate key) changes nothing. */
  ghost function Apply(s: State, step: Step): State {
    match step
    case Tick(ms) => s.(now := s.now + ms)
    case Insert(id, e) =>
      if id in s.rows || (exists k :: k in s.rows && s.rows[k].event.eventId == e.eventId) then s
      else s.(rows := s.rows[id := Row(e, Pending, 0, None, "", None, None)])
    case Claim(w, locked) =>
      var ids := ClaimIds(s.rows, s.now, w, locked);
      s.(rows := LeaseAll(s.rows, ids, w, s.now), calls := s.calls + CallsFor(s.rows, ids, w, s.now))
    case Publish(c, a) =>
      if c < |s.calls| && s.calls[c].open && s.calls[c].answer == None then
        s.(calls := s.calls[c := s.calls[c].(answer := Some(a))],
           acks := if a == Ack then s.acks + {s.calls[c].row} else s.acks)
      else s
    case Settle(c) =>
      if c < |s.calls| && s.calls[c].open && s.calls[c].answer.Some? && s.calls[c].row in s.rows then
        var call, seqNo := s.calls[c], MaxSeq(s.rows) + 1;
        var r := Settled(s.rows[call.row], call, s.now, seqNo);
        s.(rows := s.rows[call.row := r],
           calls := s.calls[c := call.(open := false)],
           marks := if r.seqNo == Some(seqNo) then s.marks + [(call.row, seqNo)] else s.marks)
      else s
    case Crash(c) =>
      if c < |s.calls| then s.(calls := s.calls[c := s.calls[c].(open := false)]) else s
  }

  ghost function Run(s: State, steps: seq<Step>): State
    decreases steps
  {
    if steps == [] then s else Run(Apply(s, steps[0]), steps[1..])
  }

  lemma {:induction false} RunConcat(s: State, a: seq<Step>, b: seq<Step>)
    ensures Run(s, a + b) == Run(Run(s, a), b)
    decreases a
  {
    if a == [] {
      assert a + b == b;
    } else {
      assert (a + b)[0] == a[0] && (a + b)[1..] == a[1..] + b;
      RunConcat(Apply(s, a[0]), a[1..], b);
    }
  }

  // ---- what every step keeps ----

  ghost predicate UniqueEvents(rows: map<nat, Row>) {
    forall i, j :: i in rows && j in rows && rows[i].event.eventId == rows[j].event.eventId ==> i == j
  }

  ghost predicate UniqueSeqs(rows: map<nat, Row>) {
    forall i, j :: i in rows && j in rows && rows[i].seqNo.Some? && rows[i].seqNo == rows[j].seqNo ==> i == j
  }

  /** A PUBLISHED row has a published_seq, and published_seq is positive. */
  ghost predicate SeqsSet(rows: map<nat, Row>) {
    forall i :: i in rows ==>
      (rows[i].status == Published ==> rows[i].seqNo.Some?) && (rows[i].seqNo.Some? ==> rows[i].seqNo.value > 0)
  }

  /** Call c is the reason row id may be dead-lettered. */
  ghost predicate Condemns(c: Call, id: nat) {
    c.row == id && c.answer == Some(Reject) && c.attempts >= c.worker.retryMax
  }

  ghost predicate Condemned(calls: seq<Call>, id: nat) {
    exists c :: 0 <= c < |calls| && Condemns(calls[c], id)
  }

  ghost predicate CallOk(c: Call, rows: map<nat, Row>, acks: set<nat>) {
    && c.row in rows
    && c.attempts <= rows[c.row].attempts
    && (c.answer == Some(Ack) ==> c.row in acks)
  }

  /** What the table says about the calls: PUBLISHED was accepted by the transport, FAILED was
      refused after enough attempts. */
  ghost predicate RowJustified(r: Row, id: nat, calls: seq<Call>, acks: set<nat>) {
    && (r.status == Published ==> id in acks)
    && (r.status == Failed ==> Condemned(calls, id))
  }

  ghost predicate CallsOk(rows: map<nat, Row>, calls: seq<Call>, acks: set<nat>) {
    && (forall c :: 0 <= c < |calls| ==> CallOk(calls[c], rows, acks))
    && (forall i :: i in rows ==> RowJustified(rows[i], i, calls, acks))
  }

  /** Watermarks are handed out in strictly increasing order, never above the table's maximum,
      and every published_seq was handed out. */
  ghost predicate MarksOk(rows: map<nat, Row>, marks: seq<(nat, nat)>) {
    && (forall i, j :: 0 <= i < j < |marks| ==> marks[i].1 < marks[j].1)
    && (forall i :: 0 <= i < |marks| ==> marks[i].1 <= MaxSeq(rows))
    && (forall id :: id in rows && rows[id].seqNo.Some? ==> (id, rows[id].seqNo.value) in marks)
  }

  ghost predicate Inv(s: State) {
    UniqueEvents(s.rows) && UniqueSeqs(s.rows) && SeqsSet(s.rows) && CallsOk(s.rows, s.calls, s.acks) && MarksOk(s.rows, s.marks)
  }

  /** No row is lost; no event is rewritten; attempts and published_seq never go down. */
  ghost predicate RowGrows(a: Row, b: Row) {
    && b.event == a.event
    && a.attempts <= b.attempts
    && (a.seqNo.Some? ==> b.seqNo.Some? && a.seqNo.value <= b.seqNo.value)
  }

  ghost predicate Grows(a: map<nat, Row>, b: map<nat, Row>) {
    forall id :: id in a ==> id in b && RowGrows(a[id], b[id])
  }

  lemma GrowsRaisesMax(a: map<nat, Row>, b: map<nat, Row>)
    requires Grows(a, b)
    ensures MaxSeq(a) <= MaxSeq(b)
  {
    if MaxSeq(a) != 0 {
      var id :| id in a && a[id].seqNo == Some(MaxSeq(a));
      assert RowGrows(a[id], b[id]);
    }
  }

  lemma SettledGrows(r: Row, c: Call, now: nat, seqNo: nat)
    requires c.answer.Some? && (r.seqNo.Some? ==> r.seqNo.value <= seqNo)
    ensures RowGrows(r, Settled(r, c, now, seqNo))
    ensures Settled(r, c, now, seqNo).seqNo in {r.seqNo, Some(seqNo)}
    ensures Settled(r, c, now, seqNo).status == Published ==>
              r.status == Published || (c.answer == Some(Ack) && Settled(r, c, now, seqNo).seqNo == Some(seqNo))
    ensures Settled(r, c, now, seqNo).status == Failed ==> r.status == Failed || Condemns(c, c.row)
  {
  }

  lemma StepGrows(s: State, step: Step)
    ensures Grows(s.rows, Apply(s, step).rows)
  {
    hide ClaimIds, Settled;
    match step {
      case Settle(c) =>
        if c < |s.calls| && s.calls[c].answer.Some? && s.calls[c].row in s.rows {
          SettledGrows(s.rows[s.calls[c].row], s.calls[c], s.now, MaxSeq(s.rows) + 1);
        }
      case _ =>
    }
  }

  lemma GrowingKeepsEvents(a: map<nat, Row>, b: map<nat, Row>)
    requires UniqueEvents(a) && Grows(a, b) && a.Keys == b.Keys
    ensures UniqueEvents(b)
  {
    forall i, j | i in b && j in b && b[i].event.eventId == b[j].event.eventId ensures i == j {
      assert RowGrows(a[i], b[i]) && RowGrows(a[j], b[j]);
    }
  }

  lemma StepKeepsEvents(s: State, step: Step)
    requires UniqueEvents(s.rows)
    ensures UniqueEvents(Apply(s, step).rows)
  {
    hide ClaimIds, Settled;
    StepGrows(s, step);
    match step {
      case Insert(id, e) =>
      case _ => GrowingKeepsEvents(s.rows, Apply(s, step).rows);
    }
  }

  /** One row written with its old published_seq or with one above every other. */
  lemma WriteKeepsSeqs(rows: map<nat, Row>, m: nat, id: nat, r: Row)
    requires UniqueSeqs(rows) && SeqsSet(rows) && Below(rows, m) && id in rows
    requires r.seqNo == rows[id].seqNo || r.seqNo == Some(m + 1)
    requires r.status == Published ==> r.seqNo.Some?
    ensures UniqueSeqs(rows[id := r]) && SeqsSet(rows[id := r])
  {
    var t := rows[id := r];
    forall i, j | i in t && j in t && t[i].seqNo.Some? && t[i].seqNo == t[j].seqNo ensures i == j {
      if i != id && j != id {
        assert rows[i].seqNo == rows[j].seqNo;
      } else if i != j {
        assert false;
      }
    }
  }

  lemma LeasingKeepsSeqs(rows: map<nat, Row>, ids: seq<nat>, w: Worker, now: nat)
    requires UniqueSeqs(rows) && SeqsSet(rows)
    ensures UniqueSeqs(LeaseAll(rows, ids, w, now)) && SeqsSet(LeaseAll(rows, ids, w, now))
  {
    var t := LeaseAll(rows, ids, w, now);
    forall i, j | i in t && j in t && t[i].seqNo.Some? && t[i].seqNo == t[j].seqNo ensures i == j {
      assert rows[i].seqNo == t[i].seqNo && rows[j].seqNo == t[j].seqNo;
    }
  }

  lemma StepKeepsSeqs(s: State, step: Step)
    requires UniqueSeqs(s.rows) && SeqsSet(s.rows)
    ensures UniqueSeqs(Apply(s, step).rows) && SeqsSet(Apply(s, step).rows)
  {
    hide ClaimIds, Settled;
    match step {
      case Settle(c) =>
        if c < |s.calls| && s.calls[c].answer.Some? && s.calls[c].row in s.rows {
          var call := s.calls[c];
          SettledGrows(s.rows[call.row], call, s.now, MaxSeq(s.rows) + 1);
          WriteKeepsSeqs(s.rows, MaxSeq(s.rows), call.row, Settled(s.rows[call.row], call, s.now, MaxSeq(s.rows) + 1));
        }
      case Claim(w, locked) => LeasingKeepsSeqs(s.rows, ClaimIds(s.rows, s.now, w, locked), w, s.now);
      case _ =>
    }
  }

  /** Later call tables keep every verdict. */
  lemma CallsPersist(a: seq<Call>, b: seq<Call>)
    requires |a| <= |b|
    requires forall k :: 0 <= k < |a| ==>
               b[k].row == a[k].row && b[k].attempts == a[k].attempts && b[k].worker == a[k].worker
    requires forall k :: 0 <= k < |a| && a[k].answer.Some? ==> b[k].answer == a[k].answer
    ensures forall id :: Condemned(a, id) ==> Condemned(b, id)
  {
    forall id | Condemned(a, id) ensures Condemned(b, id) {
      var c :| 0 <= c < |a| && Condemns(a[c], id);
      assert Condemns(b[c], id);
    }
  }

  /** One justified row write, with the calls that made it. */
  lemma WriteKeepsCalls(rows: map<nat, Row>, calls: seq<Call>, acks: set<nat>, id: nat, r: Row, c: nat)
    requires CallsOk(rows, calls, acks) && id in rows && RowGrows(rows[id], r) && c < |calls|
    requires r.status == Published ==> id in acks
    requires r.status == Failed ==> rows[id].status == Failed || Condemns(calls[c], id)
    ensures CallsOk(rows[id := r], calls[c := calls[c].(open := false)], acks)
  {
    var after := calls[c := calls[c].(open := false)];
    CallsPersist(calls, after);
    if Condemns(calls[c], id) { assert Condemns(after[c], id); }
    var t := rows[id := r];
    forall i | i in t ensures RowJustified(t[i], i, after, acks) {
      assert RowJustified(rows[i], i, calls, acks);
    }
    forall k | 0 <= k < |after| ensures CallOk(after[k], t, acks) {
      assert CallOk(calls[k], rows, acks);
    }
  }

  lemma SettleKeepsCalls(s: State, c: nat)
    requires CallsOk(s.rows, s.calls, s.acks)
    ensures var t := Apply(s, Settle(c)); CallsOk(t.rows, t.calls, t.acks)
  {
    if c < |s.calls| && s.calls[c].open && s.calls[c].answer.Some? && s.calls[c].row in s.rows {
      var call := s.calls[c];
      var r := Settled(s.rows[call.row], call, s.now, MaxSeq(s.rows) + 1);
      SettledGrows(s.rows[call.row], call, s.now, MaxSeq(s.rows) + 1);
      assert RowJustified(s.rows[call.row], call.row, s.calls, s.acks);
      assert CallOk(s.calls[c], s.rows, s.acks);
      WriteKeepsCalls(s.rows, s.calls, s.acks, call.row, r, c);
    }
  }

  lemma ClaimKeepsCalls(s: State, w: Worker, locked: set<nat>)
    requires CallsOk(s.rows, s.calls, s.acks)
    ensures var t := Apply(s, Claim(w, locked)); CallsOk(t.rows, t.calls, t.acks)
  {
    hide ClaimIds;
    var t := Apply(s, Claim(w, locked));
    var ids := ClaimIds(s.rows, s.now, w, locked);
    ClaimIdsAreClaimable(s.rows, s.now, w, locked);
    CallsPersist(s.calls, t.calls);
    forall i | i in t.rows ensures RowJustified(t.rows[i], i, t.calls, t.acks) {
      assert RowJustified(s.rows[i], i, s.calls, s.acks);
    }
    forall k | 0 <= k < |t.calls| ensures CallOk(t.calls[k], t.rows, t.acks) {
      if k < |s.calls| {
        assert CallOk(s.calls[k], s.rows, s.acks);
      } else {
        assert ids[k - |s.calls|] in ids;
      }
    }
  }

  lemma StepKeepsCalls(s: State, step: Step)
    requires CallsOk(s.rows, s.calls, s.acks)
    ensures var t := Apply(s, step); CallsOk(t.rows, t.calls, t.acks)
  {
    match step {
      case Settle(c) => SettleKeepsCalls(s, c);
      case Claim(w, locked) => ClaimKeepsCalls(s, w, locked);
      case Tick(_) =>
      case _ =>
        var t := Apply(s, step);
        CallsPersist(s.calls, t.calls);
        forall i | i in t.rows ensures RowJustified(t.rows[i], i, t.calls, t.acks) {
          assert i in s.rows ==> RowJustified(s.rows[i], i, s.calls, s.acks);
        }
        forall k | 0 <= k < |t.calls| ensures CallOk(t.calls[k], t.rows, t.acks) {
          assert CallOk(s.calls[k], s.rows, s.acks);
        }
    }
  }

  lemma MarkingKeepsMarks(rows: map<nat, Row>, marks: seq<(nat, nat)>, id: nat, r: Row)
    requires MarksOk(rows, marks) && id in rows && r.seqNo == Some(MaxSeq(rows) + 1)
    ensures MarksOk(rows[id := r], marks + [(id, MaxSeq(rows) + 1)])
  {
    var t, m := rows[id := r], MaxSeq(rows) + 1;
    assert t[id].seqNo.value <= MaxSeq(t);
    var after := marks + [(id, m)];
    assert after[|marks|] == (id, m);
    forall i | i in t && t[i].seqNo.Some? ensures (i, t[i].seqNo.value) in after {
      assert i != id ==> (i, rows[i].seqNo.value) in marks;
    }
  }

  lemma OtherWritesKeepMarks(rows: map<nat, Row>, marks: seq<(nat, nat)>, t: map<nat, Row>)
    requires MarksOk(rows, marks) && Grows(rows, t)
    requires forall id :: id in t && t[id].seqNo.Some? ==> id in rows && rows[id].seqNo == t[id].seqNo
    ensures MarksOk(t, marks)
  {
    GrowsRaisesMax(rows, t);
  }

  lemma StepKeepsMarks(s: State, step: Step)
    requires MarksOk(s.rows, s.marks)
    ensures var t := Apply(s, step); MarksOk(t.rows, t.marks)
  {
    var t := Apply(s, step);
    StepGrows(s, step);
    if |t.marks| != |s.marks| {
      var call := s.calls[step.call];
      MarkingKeepsMarks(s.rows, s.marks, call.row, t.rows[call.row]);
    } else {
      SameSeqs(s, step);
      OtherWritesKeepMarks(s.rows, s.marks, t.rows);
    }
  }

  /** A step that hands out no watermark leaves every published_seq as it was. */
  lemma SameSeqs(s: State, step: Step)
    requires |Apply(s, step).marks| == |s.marks|
    ensures forall id :: id in Apply(s, step).rows && Apply(s, step).rows[id].seqNo.Some? ==>
              id in s.rows && s.rows[id].seqNo == Apply(s, step).rows[id].seqNo
  {
    hide ClaimIds, Settled;
    match step {
      case Settle(c) =>
        if c < |s.calls| && s.calls[c].open && s.calls[c].answer.Some? && s.calls[c].row in s.rows {
          var call := s.calls[c];
          var r := Settled(s.rows[call.row], call, s.now, MaxSeq(s.rows) + 1);
          SettledGrows(s.rows[call.row], call, s.now, MaxSeq(s.rows) + 1);
          assert Apply(s, step).rows == s.rows[call.row := r];
        }
      case _ =>
    }
  }

  lemma StepKeepsInv(s: State, step: Step)
    requires Inv(s)
    ensures Inv(Apply(s, step))
  {
    StepKeepsEvents(s, step);
    StepKeepsSeqs(s, step);
    StepKeepsCalls(s, step);
    StepKeepsMarks(s, step);
  }
}

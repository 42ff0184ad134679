/** Retries: when a row is claimed again, how its attempts are counted, and when refusals end in FAILED. */
module OutboxRetries {
  import opened Base
  import opened Outbox
  import opened OutboxRuns

  // ---- one failure write ----

  /** The open call c has its answer, and its row is there to be written. */
  predicate Settles(s: State, c: nat) {
    c < |s.calls| && s.calls[c].open && s.calls[c].answer.Some? && s.calls[c].row in s.rows
  }

  /** The refusal comes when the attempts its call has read are used up. */
  predicate Final(c: Call) { c.answer == Some(Reject) && c.attempts >= c.worker.retryMax }

  /** An outage or a refusal that is not final. */
  predicate Transient(c: Call) { c.answer == Some(Outage) || (c.answer == Some(Reject) && c.attempts < c.worker.retryMax) }

  /** How long the row then waits. */
  function Delay(c: Call): nat {
    (c.attempts + 1) * if c.answer == Some(Outage) then c.worker.backoff else c.worker.backoff / 1000 * 1000
  }

  /** A final refusal leaves the row FAILED with its attempts; an outage or another refusal leaves it
      PENDING, free, with one attempt more, until the back-off has passed. */
  lemma FailureWrites(s: State, c: nat)
    requires Settles(s, c) && s.calls[c].answer != Some(Ack)
    ensures var id, was, call := s.calls[c].row, s.rows[s.calls[c].row], s.calls[c];
            var t := Apply(s, Settle(c));
            && t.rows.Keys == s.rows.Keys && (forall j :: j in s.rows && j != id ==> t.rows[j] == s.rows[j])
            && !t.calls[c].open
            && (Final(call) ==> t.rows[id].status == Failed && t.rows[id].attempts == was.attempts)
            && (Transient(call) ==>
                  && t.rows[id].status == Pending && t.rows[id].attempts == was.attempts + 1
                  && t.rows[id].lease == None && t.rows[id].claimedBy == ""
                  && t.rows[id].retryAt == Some(s.now + Delay(call)))
            && (Final(call) || Transient(call))
  {
    var call := s.calls[c];
    assert call.worker.backoff * (call.attempts + 1) == (call.attempts + 1) * call.worker.backoff;
  }

  /** The mark takes a row that is still PUBLISHING and gives it the number after every one handed out so far;
      any other row it leaves alone. */
  lemma MarkWrites(s: State, c: nat)
    requires Settles(s, c) && s.calls[c].answer == Some(Ack)
    ensures var id, t := s.calls[c].row, Apply(s, Settle(c));
            && t.rows.Keys == s.rows.Keys && (forall j :: j in s.rows && j != id ==> t.rows[j] == s.rows[j])
            && !t.calls[c].open
            && (s.rows[id].status != Publishing ==> t.rows[id] == s.rows[id] && t.marks == s.marks)
            && (s.rows[id].status == Publishing ==>
                  && t.rows[id].status == Published && t.rows[id].lease == None && t.rows[id].seqNo.Some?
                  && t.marks == s.marks + [(id, t.rows[id].seqNo.value)]
                  && IsNext(s.rows, t.rows[id].seqNo.value))
  {
  }

  predicate Has(rows: map<nat, Row>, seqNo: nat) { exists j :: j in rows && rows[j].seqNo == Some(seqNo) }

  /** One more than the greatest published_seq, or 1 when there is none. */
  ghost predicate IsNext(rows: map<nat, Row>, n: nat) {
    n > 0 && (n == 1 || Has(rows, n - 1)) && forall j :: j in rows && rows[j].seqNo.Some? ==> rows[j].seqNo.value < n
  }

  /** A row goes in exactly when its id and its event id are new; it waits to be claimed at once. */
  lemma InsertWrites(s: State, id: nat, e: Event)
    ensures var t := Apply(s, Insert(id, e));
            if id !in s.rows && forall j :: j in s.rows ==> s.rows[j].event.eventId != e.eventId
            then t.rows.Keys == s.rows.Keys + {id} && (forall j :: j in s.rows ==> t.rows[j] == s.rows[j])
                 && t.rows[id].event == e && t.rows[id].attempts == 0 && t.rows[id].seqNo == None && Ready(t.rows[id], t.now)
            else t == s
  {
  }

  /** The transport is asked once per open call; its answer is kept, and an acceptance noted. */
  lemma AnswersExactly(s: State, c: nat, answer: Answer)
    ensures var t := Apply(s, Publish(c, answer));
            if c < |s.calls| && s.calls[c].open && s.calls[c].answer == None
            then t == s.(calls := s.calls[c := s.calls[c].(answer := Some(answer))],
                         acks := if answer == Ack then s.acks + {s.calls[c].row} else s.acks)
            else t == s
  {
  }

  /** An event that a worker claims, and that the transport then accepts, is PUBLISHED by its mark. */
  lemma AcceptedIsPublished(s: State, w: Worker, locked: set<nat>, id: nat) returns (c: nat)
    requires id in s.rows && Ready(s.rows[id], s.now) && id !in locked && |Ahead(s, locked, id)| < w.batch
    ensures var t := Run(s, [Claim(w, locked), Publish(c, Ack), Settle(c)]);
            id in t.rows && t.rows[id].status == Published && t.rows[id].event == s.rows[id].event && id in t.acks
  {
    hide ClaimIds, IsNext;
    var m := Apply(s, Claim(w, locked));
    ClaimTakesExactly(s, w, locked, id);
    c :| |s.calls| <= c < |m.calls| && m.calls[c].row == id;
    StepGrows(s, Claim(w, locked));
    var p := Apply(m, Publish(c, Ack));
    MarkWrites(p, c);
    StepGrows(p, Settle(c));
    RunOfTwo(s, Claim(w, locked), Publish(c, Ack));
    RunConcat(s, [Claim(w, locked), Publish(c, Ack)], [Settle(c)]);
    assert [Settle(c)][1..] == [];
    assert Run(p, [Settle(c)]) == Run(Apply(p, Settle(c)), []);
    assert [Claim(w, locked), Publish(c, Ack), Settle(c)] == [Claim(w, locked), Publish(c, Ack)] + [Settle(c)];
  }

  // ---- attempts are the put-backs ----

  /** The step puts row id back. */
  predicate PutsBack(s: State, step: Step, id: nat) {
    step.Settle? && Settles(s, step.call) && s.calls[step.call].row == id && Transient(s.calls[step.call])
  }

  /** How often a run puts row id back. */
  ghost function PutBacks(s: State, steps: seq<Step>, id: nat): nat
    decreases steps
  {
    if steps == [] then 0
    else (if PutsBack(s, steps[0], id) then 1 else 0) + PutBacks(Apply(s, steps[0]), steps[1..], id)
  }

  function Attempts(s: State, id: nat): nat { if id in s.rows then s.rows[id].attempts else 0 }

  lemma SettleOther(s: State, c: nat, id: nat)
    requires c < |s.calls| ==> s.calls[c].row != id
    ensures id in Apply(s, Settle(c)).rows <==> id in s.rows
    ensures id in s.rows ==> Apply(s, Settle(c)).rows[id] == s.rows[id]
  {
    hide Settled;
  }

  lemma StepCountsAttempts(s: State, step: Step, id: nat)
    ensures Attempts(Apply(s, step), id) == Attempts(s, id) + if PutsBack(s, step, id) then 1 else 0
  {
    hide ClaimIds;
    match step {
      case Settle(c) =>
        if c >= |s.calls| || s.calls[c].row != id {
          SettleOther(s, c, id);
        } else if Settles(s, c) && s.calls[c].answer != Some(Ack) {
          FailureWrites(s, c);
        }
      case _ =>
    }
  }

  lemma {:induction false} RunCountsAttempts(s: State, steps: seq<Step>, id: nat)
    ensures Attempts(Run(s, steps), id) == Attempts(s, id) + PutBacks(s, steps, id)
    decreases steps
  {
    hide Apply, PutsBack, Attempts;
    if steps != [] {
      StepCountsAttempts(s, steps[0], id);
      RunCountsAttempts(Apply(s, steps[0]), steps[1..], id);
    }
  }

  /** Over every run a row's attempts are the outages and non-final refusals that put it back. */
  lemma AttemptsAreThePutBacks(steps: seq<Step>, id: nat)
    requires id in Run(INIT, steps).rows
    ensures Run(INIT, steps).rows[id].attempts == PutBacks(INIT, steps, id)
  {
    RunCountsAttempts(INIT, steps, id);
  }

  // ---- refused again and again ----

  predicate SettlesRow(s: State, step: Step, id: nat) {
    step.Settle? && Settles(s, step.call) && s.calls[step.call].row == id
  }

  /** Whatever settles row id was refused, by a worker of budget n that had read the row's attempts. */
  predicate OnlyRefused(s: State, step: Step, id: nat, n: nat) {
    SettlesRow(s, step, id) ==>
      && s.calls[step.call].answer == Some(Reject)
      && s.calls[step.call].worker.retryMax == n
      && s.calls[step.call].attempts == s.rows[id].attempts
  }

  ghost predicate AlwaysRefused(s: State, steps: seq<Step>, id: nat, n: nat)
    decreases steps
  {
    steps == [] || (OnlyRefused(s, steps[0], id, n) && AlwaysRefused(Apply(s, steps[0]), steps[1..], id, n))
  }

  /** How often a run settles row id. */
  ghost function Settlements(s: State, steps: seq<Step>, id: nat): nat
    decreases steps
  {
    if steps == [] then 0
    else (if SettlesRow(s, steps[0], id) then 1 else 0) + Settlements(Apply(s, steps[0]), steps[1..], id)
  }

  /** After k refusals by workers of budget n. */
  ghost predicate RefusedTimes(s: State, id: nat, n: nat, k: nat) {
    if id !in s.rows then k == 0
    else
      && s.rows[id].attempts == (if k <= n then k else n)
      && (s.rows[id].status == Failed <==> k > n)
      && s.rows[id].status != Published
  }

  lemma LeasingSparesFailed(s: State, w: Worker, locked: set<nat>, id: nat)
    requires id in s.rows
    ensures var r := Apply(s, Claim(w, locked)).rows[id];
            r.attempts == s.rows[id].attempts && (r.status == Failed <==> s.rows[id].status == Failed)
            && (r.status == Published ==> s.rows[id].status == Published)
  {
    hide ClaimIds;
    ClaimIdsAreClaimable(s.rows, s.now, w, locked);
  }

  lemma StepCountsRefusals(s: State, step: Step, id: nat, n: nat, k: nat)
    requires RefusedTimes(s, id, n, k) && OnlyRefused(s, step, id, n)
    ensures RefusedTimes(Apply(s, step), id, n, if SettlesRow(s, step, id) then k + 1 else k)
  {
    hide ClaimIds;
    match step {
      case Claim(w, locked) => if id in s.rows { LeasingSparesFailed(s, w, locked, id); }
      case Settle(c) =>
        if c >= |s.calls| || s.calls[c].row != id {
          SettleOther(s, c, id);
        } else if Settles(s, c) {
          FailureWrites(s, c);
        }
      case _ =>
    }
  }

  lemma {:induction false} RunCountsRefusals(s: State, steps: seq<Step>, id: nat, n: nat, k: nat)
    requires RefusedTimes(s, id, n, k) && AlwaysRefused(s, steps, id, n)
    ensures RefusedTimes(Run(s, steps), id, n, k + Settlements(s, steps, id))
    decreases steps
  {
    hide Apply, SettlesRow, OnlyRefused, RefusedTimes;
    if steps != [] {
      StepCountsRefusals(s, steps[0], id, n, k);
      RunCountsRefusals(Apply(s, steps[0]), steps[1..], id, n, if SettlesRow(s, steps[0], id) then k + 1 else k);
    }
  }

  /** An event that the transport refuses every time is FAILED exactly from its (n + 1)-th refusal on. */
  lemma RefusedUntilFailed(steps: seq<Step>, id: nat, n: nat)
    requires AlwaysRefused(INIT, steps, id, n) && id in Run(INIT, steps).rows
    ensures Run(INIT, steps).rows[id].status == Failed <==> Settlements(INIT, steps, id) > n
    ensures Run(INIT, steps).rows[id].attempts == var k := Settlements(INIT, steps, id); if k <= n then k else n
  {
    hide Run, AlwaysRefused, Settlements;
    RunCountsRefusals(INIT, steps, id, n, 0);
  }

  // ---- what a claim takes ----

  /** The row may be worked on: it waits and its retry time, if any, is over, or its lease has run out. */
  predicate Ready(r: Row, now: nat) {
    match r.status
    case Pending => r.retryAt.None? || r.retryAt.value < now
    case Publishing => r.lease.Some? && r.lease.value < now
    case _ => false
  }

  /** The ready, unlocked rows before row id. */
  function Ahead(s: State, locked: set<nat>, id: nat): set<nat> {
    set j | j in s.rows && j < id && j !in locked && Ready(s.rows[j], s.now)
  }

  /** A claim takes a row exactly when it is ready, nobody has locked it, and there is room for it in the
      batch after the ready rows before it; it leases the row and opens a call that has read its attempts. */
  lemma ClaimTakesExactly(s: State, w: Worker, locked: set<nat>, id: nat)
    requires id in s.rows
    ensures var t := Apply(s, Claim(w, locked));
            var taken := exists c :: |s.calls| <= c < |t.calls| && t.calls[c].row == id;
            && (taken <==> Ready(s.rows[id], s.now) && id !in locked && |Ahead(s, locked, id)| < w.batch)
            && (taken ==> && t.rows[id].status == Publishing && t.rows[id].claimedBy == w.id
                          && t.rows[id].lease == Some(s.now + w.leaseTTL / 1000 * 1000))
            && (!taken ==> t.rows[id] == s.rows[id])
            && (forall c :: |s.calls| <= c < |t.calls| && t.calls[c].row == id ==>
                  t.calls[c] == Call(id, s.rows[id].attempts, w, s.now + w.leaseTTL / 1000 * 1000, None, true))
  {
    hide ClaimIds;
    ClaimIdsExactly(s, w, locked, id);
    TakenAreInIds(s, w, locked, id);
  }

  lemma ClaimIdsExactly(s: State, w: Worker, locked: set<nat>, id: nat)
    requires id in s.rows
    ensures id in ClaimIds(s.rows, s.now, w, locked)
      <==> Ready(s.rows[id], s.now) && id !in locked && |Ahead(s, locked, id)| < w.batch
  {
    hide Ascending, Limit;
    var all := set j | j in s.rows && Claimable(s.rows[j], s.now) && j !in locked;
    ClaimIdsAreClaimable(s.rows, s.now, w, locked);
    if id in all {
      AmongTheFirst(all, w.batch, id);
      assert Under(all, id) == Ahead(s, locked, id);
    }
  }

  lemma TakenAreInIds(s: State, w: Worker, locked: set<nat>, id: nat)
    ensures var t := Apply(s, Claim(w, locked));
            (exists c :: |s.calls| <= c < |t.calls| && t.calls[c].row == id) <==> id in ClaimIds(s.rows, s.now, w, locked)
  {
    hide ClaimIds;
    var t, ids, n := Apply(s, Claim(w, locked)), ClaimIds(s.rows, s.now, w, locked), |s.calls|;
    if id in ids {
      var k :| 0 <= k < |ids| && ids[k] == id;
      assert t.calls[n + k].row == id;
    }
    if c :| n <= c < |t.calls| && t.calls[c].row == id { assert ids[c - n] == id; }
  }

  ghost predicate Unsettled(s: State, steps: seq<Step>, id: nat)
    decreases steps
  {
    steps == [] || (!SettlesRow(s, steps[0], id) && Unsettled(Apply(s, steps[0]), steps[1..], id))
  }

  lemma StepLetsItWait(s: State, step: Step, id: nat, at: nat)
    requires id in s.rows && s.rows[id].status == Pending && s.rows[id].retryAt == Some(at) && s.now <= at
    requires !SettlesRow(s, step, id)
    ensures id in Apply(s, step).rows && Apply(s, step).rows[id] == s.rows[id] && s.now <= Apply(s, step).now
  {
    hide ClaimIds, Settled;
    match step {
      case Claim(w, locked) => ClaimIdsAreClaimable(s.rows, s.now, w, locked);
      case _ =>
    }
  }

  lemma {:induction false} TimePasses(s: State, steps: seq<Step>)
    ensures s.now <= Run(s, steps).now
    decreases steps
  {
    if steps != [] { TimePasses(Apply(s, steps[0]), steps[1..]); }
  }

  /** A row that was put back is left alone by everybody until its retry time has passed. */
  lemma {:induction false} WaitsForItsRetry(s: State, steps: seq<Step>, id: nat, at: nat)
    requires id in s.rows && s.rows[id].status == Pending && s.rows[id].retryAt == Some(at)
    requires Unsettled(s, steps, id) && Run(s, steps).now <= at
    ensures id in Run(s, steps).rows && Run(s, steps).rows[id] == s.rows[id]
    decreases steps
  {
    hide Apply, SettlesRow;
    if steps != [] {
      TimePasses(s, steps);
      StepLetsItWait(s, steps[0], id, at);
      WaitsForItsRetry(Apply(s, steps[0]), steps[1..], id, at);
    }
  }
}

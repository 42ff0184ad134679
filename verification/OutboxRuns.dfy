/** What holds of the outbox over whole runs: the row lifecycle, and when PUBLISHED is final. */
module OutboxRuns {
  import opened Base
  import opened Outbox

  lemma {:induction false} RunKeepsInv(s: State, steps: seq<Step>)
    requires Inv(s)
    ensures Inv(Run(s, steps))
    decreases steps
  {
    if steps != [] {
      StepKeepsInv(s, steps[0]);
      RunKeepsInv(Apply(s, steps[0]), steps[1..]);
    }
  }

  lemma InitHolds()
    ensures Inv(INIT)
  {
  }

  /** A PUBLISHED row was accepted by the transport; a FAILED row was refused (not merely
      unreachable) when its claim had used up the attempts; watermarks are distinct and were handed
      out in increasing order. */
  lemma Lifecycle(steps: seq<Step>, id: nat)
    requires id in Run(INIT, steps).rows
    ensures var t := Run(INIT, steps);
            && (t.rows[id].status == Published ==> id in t.acks && t.rows[id].seqNo.Some?)
            && (t.rows[id].status == Failed ==> Condemned(t.calls, id))
            && (t.rows[id].seqNo.Some? ==> (id, t.rows[id].seqNo.value) in t.marks)
            && (forall i, j :: 0 <= i < j < |t.marks| ==> t.marks[i].1 < t.marks[j].1)
            && (forall j :: j in t.rows && j != id && t.rows[id].seqNo.Some? ==> t.rows[j].seqNo != t.rows[id].seqNo)
  {
    InitHolds();
    RunKeepsInv(INIT, steps);
    var t := Run(INIT, steps);
    assert RowJustified(t.rows[id], id, t.calls, t.acks);
  }

  lemma GrowsTrans(a: map<nat, Row>, b: map<nat, Row>, c: map<nat, Row>)
    requires Grows(a, b) && Grows(b, c)
    ensures Grows(a, c)
  {
    forall id | id in a ensures id in c && RowGrows(a[id], c[id]) {
      assert RowGrows(a[id], b[id]);
    }
  }

  /** Rows are never lost, events never rewritten, attempts and published_seq never lowered. */
  lemma {:induction false} RowsAreNeverLost(s: State, steps: seq<Step>)
    ensures Grows(s.rows, Run(s, steps).rows)
    decreases steps
  {
    if steps != [] {
      var m := Apply(s, steps[0]);
      StepGrows(s, steps[0]);
      RowsAreNeverLost(m, steps[1..]);
      GrowsTrans(s.rows, m.rows, Run(s, steps).rows);
    }
  }

  ghost predicate NeverRefused(steps: seq<Step>) {
    forall k :: 0 <= k < |steps| && steps[k].Publish? ==> steps[k].answer != Reject
  }

  ghost predicate NoRefusals(calls: seq<Call>) {
    forall c :: 0 <= c < |calls| ==> calls[c].answer != Some(Reject)
  }

  lemma StepWithoutRefusals(s: State, step: Step)
    requires NoRefusals(s.calls) && (step.Publish? ==> step.answer != Reject)
    ensures NoRefusals(Apply(s, step).calls)
  {
    hide ClaimIds, Settled, LeaseAll;
  }

  lemma {:induction false} RunWithoutRefusals(s: State, steps: seq<Step>)
    requires NeverRefused(steps) && NoRefusals(s.calls)
    ensures NoRefusals(Run(s, steps).calls)
    decreases steps
  {
    hide Apply, NoRefusals;
    if steps != [] {
      StepWithoutRefusals(s, steps[0]);
      assert NeverRefused(steps[1..]) by {
        forall k | 0 <= k < |steps| - 1 && steps[1..][k].Publish? ensures steps[1..][k].answer != Reject {
          assert steps[k + 1] == steps[1..][k];
        }
      }
      RunWithoutRefusals(Apply(s, steps[0]), steps[1..]);
    }
  }

  /** Outages alone never dead-letter an event, however many there are. */
  lemma OutagesNeverDeadLetter(steps: seq<Step>, id: nat)
    requires NeverRefused(steps) && id in Run(INIT, steps).rows
    ensures Run(INIT, steps).rows[id].status != Failed
  {
    RunWithoutRefusals(INIT, steps);
    Lifecycle(steps, id);
    var t := Run(INIT, steps);
    assert !Condemned(t.calls, id);
  }

  // ---- when PUBLISHED is final ----

  /** The one step that takes a row out of PUBLISHED: an unguarded failure write for it. */
  ghost predicate FailureWriteFor(s: State, step: Step, id: nat) {
    && step.Settle? && step.call < |s.calls|
    && s.calls[step.call].open && s.calls[step.call].row == id
    && s.calls[step.call].answer in {Some(Outage), Some(Reject)}
  }

  /** A step moves a PUBLISHED row out of PUBLISHED exactly when it is a failure write for that row. */
  lemma PublishedIsLeftExactlyBy(s: State, step: Step, id: nat)
    requires id in s.rows && s.rows[id].status == Published
    ensures Apply(s, step).rows[id].status != Published <==> FailureWriteFor(s, step, id)
  {
    match step {
      case Settle(c) =>
        if c < |s.calls| && s.calls[c].open && s.calls[c].answer.Some? && s.calls[c].row in s.rows {
          var call := s.calls[c];
          var r := Settled(s.rows[call.row], call, s.now, MaxSeq(s.rows) + 1);
          assert Apply(s, step).rows == s.rows[call.row := r];
        }
      case Claim(w, locked) => ClaimIdsAreClaimable(s.rows, s.now, w, locked);
      case _ =>
    }
  }

  /** The call still holds its lease. */
  ghost predicate Live(c: Call, now: nat) { c.open && now <= c.until }

  ghost predicate HoldsLease(c: Call, rows: map<nat, Row>) {
    c.row in rows && rows[c.row].status == Publishing && rows[c.row].lease == Some(c.until)
  }

  /** A live call holds its row PUBLISHING under its own lease, and no other live call has the row. */
  ghost predicate Leased(s: State) {
    && (forall c :: 0 <= c < |s.calls| && Live(s.calls[c], s.now) ==> HoldsLease(s.calls[c], s.rows))
    && (forall c, d :: 0 <= c < d < |s.calls| && Live(s.calls[c], s.now) && Live(s.calls[d], s.now) ==>
          s.calls[c].row != s.calls[d].row)
  }

  /** Every settling write of the step, success or failure, is made inside its lease. */
  ghost predicate InTime(s: State, step: Step) {
    step.Settle? && step.call < |s.calls| ==> s.now <= s.calls[step.call].until
  }

  ghost predicate Punctual(s: State, steps: seq<Step>)
    decreases steps
  {
    steps != [] ==> InTime(s, steps[0]) && Punctual(Apply(s, steps[0]), steps[1..])
  }

  lemma ClaimIdsAscend(rows: map<nat, Row>, now: nat, w: Worker, locked: set<nat>)
    ensures forall i, j :: 0 <= i < j < |ClaimIds(rows, now, w, locked)| ==>
              ClaimIds(rows, now, w, locked)[i] < ClaimIds(rows, now, w, locked)[j]
  {
  }

  /** The call table after a claim: the old calls, then one per claimed row. */
  lemma ClaimedCalls(s: State, w: Worker, locked: set<nat>)
    ensures var t, ids := Apply(s, Claim(w, locked)), ClaimIds(s.rows, s.now, w, locked);
            && t.now == s.now && |t.calls| == |s.calls| + |ids|
            && (forall c :: 0 <= c < |s.calls| ==> t.calls[c] == s.calls[c])
            && (forall c :: |s.calls| <= c < |t.calls| ==>
                  t.calls[c].row == ids[c - |s.calls|] && HoldsLease(t.calls[c], t.rows))
            && (forall i, j :: 0 <= i < j < |ids| ==> ids[i] < ids[j])
            && (forall id :: id in s.rows && id !in ids ==> id in t.rows && t.rows[id] == s.rows[id])
  {
    hide ClaimIds;
    ClaimIdsAreClaimable(s.rows, s.now, w, locked);
    ClaimIdsAscend(s.rows, s.now, w, locked);
    var t, ids := Apply(s, Claim(w, locked)), ClaimIds(s.rows, s.now, w, locked);
    forall c | |s.calls| <= c < |t.calls|
      ensures t.calls[c].row == ids[c - |s.calls|] && HoldsLease(t.calls[c], t.rows)
    {
      assert ids[c - |s.calls|] in ids;
    }
  }

  lemma ClaimKeepsLeased(s: State, w: Worker, locked: set<nat>)
    requires Leased(s)
    ensures Leased(Apply(s, Claim(w, locked)))
  {
    var t, ids, n := Apply(s, Claim(w, locked)), ClaimIds(s.rows, s.now, w, locked), |s.calls|;
    ClaimedCalls(s, w, locked);
    forall c | 0 <= c < n && Live(s.calls[c], s.now) ensures s.calls[c].row !in ids {
      LiveRowsAreNotClaimed(s, w, locked, c);
    }
    forall c, d | 0 <= c < d < |t.calls| && Live(t.calls[c], t.now) && Live(t.calls[d], t.now)
      ensures t.calls[c].row != t.calls[d].row
    {
      if c < n <= d { assert ids[d - n] in ids; }
    }
  }

  lemma LiveRowsAreNotClaimed(s: State, w: Worker, locked: set<nat>, c: nat)
    requires Leased(s) && c < |s.calls| && Live(s.calls[c], s.now)
    ensures s.calls[c].row !in ClaimIds(s.rows, s.now, w, locked)
  {
    ClaimIdsAreClaimable(s.rows, s.now, w, locked);
    assert HoldsLease(s.calls[c], s.rows);
  }

  lemma StepKeepsLeased(s: State, step: Step)
    requires Leased(s) && InTime(s, step)
    ensures Leased(Apply(s, step))
  {
    match step {
      case Claim(w, locked) => ClaimKeepsLeased(s, w, locked);
      case Settle(c) => SettleKeepsLeased(s, c);
      case _ =>
    }
  }

  lemma SettleKeepsLeased(s: State, k: nat)
    requires Leased(s) && InTime(s, Settle(k))
    ensures Leased(Apply(s, Settle(k)))
  {
    var t := Apply(s, Settle(k));
    if t != s {
      forall c | 0 <= c < |t.calls| && Live(t.calls[c], t.now)
        ensures t.calls[c] == s.calls[c] && t.calls[c].row in t.rows
        ensures t.rows[t.calls[c].row] == s.rows[t.calls[c].row]
      {
        assert c != k;
      }
    }
  }

  lemma {:induction false} LeasedPublishedStays(s: State, steps: seq<Step>, id: nat)
    requires Leased(s) && Punctual(s, steps)
    requires id in s.rows && s.rows[id].status == Published
    ensures id in Run(s, steps).rows && Run(s, steps).rows[id].status == Published
    decreases steps
  {
    hide Leased, Apply;
    if steps != [] {
      StepKeepsLeased(s, steps[0]);
      StepGrows(s, steps[0]);
      PublishedIsLeftExactlyBy(s, steps[0], id);
      PunctualFailuresMissPublished(s, steps[0], id);
      LeasedPublishedStays(Apply(s, steps[0]), steps[1..], id);
    }
  }

  lemma PunctualFailuresMissPublished(s: State, step: Step, id: nat)
    requires Leased(s) && InTime(s, step) && id in s.rows && s.rows[id].status == Published
    ensures !FailureWriteFor(s, step, id)
  {
  }

  lemma {:induction false} RunKeepsLeased(s: State, steps: seq<Step>)
    requires Leased(s) && Punctual(s, steps)
    ensures Leased(Run(s, steps))
    decreases steps
  {
    hide Leased, Apply, InTime;
    if steps != [] {
      StepKeepsLeased(s, steps[0]);
      RunKeepsLeased(Apply(s, steps[0]), steps[1..]);
    }
  }

  lemma {:induction false} PunctualSplits(s: State, a: seq<Step>, b: seq<Step>)
    requires Punctual(s, a + b)
    ensures Punctual(s, a) && Punctual(Run(s, a), b)
    decreases a
  {
    hide InTime, Apply;
    if a == [] {
      assert a + b == b;
    } else {
      assert (a + b)[0] == a[0] && (a + b)[1..] == a[1..] + b;
      PunctualSplits(Apply(s, a[0]), a[1..], b);
    }
  }

  /** Over every run from the empty table whose settling writes are all made inside their leases, a row once
      PUBLISHED stays so. A lease bound on the failing calls alone is not enough (see StaleMarkThenFailure). */
  lemma PublishedIsFinalWhenPunctual(a: seq<Step>, b: seq<Step>, id: nat)
    requires Punctual(INIT, a + b) && id in Run(INIT, a).rows && Run(INIT, a).rows[id].status == Published
    ensures id in Run(INIT, a + b).rows && Run(INIT, a + b).rows[id].status == Published
  {
    hide Run, Punctual;
    PunctualSplits(INIT, a, b);
    assert Leased(INIT);
    RunKeepsLeased(INIT, a);
    LeasedPublishedStays(Run(INIT, a), b, id);
    RunConcat(INIT, a, b);
  }

  // ---- a run in which PUBLISHED is left although the failing call is inside its lease ----

  const EVENT := Event("e", "plan.resolved", Payload("{}", true, false), "plan", "p", 1, "t", 0)
  const SLOW := Worker("slow", 1, 1000, 5, 0)
  const FRESH := Worker("fresh", 1, 60000, 5, 0)

  /** slow claims and publishes; its lease runs out; fresh re-claims and reports an outage, well
      inside its own lease, but slow's late mark comes first. */
  const CLAIMED := State(2000, map[7 := Row(EVENT, Publishing, 0, Some(1000), "slow", None, None)],
                         [Call(7, 0, SLOW, 1000, Some(Ack), true)], {7}, [])
  const RECLAIMED := State(2000, map[7 := Row(EVENT, Publishing, 0, Some(62000), "fresh", None, None)],
                           [Call(7, 0, SLOW, 1000, Some(Ack), true), Call(7, 0, FRESH, 62000, Some(Outage), true)],
                           {7}, [])
  const RACE: seq<Step> := [Insert(7, EVENT), Claim(SLOW, {}), Publish(0, Ack), Tick(2000)]
                         + [Claim(FRESH, {}), Publish(1, Outage)]

  lemma ClaimingTheOnlyRow(s: State, w: Worker)
    requires s.rows.Keys == {7} && Claimable(s.rows[7], s.now) && w.batch == 1
    ensures Apply(s, Claim(w, {})) ==
            s.(rows := map[7 := Lease(s.rows[7], w, s.now)], calls := s.calls + [CallFor(s.rows, 7, w, s.now)])
  {
    var all := set id | id in s.rows && Claimable(s.rows[id], s.now) && id !in {};
    assert all == {7};
    assert Ascending(all) == [7] by { assert Ascending(all)[0] in all; }
    assert ClaimIds(s.rows, s.now, w, {}) == [7];
  }

  lemma RunOfTwo(s: State, a: Step, b: Step)
    ensures Run(s, [a, b]) == Apply(Apply(s, a), b)
  {
    assert [a, b][1..] == [b] && [b][1..] == [];
    assert Run(Apply(s, a), [b]) == Run(Apply(Apply(s, a), b), []);
  }

  lemma RaceClaims()
    ensures Run(INIT, RACE[..4]) == CLAIMED
  {
    var s1 := Apply(INIT, RACE[0]);
    ClaimingTheOnlyRow(s1, SLOW);
    var s2 := Apply(s1, RACE[1]);
    RunOfTwo(INIT, RACE[0], RACE[1]);
    RunOfTwo(s2, RACE[2], RACE[3]);
    RunConcat(INIT, [RACE[0], RACE[1]], [RACE[2], RACE[3]]);
    assert RACE[..4] == [RACE[0], RACE[1]] + [RACE[2], RACE[3]];
  }

  lemma LateClaim()
    ensures Run(CLAIMED, [Claim(FRESH, {}), Publish(1, Outage)]) == RECLAIMED
  {
    ClaimingTheOnlyRow(CLAIMED, FRESH);
    RunOfTwo(CLAIMED, Claim(FRESH, {}), Publish(1, Outage));
  }

  lemma RaceReclaims()
    ensures Run(INIT, RACE) == RECLAIMED
  {
    hide Run, Apply;
    RaceClaims();
    LateClaim();
    RunConcat(INIT, RACE[..4], [Claim(FRESH, {}), Publish(1, Outage)]);
    assert RACE == RACE[..4] + [Claim(FRESH, {}), Publish(1, Outage)];
  }

  /** A reachable state from which the row is marked PUBLISHED and then, by a failure write made
      inside its own lease, put back to PENDING. */
  lemma StaleMarkThenFailure()
    ensures var s := Run(INIT, RACE);
            var marked := Apply(s, Settle(0));
            && 7 in marked.rows && marked.rows[7].status == Published
            && InTime(marked, Settle(1)) && !InTime(s, Settle(0))
            && 7 in Apply(marked, Settle(1)).rows && Apply(marked, Settle(1)).rows[7].status == Pending
  {
    RaceReclaims();
    var marked := Apply(RECLAIMED, Settle(0));
    assert marked.rows[7].status == Published;
  }
}

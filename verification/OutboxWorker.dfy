/** The worker's code over the outbox table, one method per transaction, with whatever other
    workers commit in each gap passed in as a list of steps. */
module OutboxWorker {
  import opened Base
  import opened Outbox

  /** The steps of one publishOne: publish, gap, settle. */
  function PublishTrace(c: nat, answer: Answer, gap: seq<Step>): seq<Step> {
    [Publish(c, answer)] + gap + [Settle(c)]
  }

  /** The steps of draining the first n calls of a claim. */
  function DrainTrace(first: nat, answers: seq<Answer>, gaps: seq<seq<Step>>, n: nat): seq<Step>
    requires n <= |answers| && n <= |gaps|
  {
    if n == 0 then []
    else DrainTrace(first, answers, gaps, n - 1) + PublishTrace(first + n - 1, answers[n - 1], gaps[n - 1])
  }

  class Table {
    var now: nat
    var rows: map<nat, Row>
    var calls: seq<Call>        // the claimed rows in the hands of worker processes
    ghost var acks: set<nat>    // what the transport accepted
    ghost var marks: seq<(nat, nat)>

    ghost function Model(): State
      reads this
    {
      State(now, rows, calls, acks, marks)
    }

    constructor ()
      ensures Model() == INIT
    {
      now, rows, calls, acks, marks := 0, map[], [], {}, [];
    }

    method Tick(ms: nat)
      modifies this
      ensures Model() == Apply(old(Model()), Step.Tick(ms))
    {
      now := now + ms;
    }

    /** The domain transaction's insert; event_id is unique. */
    method Insert(id: nat, e: Event)
      modifies this
      ensures Model() == Apply(old(Model()), Step.Insert(id, e))
    {
      var taken := id in rows || exists k :: k in rows && rows[k].event.eventId == e.eventId;
      if !taken {
        rows := rows[id := Row(e, Pending, 0, None, "", None, None)];
      }
    }

    /** SELECT ... FOR UPDATE SKIP LOCKED, then one UPDATE per row, in one transaction. */
    method Claim(w: Worker, locked: set<nat>)
      modifies this
      ensures Model() == Apply(old(Model()), Step.Claim(w, locked))
    {
      var claimed := ClaimIds(rows, now, w, locked);
      ClaimIdsAreClaimable(rows, now, w, locked);
      calls := calls + CallsFor(rows, claimed, w, now);
      LeaseRows(claimed, w);
    }

    method LeaseRows(claimed: seq<nat>, w: Worker)
      requires forall id :: id in claimed ==> id in rows
      modifies this`rows
      ensures rows == LeaseAll(old(rows), claimed, w, now)
    {
      assert rows == LeaseAll(rows, claimed[..0], w, now);
      for i := 0 to |claimed|
        invariant rows == LeaseAll(old(rows), claimed[..i], w, now)
      {
        assert claimed[i] in claimed;
        LeaseOneMore(old(rows), claimed, i, w, now);
        var id := claimed[i];
        rows := rows[id := rows[id].(status := Publishing,
                                     lease := Some(now + WholeSeconds(w.leaseTTL)), claimedBy := w.id)];
      }
      assert claimed[..|claimed|] == claimed;
    }

    /** SELECT COALESCE(MAX(published_seq), 0). */
    method MaxPublishedSeq() returns (m: nat)
      ensures m == MaxSeq(rows)
    {
      m := 0;
      var left := rows.Keys;
      while left != {}
        invariant left <= rows.Keys
        invariant forall id :: id in rows && id !in left && rows[id].seqNo.Some? ==> rows[id].seqNo.value <= m
        invariant Reached(rows, m)
        decreases |left|
      {
        var id :| id in left;
        if rows[id].seqNo.Some? && rows[id].seqNo.value > m { m := rows[id].seqNo.value; }
        left := left - {id};
      }
      OneMaximum(rows, m);
    }

    /** The mark transaction, under the watermark lock. */
    method MarkPublished(id: nat)
      requires id in rows
      modifies this`rows, this`marks
      ensures rows == old(rows)[id := Mark(old(rows[id]), MaxSeq(old(rows)) + 1)]
      ensures marks == if rows[id].seqNo == Some(MaxSeq(old(rows)) + 1)
                       then old(marks) + [(id, MaxSeq(old(rows)) + 1)] else old(marks)
    {
      var m := MaxPublishedSeq();
      NotTheNextMark(rows, id);
      if rows[id].status == Publishing {
        rows := rows[id := rows[id].(status := Published, lease := None, seqNo := Some(m + 1))];
        marks := marks + [(id, m + 1)];
      }
    }

    /** Both failure writes: back to PENDING with the next retry time, whatever the row's status. */
    method Release(id: nat, delay: nat)
      requires id in rows
      modifies this`rows
      ensures rows == old(rows)[id := PutBack(old(rows[id]), now + delay)]
    {
      rows := rows[id := rows[id].(status := Pending, lease := None, claimedBy := "",
                                   attempts := rows[id].attempts + 1, retryAt := Some(now + delay))];
    }

    method DeadLetter(id: nat)
      requires id in rows
      modifies this`rows
      ensures rows == old(rows)[id := Outbox.DeadLetter(old(rows[id]))]
    {
      rows := rows[id := rows[id].(status := Failed, lease := None)];
    }

    /** The transport's answer. */
    method Publish(c: nat, answer: Answer)
      modifies this`calls, this`acks
      ensures Model() == Apply(old(Model()), Step.Publish(c, answer))
    {
      if c < |calls| && calls[c].open && calls[c].answer == None {
        if answer == Ack { acks := acks + {calls[c].row}; }
        calls := calls[c := calls[c].(answer := Some(answer))];
      }
    }

    /** publishOne after the transport answered: mark, release for a retry, or dead-letter. */
    method Settle(c: nat)
      modifies this`rows, this`calls, this`marks
      ensures Model() == Apply(old(Model()), Step.Settle(c))
    {
      if c >= |calls| || !calls[c].open || calls[c].answer == None || calls[c].row !in rows { return; }
      var call := calls[c];
      calls := calls[c := call.(open := false)];
      NotTheNextMark(rows, call.row);
      match call.answer.value
      case Ack => MarkPublished(call.row);
      case Outage => Release(call.row, call.worker.backoff * (call.attempts + 1));
      case Reject =>
        if call.attempts >= call.worker.retryMax {
          DeadLetter(call.row);
        } else {
          Release(call.row, WholeSeconds(call.worker.backoff) * (call.attempts + 1));
        }
    }

    method Crash(c: nat)
      modifies this`calls
      ensures Model() == Apply(old(Model()), Step.Crash(c))
    {
      if c < |calls| { calls := calls[c := calls[c].(open := false)]; }
    }

    /** publishOne: publish, let others run, settle. */
    method PublishOne(c: nat, answer: Answer, gap: seq<Step>)
      modifies this
      ensures Model() == Run(old(Model()), PublishTrace(c, answer, gap))
    {
      ghost var s := Model();
      Publish(c, answer);
      Others(gap);
      Settle(c);
      RunOne(s, Step.Publish(c, answer));
      RunConcat(s, [Step.Publish(c, answer)], gap);
      RunConcat(s, [Step.Publish(c, answer)] + gap, [Step.Settle(c)]);
      RunOne(Run(s, [Step.Publish(c, answer)] + gap), Step.Settle(c));
    }

    /** DrainOnce of a worker that survives n of its claimed rows; the transport answers answers[k]
        and others commit gaps[k] while it handles row k. */
    method DrainOnce(w: Worker, locked: set<nat>, answers: seq<Answer>, gaps: seq<seq<Step>>, n: nat)
        returns (handled: nat)
      requires n <= |answers| && n <= |gaps|
      modifies this
      ensures handled == (var k := |ClaimIds(old(rows), old(now), w, locked)|; if k < n then k else n)
      ensures Model() == Run(old(Model()), [Step.Claim(w, locked)] + DrainTrace(|old(calls)|, answers, gaps, handled))
    {
      hide ClaimIds, Run;
      ghost var s := Model();
      var first := |calls|;
      Claim(w, locked);
      var claimed := |calls| - first;
      handled := 0;
      RunOne(s, Step.Claim(w, locked));
      assert [Step.Claim(w, locked)] + DrainTrace(first, answers, gaps, 0) == [Step.Claim(w, locked)];
      while handled < claimed && handled < n
        invariant handled <= claimed && handled <= n
        invariant Model() == Run(s, [Step.Claim(w, locked)] + DrainTrace(first, answers, gaps, handled))
      {
        PublishOne(first + handled, answers[handled], gaps[handled]);
        ghost var done := [Step.Claim(w, locked)] + DrainTrace(first, answers, gaps, handled);
        ghost var next := PublishTrace(first + handled, answers[handled], gaps[handled]);
        RunConcat(s, done, next);
        handled := handled + 1;
        assert [Step.Claim(w, locked)] + DrainTrace(first, answers, gaps, handled) == done + next;
      }
    }

    /** What other workers commit while this one waits. */
    method Others(gap: seq<Step>)
      modifies this
      ensures Model() == Run(old(Model()), gap)
    {
      ghost var start := Model();
      for i := 0 to |gap|
        invariant Model() == Run(start, gap[..i])
      {
        assert gap[..i + 1] == gap[..i] + [gap[i]];
        RunConcat(start, gap[..i], [gap[i]]);
        RunOne(Run(start, gap[..i]), gap[i]);
        Do(gap[i]);
      }
      assert gap[..|gap|] == gap;
    }

    method Do(step: Step)
      modifies this
      ensures Model() == Apply(old(Model()), step)
    {
      match step
      case Tick(ms) => Tick(ms);
      case Insert(id, e) => Insert(id, e);
      case Claim(w, locked) => Claim(w, locked);
      case Publish(c, answer) => Publish(c, answer);
      case Settle(c) => Settle(c);
      case Crash(c) => Crash(c);
    }
  }

  lemma LeaseOneMore(rows: map<nat, Row>, ids: seq<nat>, i: nat, w: Worker, now: nat)
    requires i < |ids| && ids[i] in rows
    ensures LeaseAll(rows, ids[..i + 1], w, now) ==
            LeaseAll(rows, ids[..i], w, now)[ids[i] := Lease(rows[ids[i]], w, now)]
  {
    assert ids[..i + 1] == ids[..i] + [ids[i]];
  }

  lemma OneMaximum(rows: map<nat, Row>, m: nat)
    requires Below(rows, m) && Reached(rows, m)
    ensures m == MaxSeq(rows)
  {
  }

  lemma NotTheNextMark(rows: map<nat, Row>, id: nat)
    requires id in rows
    ensures rows[id].seqNo != Some(MaxSeq(rows) + 1)
  {
  }

  lemma RunOne(s: State, step: Step)
    ensures Run(s, [step]) == Apply(s, step)
  {
    assert Run(s, [step]) == Run(Apply(s, step), []);
  }
}

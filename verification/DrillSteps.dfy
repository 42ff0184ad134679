/** What each transaction of a step worker does, in the step's own columns; and that a drill nobody disturbs
    succeeds. */
module DrillSteps {
  import opened Base
  import opened DrillWorker

  // ---- the claim ----

  /** A step waits, or the lease of the worker that has it ran out. */
  predicate Ready(r: Row, now: nat) {
    match r.status
    case PENDING => true
    case RUNNING => r.lease.Some? && r.lease.value < now
    case _ => false
  }

  /** Step i is the first ready one that nobody has locked. */
  predicate IsFirst(rows: seq<Row>, now: nat, locked: set<nat>, i: nat) {
    && i < |rows| && Ready(rows[i], now) && i !in locked
    && forall j :: 0 <= j < i ==> !Ready(rows[j], now) || j in locked
  }

  lemma {:induction false} NextIsFirst(rows: seq<Row>, now: nat, locked: set<nat>)
    ensures var i := NextStep(rows, now, locked);
            if i < |rows| then IsFirst(rows, now, locked, i)
            else forall j :: 0 <= j < |rows| ==> !Ready(rows[j], now) || j in locked
    decreases |rows|
  {
    if rows != [] {
      var init := rows[..|rows| - 1];
      NextIsFirst(init, now, locked);
      assert forall j :: 0 <= j < |init| ==> init[j] == rows[j];
    }
  }

  /** Three attempts and thirty seconds unless configured. */
  function Budget(w: Worker): nat { if w.maxAttempts == 0 then 3 else w.maxAttempts }

  function Lease(w: Worker): nat { if w.leaseTTL == 0 then 30000 else w.leaseTTL / 1000 * 1000 }

  /** The claim takes exactly the first ready, unlocked step: it fails it when its attempts are spent, and otherwise
      counts one more, leases it and opens a call; without such a step nothing happens. */
  lemma ClaimsExactly(s: State, tx: nat, locked: set<nat>)
    requires tx in s.peeks
    ensures var t, w := Apply(s, Step.Claim(tx, locked)), s.peeks[tx];
            && t.peeks == s.peeks - {tx} && t.now == s.now && t.running == s.running && t.executed == s.executed
            && (forall i: nat :: IsFirst(s.rows, s.now, locked, i) ==>
                  if s.rows[i].attempts >= Budget(w)
                  then t.calls == s.calls && t.rows == s.rows[i := s.rows[i].(status := FAILED, lease := None)]
                  else t.rows == s.rows[i := s.rows[i].(status := RUNNING, claimedBy := w.id,
                                                        lease := Some(s.now + Lease(w)), attempts := s.rows[i].attempts + 1)]
                       && t.calls == s.calls + [Call(i, s.rows[i].attempts + 1, w, s.now + Lease(w), None, true)])
            && ((forall i :: 0 <= i < |s.rows| ==> !IsFirst(s.rows, s.now, locked, i)) ==> t.rows == s.rows && t.calls == s.calls)
  {
    hide NextStep;
    NextIsFirst(s.rows, s.now, locked);
    var n := NextStep(s.rows, s.now, locked);
    assert forall i: nat :: IsFirst(s.rows, s.now, locked, i) ==> i == n;
  }

  // ---- the outcome ----

  /** The executor's success confirms a step that is still this worker's or nobody's; its failure puts the step back,
      whatever has become of it. */
  lemma OutcomesExactly(s: State, c: nat)
    requires c < |s.calls| && s.calls[c].open && s.calls[c].outcome.Some? && s.calls[c].step < |s.rows|
    ensures var k, t := s.calls[c], Apply(s, Step.Confirm(c)); var r := s.rows[k.step];
            && t == s.(rows := t.rows, calls := s.calls[c := k.(open := false)])
            && t.rows == s.rows[k.step :=
                 if k.outcome.value.Broken? then r.(status := PENDING, lease := None)
                 else if r.status != DONE && r.status != FAILED && (r.claimedBy == k.worker.id || r.claimedBy == "")
                 then r.(status := DONE, evidence := k.outcome.value.evidence, lease := None) else r]
  {
  }

  /** A worker sees a drill only while it runs, and calls the executor once per open call. */
  lemma LooksAndExecutesExactly(s: State, tx: nat, w: Worker, c: nat, outcome: Outcome)
    ensures Apply(s, Step.Peek(tx, w)) == if s.running && tx !in s.peeks then s.(peeks := s.peeks[tx := w]) else s
    ensures var t := Apply(s, Step.Execute(c, outcome));
            if c < |s.calls| && s.calls[c].open && s.calls[c].outcome == None
            then t == s.(calls := s.calls[c := s.calls[c].(outcome := Some(outcome))], executed := s.executed + [s.calls[c].step])
            else t == s
  {
  }

  /** The counts call for FAILED when some step has failed, for SUCCEEDED when there are steps and all are DONE, and
      for nothing otherwise. */
  lemma EndsExactly(rows: seq<Row>)
    ensures EndingOf(rows) != Stops
    ensures EndingOf(rows) == Fails <==> exists i :: 0 <= i < |rows| && rows[i].status == FAILED
    ensures EndingOf(rows) == Succeeds <==> rows != [] && forall i :: 0 <= i < |rows| ==> rows[i].status == DONE
  {
    if rows != [] && rows[0].status == DONE { assert !(rows[0].status == FAILED); }
  }

  /** The sweep puts back exactly the running steps whose time is up. */
  lemma SweepsExactly(s: State, cutoff: nat, i: nat)
    requires i < |s.rows|
    ensures var r, t := s.rows[i], Apply(s, Step.TimeoutSweep(cutoff));
            && |t.rows| == |s.rows| && t == s.(rows := t.rows)
            && t.rows[i] == if r.status == RUNNING && r.timeoutAt.Some? && r.timeoutAt.value < cutoff
                            then r.(status := PENDING, lease := None) else r
  {
  }

  // ---- a drill nobody disturbs ----

  /** Nobody else does anything, nothing is locked, and the executor always succeeds. */
  ghost predicate Undisturbed(sc: Script, evidence: nat -> string) {
    forall k :: sc.gap(k) == [] && sc.locked(k) == {} && sc.executor(k) == Fine(evidence(k))
  }

  /** The first k steps are DONE, the others wait with attempts to spare. */
  ghost predicate DoneUpTo(s: State, sc: Script, k: nat) {
    && k <= |s.rows| && s.running && sc.tx !in s.peeks
    && (forall i :: 0 <= i < k ==> s.rows[i].status == DONE)
    && (forall i :: k <= i < |s.rows| ==> s.rows[i].status == PENDING && s.rows[i].attempts < Budget(sc.w))
  }

  lemma LookSeesIt(s: State, sc: Script, k: nat, evidence: nat -> string)
    requires Undisturbed(sc, evidence) && s.running && sc.tx !in s.peeks
    ensures Sees(Run(s, sc.gap(2 * k)), sc.tx)
    ensures Looked(s, sc, k) == s.(peeks := s.peeks[sc.tx := sc.w])
    ensures sc.gap(2 * k) == [] && sc.gap(2 * k + 1) == [] && sc.locked(k) == {} && sc.executor(k) == Fine(evidence(k))
  {
    RunOfNone(s);
    assert sc.gap(2 * k) == [] && sc.gap(2 * k + 1) == [];
    assert sc.locked(k) == {} && sc.executor(k) == Fine(evidence(k));
  }

  /** One round makes the next step DONE. */
  lemma RoundFinishesAStep(s: State, sc: Script, k: nat, evidence: nat -> string)
    requires Undisturbed(sc, evidence) && DoneUpTo(s, sc, k) && k < |s.rows|
    ensures RoundClaim(s, sc, k).Got?
    ensures var t := Run(s, RoundSteps(s, sc, k)); DoneUpTo(t, sc, k + 1) && |t.rows| == |s.rows|
  {
    hide Run, NextStep;
    LookSeesIt(s, sc, k, evidence);
    var p := Looked(s, sc, k);
    NextIsFirst(p.rows, p.now, {});
    assert IsFirst(p.rows, p.now, {}, k);
    assert NextStep(p.rows, p.now, {}) == k;
    ClaimsExactly(p, sc.tx, {});
    var c := |s.calls|;
    var m := Apply(p, Step.Claim(sc.tx, {}));
    var x := Apply(m, Step.Execute(c, Fine(evidence(k))));
    OutcomesExactly(x, c);
    RoundRuns(s, sc, k, c, evidence);
  }

  lemma RoundRuns(s: State, sc: Script, k: nat, c: nat, evidence: nat -> string)
    requires Undisturbed(sc, evidence) && s.running && sc.tx !in s.peeks && RoundClaim(s, sc, k) == Got(c)
    ensures Run(s, RoundSteps(s, sc, k))
         == Apply(Apply(Apply(Looked(s, sc, k), Step.Claim(sc.tx, {})), Step.Execute(c, Fine(evidence(k)))), Step.Confirm(c))
  {
    hide Apply;
    LookSeesIt(s, sc, k, evidence);
    var steps := [Step.Peek(sc.tx, sc.w), Step.Claim(sc.tx, {}), Step.Execute(c, Fine(evidence(k))), Step.Confirm(c)];
    RunOfNone(s);
    assert RoundSteps(s, sc, k) == steps;
    RunSnoc(s, [], steps[0]);
    RunSnoc(s, steps[..1], steps[1]);
    RunSnoc(s, steps[..2], steps[2]);
    RunSnoc(s, steps[..3], steps[3]);
    assert steps[..1] == [] + [steps[0]] && steps[..2] == steps[..1] + [steps[1]] && steps[..3] == steps[..2] + [steps[2]];
    assert steps == steps[..3] + [steps[3]];
  }

  lemma {:induction false} RoundsFinishSteps(s: State, sc: Script, k: nat, evidence: nat -> string)
    requires Undisturbed(sc, evidence) && DoneUpTo(s, sc, 0) && k <= |s.rows|
    ensures var m := Run(s, Rounds(s, sc, k)); DoneUpTo(m, sc, k) && |m.rows| == |s.rows|
    ensures forall j :: 0 <= j < k ==> GoesOn(s, sc, j)
    decreases k
  {
    hide Run, RoundSteps, RoundClaim, DoneUpTo, Undisturbed;
    if k == 0 {
      RunOfNone(s);
    } else {
      RoundsFinishSteps(s, sc, k - 1, evidence);
      var m := Run(s, Rounds(s, sc, k - 1));
      RoundFinishesAStep(m, sc, k - 1, evidence);
      RunConcat(s, Rounds(s, sc, k - 1), RoundSteps(m, sc, k - 1));
      LookSees(sc, k - 1, evidence);
    }
  }

  lemma LookSees(sc: Script, k: nat, evidence: nat -> string)
    requires Undisturbed(sc, evidence)
    ensures sc.executor(k) == Fine(evidence(k))
  {
  }

  /** A worker that nobody disturbs, whose executor always succeeds, goes through the steps one by one, finds nothing
      more, and the drill's counts call for SUCCEEDED. */
  lemma UndisturbedDrillsSucceed(s: State, sc: Script, evidence: nat -> string)
    requires Undisturbed(sc, evidence) && s.running && sc.tx !in s.peeks && s.rows != []
    requires forall i :: 0 <= i < |s.rows| ==> s.rows[i].status == PENDING && s.rows[i].attempts < Budget(sc.w)
    ensures var n := |s.rows|; var t := Run(s, Rounds(s, sc, n + 1));
            && (forall k :: 0 <= k < n ==> GoesOn(s, sc, k)) && ClaimOf(s, sc, n) == Nothing
            && (forall i :: 0 <= i < |t.rows| ==> t.rows[i].status == DONE) && |t.rows| == n
            && EndingOf(t.rows) == Succeeds
  {
    hide Run, NextStep, Undisturbed;
    var n := |s.rows|;
    RoundsFinishSteps(s, sc, n, evidence);
    var m := Run(s, Rounds(s, sc, n));
    LastRoundFindsNothing(m, sc, n, evidence);
    RunConcat(s, Rounds(s, sc, n), RoundSteps(m, sc, n));
  }

  lemma LastRoundFindsNothing(s: State, sc: Script, k: nat, evidence: nat -> string)
    requires Undisturbed(sc, evidence) && DoneUpTo(s, sc, |s.rows|)
    ensures RoundClaim(s, sc, k) == Nothing && Run(s, RoundSteps(s, sc, k)).rows == s.rows
  {
    hide NextStep, Run;
    LookSeesIt(s, sc, k, evidence);
    var p := Looked(s, sc, k);
    NextIsFirst(p.rows, p.now, {});
    var steps := [Step.Peek(sc.tx, sc.w), Step.Claim(sc.tx, {})];
    RunOfNone(s);
    assert RoundSteps(s, sc, k) == steps;
    RunSnoc(s, [], steps[0]);
    RunSnoc(s, steps[..1], steps[1]);
    assert steps[..1] == [] + [steps[0]] && steps == steps[..1] + [steps[1]];
  }
}

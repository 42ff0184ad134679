/** Drill steps under leased workers (internal/exitdrill/worker.go).  A worker looks at the drill's
    state, claims a step, calls the executor, and writes the outcome; it may crash, and others run,
    between any two of these.  The steps of the drill are fixed, in step_no order. */
module DrillWorker {
  import opened Base

  datatype Status = PENDING | RUNNING | DONE | FAILED

  datatype Row = Row(status: Status, attempts: nat, claimedBy: string, lease: Option<nat>,
                     timeoutAt: Option<nat>, evidence: string)

  /** Configured values; zero stands for the defaults below. */
  datatype Worker = Worker(id: string, leaseTTL: nat, maxAttempts: nat)

  datatype Outcome = Fine(evidence: string) | Broken

  /** A claimed step in a worker's hands; outcome is None until the executor was called. */
  datatype Call = Call(step: nat, attempts: nat, worker: Worker, until: nat, outcome: Option<Outcome>, open: bool)

  /** running: the drill is RUNNING.  peeks: workers that saw it so and claim next.  executed: the steps
      of all executor calls, in order. */
  datatype State = State(now: nat, running: bool, rows: seq<Row>, peeks: map<nat, Worker>, calls: seq<Call>,
                         executed: seq<nat>)

  datatype Step =
    | Tick(ms: nat)
    | SetRunning(running: bool)
    | Peek(tx: nat, worker: Worker)
    | Claim(tx: nat, locked: set<nat>)
    | Execute(call: nat, outcome: Outcome)
    | Confirm(call: nat)
    | Crash(call: nat)
    | TimeoutSweep(cutoff: nat)

  function MaxAttempts(w: Worker): nat { if w.maxAttempts > 0 then w.maxAttempts else 3 }

  /** Milliseconds; the SQL interval carries whole seconds. */
  function LeaseTTL(w: Worker): nat { (if w.leaseTTL > 0 then w.leaseTTL else 30000) / 1000 * 1000 }

  predicate Claimable(r: Row, now: nat) {
    r.status == PENDING || (r.status == RUNNING && r.lease.Some? && r.lease.value < now)
  }

  /** ORDER BY step_no ... SKIP LOCKED LIMIT 1; |rows| when nothing is claimable. */
  function NextStep(rows: seq<Row>, now: nat, locked: set<nat>): (i: nat)
    ensures i <= |rows| && (i < |rows| ==> Claimable(rows[i], now) && i !in locked)
    decreases |rows|
  {
    if rows == [] then 0
    else
      var n := |rows| - 1;
      var i := NextStep(rows[..n], now, locked);
      if i < n then i else if Claimable(rows[n], now) && n !in locked then n else |rows|
  }

  function Claimed(r: Row, w: Worker, now: nat): Row {
    r.(status := RUNNING, claimedBy := w.id, lease := Some(now + LeaseTTL(w)), attempts := r.attempts + 1)
  }

  /** The error release, without any guard. */
  function Released(r: Row): Row { r.(status := PENDING, lease := None) }

  /** The guarded confirmation. */
  function Confirmed(r: Row, w: Worker, evidence: string): Row {
    if r.status in {RUNNING, PENDING} && (r.claimedBy == w.id || r.claimedBy == "")
    then r.(status := DONE, evidence := evidence, lease := None) else r
  }

  function Settled(r: Row, c: Call): Row
    requires c.outcome.Some?
  {
    match c.outcome.value
    case Fine(evidence) => Confirmed(r, c.worker, evidence)
    case Broken => Released(r)
  }

  predicate TimedOut(r: Row, cutoff: nat) { r.status == RUNNING && r.timeoutAt.Some? && r.timeoutAt.value < cutoff }

  function Swept(rows: seq<Row>, cutoff: nat): seq<Row> {
    seq(|rows|, i requires 0 <= i < |rows| => if TimedOut(rows[i], cutoff) then Released(rows[i]) else rows[i])
  }

  function Take(s: State, w: Worker, locked: set<nat>): State {
    var i := NextStep(s.rows, s.now, locked);
    if i == |s.rows| then s
    else if s.rows[i].attempts >= MaxAttempts(w) then
      s.(rows := s.rows[i := s.rows[i].(status := FAILED, lease := None)])
    else
      s.(rows := s.rows[i := Claimed(s.rows[i], w, s.now)],
         calls := s.calls + [Call(i, s.rows[i].attempts + 1, w, s.now + LeaseTTL(w), None, true)])
  }

  function Apply(s: State, step: Step): State {
    match step
    case Tick(ms) => s.(now := s.now + ms)
    case SetRunning(running) => s.(running := running)
    case Peek(tx, w) => if tx in s.peeks || !s.running then s else s.(peeks := s.peeks[tx := w])
    case Claim(tx, locked) =>
      if tx !in s.peeks then s else Take(s.(peeks := s.peeks - {tx}), s.peeks[tx], locked)
    case Execute(c, outcome) =>
      if c < |s.calls| && s.calls[c].open && s.calls[c].outcome == None
      then s.(calls := s.calls[c := s.calls[c].(outcome := Some(outcome))], executed := s.executed + [s.calls[c].step])
      else s
    case Confirm(c) =>
      if c < |s.calls| && s.calls[c].open && s.calls[c].outcome.Some? && s.calls[c].step < |s.rows| then
        var k := s.calls[c];
        s.(rows := s.rows[k.step := Settled(s.rows[k.step], k)], calls := s.calls[c := k.(open := false)])
      else s
    case Crash(c) =>
      if c < |s.calls| then s.(calls := s.calls[c := s.calls[c].(open := false)]) else s
    case TimeoutSweep(cutoff) => s.(rows := Swept(s.rows, cutoff))
  }

  function Run(s: State, steps: seq<Step>): State
    decreases steps
  {
    if steps == [] then s else Run(Apply(s, steps[0]), steps[1..])
  }

  /** Steps as somebody inserted them; nobody has claimed anything yet. */
  predicate Fresh(s: State) { s.calls == [] && s.executed == [] && s.peeks == map[] }

  // ---- the retry budget ----

  function CallsOf(calls: seq<Call>, i: nat): nat
    decreases |calls|
  {
    if calls == [] then 0 else CallsOf(calls[..|calls| - 1], i) + if calls[|calls| - 1].step == i then 1 else 0
  }

  function Unused(calls: seq<Call>, i: nat): nat
    decreases |calls|
  {
    if calls == [] then 0
    else
      Unused(calls[..|calls| - 1], i)
      + if calls[|calls| - 1].step == i && calls[|calls| - 1].outcome == None then 1 else 0
  }

  /** How often the executor was called for step i. */
  function Executions(executed: seq<nat>, i: nat): nat
    decreases |executed|
  {
    if executed == [] then 0
    else Executions(executed[..|executed| - 1], i) + if executed[|executed| - 1] == i then 1 else 0
  }

  lemma {:induction false} UpdateCall(calls: seq<Call>, c: nat, k: Call, i: nat)
    requires c < |calls| && k.step == calls[c].step
    ensures CallsOf(calls[c := k], i) == CallsOf(calls, i)
    ensures Unused(calls[c := k], i) + (if calls[c].step == i && calls[c].outcome == None then 1 else 0)
         == Unused(calls, i) + if k.step == i && k.outcome == None then 1 else 0
    decreases |calls|
  {
    var n := |calls| - 1;
    if c == n {
      assert calls[c := k][..n] == calls[..n];
    } else {
      assert calls[c := k][..n] == calls[..n][c := k];
      UpdateCall(calls[..n], c, k, i);
    }
  }

  /** Each claim raised attempts by one and led to at most one executor call. start holds the attempts
      the steps were inserted with. */
  ghost predicate Counted(s: State, start: seq<nat>, i: nat)
    requires i < |s.rows| == |start|
  {
    && s.rows[i].attempts == start[i] + CallsOf(s.calls, i)
    && Executions(s.executed, i) + Unused(s.calls, i) == CallsOf(s.calls, i)
  }

  ghost predicate Inv(s: State, start: seq<nat>) {
    && |s.rows| == |start|
    && (forall i :: 0 <= i < |s.rows| ==> Counted(s, start, i))
    && (forall c :: 0 <= c < |s.calls| ==> s.calls[c].step < |s.rows|)
  }

  lemma ExecuteCounts(s: State, start: seq<nat>, c: nat, outcome: Outcome, i: nat)
    requires Inv(s, start) && i < |s.rows| && c < |s.calls| && s.calls[c].open && s.calls[c].outcome == None
    ensures Counted(Apply(s, Execute(c, outcome)), start, i)
  {
    var t := Apply(s, Execute(c, outcome));
    assert Counted(s, start, i);
    UpdateCall(s.calls, c, t.calls[c], i);
    assert t.executed[..|s.executed|] == s.executed;
  }

  lemma TakeCounts(s: State, start: seq<nat>, w: Worker, locked: set<nat>, i: nat)
    requires i < |s.rows| == |start| && Counted(s, start, i)
    ensures var t := Take(s, w, locked); |t.rows| == |start| && Counted(t, start, i)
  {
    var t := Take(s, w, locked);
    if |t.calls| > |s.calls| { assert t.calls[..|s.calls|] == s.calls; }
  }

  lemma StepKeepsInv(s: State, start: seq<nat>, step: Step)
    requires Inv(s, start)
    ensures Inv(Apply(s, step), start)
  {
    hide Counted;
    var t := Apply(s, step);
    forall i | 0 <= i < |s.rows| ensures |t.rows| == |start| && Counted(t, start, i) { StepCounts(s, start, step, i); }
  }

  lemma StepCounts(s: State, start: seq<nat>, step: Step, i: nat)
    requires Inv(s, start) && i < |s.rows|
    ensures |Apply(s, step).rows| == |start| && Counted(Apply(s, step), start, i)
  {
    hide Take;
    assert Counted(s, start, i);
    match step {
      case Claim(tx, locked) =>
        if tx in s.peeks {
          var m := s.(peeks := s.peeks - {tx});
          TakeCounts(m, start, s.peeks[tx], locked, i);
        }
      case Execute(c, outcome) =>
        if c < |s.calls| && s.calls[c].open && s.calls[c].outcome == None { ExecuteCounts(s, start, c, outcome, i); }
      case Confirm(c) =>
        if c < |s.calls| { UpdateCall(s.calls, c, s.calls[c].(open := false), i); }
      case Crash(c) =>
        if c < |s.calls| { UpdateCall(s.calls, c, s.calls[c].(open := false), i); }
      case _ =>
    }
  }

  /** No claim is granted beyond the budget. */
  predicate Within(step: Step, m: nat) { step.Peek? ==> MaxAttempts(step.worker) <= m }

  predicate AllWithin(steps: seq<Step>, m: nat) { forall i :: 0 <= i < |steps| ==> Within(steps[i], m) }

  /** Attempts never pass the largest budget among the workers, unless they started there. */
  predicate Budgeted(s: State, start: seq<nat>, m: nat) {
    && |s.rows| == |start|
    && (forall i :: 0 <= i < |s.rows| ==> s.rows[i].attempts <= Max(start[i], m))
    && (forall tx :: tx in s.peeks ==> MaxAttempts(s.peeks[tx]) <= m)
  }

  lemma StepKeepsBudget(s: State, start: seq<nat>, m: nat, step: Step)
    requires Budgeted(s, start, m) && Within(step, m)
    ensures Budgeted(Apply(s, step), start, m)
  {
  }

  lemma {:induction false} RunKeepsBoth(s: State, start: seq<nat>, m: nat, steps: seq<Step>)
    requires Inv(s, start) && Budgeted(s, start, m) && AllWithin(steps, m)
    ensures Inv(Run(s, steps), start) && Budgeted(Run(s, steps), start, m)
    decreases steps
  {
    hide Apply, Inv, Budgeted;
    if steps != [] {
      StepKeepsInv(s, start, steps[0]);
      assert Within(steps[0], m);
      StepKeepsBudget(s, start, m, steps[0]);
      RunKeepsBoth(Apply(s, steps[0]), start, m, steps[1..]);
    }
  }

  function AttemptsOf(rows: seq<Row>): seq<nat> {
    seq(|rows|, i requires 0 <= i < |rows| => rows[i].attempts)
  }

  /** Over every run of workers whose budgets are at most m, with crashes, expired leases, timeouts and
      stale error releases, the executor is called for a step at most as often as its attempts were
      short of m when it was inserted. */
  lemma ExecutorCallsAreBounded(s: State, m: nat, steps: seq<Step>, i: nat)
    requires Fresh(s) && i < |s.rows| && AllWithin(steps, m)
    ensures Executions(Run(s, steps).executed, i) <= if s.rows[i].attempts < m then m - s.rows[i].attempts else 0
  {
    hide Run;
    var start := AttemptsOf(s.rows);
    assert Inv(s, start);
    RunKeepsBoth(s, start, m, steps);
    assert Counted(Run(s, steps), start, i);
  }

  // ---- when DONE is left ----

  /** DONE is left exactly by the error release of a call on that step, however late. */
  lemma DoneIsLeftExactlyBy(s: State, step: Step, i: nat)
    requires i < |s.rows| && s.rows[i].status == DONE
    ensures |Apply(s, step).rows| == |s.rows|
    ensures Apply(s, step).rows[i].status != DONE <==>
            step.Confirm? && step.call < |s.calls| && s.calls[step.call].open
            && s.calls[step.call].outcome == Some(Broken) && s.calls[step.call].step == i
  {
  }

  /** A live call holds the step: nobody else has claimed it since. */
  predicate Live(c: Call, now: nat) { c.open && now <= c.until }

  predicate Holds(c: Call, rows: seq<Row>) {
    c.step < |rows| && rows[c.step].status == RUNNING && rows[c.step].lease == Some(c.until)
    && rows[c.step].attempts == c.attempts
  }

  predicate AllHold(s: State) { forall c :: 0 <= c < |s.calls| && Live(s.calls[c], s.now) ==> Holds(s.calls[c], s.rows) }

  predicate CallOk(c: Call, rows: seq<Row>) { c.step < |rows| && c.attempts <= rows[c.step].attempts }

  predicate CallsOk(s: State) { forall c :: 0 <= c < |s.calls| ==> CallOk(s.calls[c], s.rows) }

  /** Calls on one step are told apart by the attempts they were claimed at. */
  predicate Apart(calls: seq<Call>) {
    forall c, d :: 0 <= c < |calls| && 0 <= d < |calls| && c != d && calls[c].step == calls[d].step ==>
      calls[c].attempts != calls[d].attempts
  }

  predicate Leased(s: State) { AllHold(s) && CallsOk(s) && Apart(s.calls) }

  /** The sweep times out no step that a live call holds. */
  predicate SparesLive(s: State, cutoff: nat) {
    forall c :: 0 <= c < |s.calls| && Live(s.calls[c], s.now) && s.calls[c].step < |s.rows| ==>
      !TimedOut(s.rows[s.calls[c].step], cutoff)
  }

  /** Every write of an outcome is made inside its lease, and no sweep takes a live lease away. */
  predicate InTime(s: State, step: Step) {
    && (step.TimeoutSweep? ==> SparesLive(s, step.cutoff))
    && (step.Confirm? && step.call < |s.calls| ==> s.now <= s.calls[step.call].until)
  }

  predicate Punctual(s: State, steps: seq<Step>)
    decreases steps
  {
    steps == [] || (InTime(s, steps[0]) && Punctual(Apply(s, steps[0]), steps[1..]))
  }

  lemma TakeKeepsCalls(s: State, w: Worker, locked: set<nat>)
    requires CallsOk(s) && Apart(s.calls)
    ensures CallsOk(Take(s, w, locked)) && Apart(Take(s, w, locked).calls)
  {
    var t := Take(s, w, locked);
    forall c | 0 <= c < |t.calls| ensures CallOk(t.calls[c], t.rows) {
      if c < |s.calls| { assert CallOk(s.calls[c], s.rows); }
    }
    forall c, d | 0 <= c < |t.calls| && 0 <= d < |t.calls| && c != d && t.calls[c].step == t.calls[d].step
      ensures t.calls[c].attempts != t.calls[d].attempts
    {
      if c < |s.calls| { assert CallOk(s.calls[c], s.rows); }
      if d < |s.calls| { assert CallOk(s.calls[d], s.rows); }
    }
  }

  lemma TakeKeepsHolds(s: State, w: Worker, locked: set<nat>)
    requires AllHold(s)
    ensures AllHold(Take(s, w, locked))
  {
    var t, i := Take(s, w, locked), NextStep(s.rows, s.now, locked);
    forall c | 0 <= c < |t.calls| && Live(t.calls[c], t.now) ensures Holds(t.calls[c], t.rows) {
      if c < |s.calls| { assert Holds(s.calls[c], s.rows) && (i < |s.rows| ==> s.calls[c].step != i); }
    }
  }

  lemma ConfirmKeepsHolds(s: State, c: nat)
    requires Leased(s) && InTime(s, Confirm(c))
    ensures AllHold(Apply(s, Confirm(c)))
  {
    hide CallsOk, Settled;
    var t := Apply(s, Confirm(c));
    if t != s {
      forall d | 0 <= d < |t.calls| && Live(t.calls[d], t.now) ensures Holds(t.calls[d], t.rows) {
        assert d != c && Live(s.calls[d], s.now) && Holds(s.calls[d], s.rows);
        assert Live(s.calls[c], s.now) && Holds(s.calls[c], s.rows);
      }
    }
  }

  lemma ConfirmKeepsCalls(s: State, c: nat)
    requires CallsOk(s) && Apart(s.calls)
    ensures CallsOk(Apply(s, Confirm(c))) && Apart(Apply(s, Confirm(c)).calls)
  {
    var t := Apply(s, Confirm(c));
    forall d | 0 <= d < |t.calls| ensures CallOk(t.calls[d], t.rows) { assert CallOk(s.calls[d], s.rows); }
  }

  lemma OthersKeepLeased(s: State, step: Step)
    requires Leased(s) && !step.Claim? && !step.Confirm? && InTime(s, step)
    ensures Leased(Apply(s, step))
  {
    var t := Apply(s, step);
    forall c | 0 <= c < |t.calls| && Live(t.calls[c], t.now) ensures Holds(t.calls[c], t.rows) {
      assert Live(s.calls[c], s.now) && Holds(s.calls[c], s.rows);
    }
    forall c | 0 <= c < |t.calls| ensures CallOk(t.calls[c], t.rows) { assert CallOk(s.calls[c], s.rows); }
  }

  lemma StepKeepsLeased(s: State, step: Step)
    requires Leased(s) && InTime(s, step)
    ensures Leased(Apply(s, step))
  {
    hide Take, Holds, CallOk, Apart;
    match step {
      case Claim(tx, locked) =>
        if tx in s.peeks {
          var m := s.(peeks := s.peeks - {tx});
          TakeKeepsCalls(m, s.peeks[tx], locked);
          TakeKeepsHolds(m, s.peeks[tx], locked);
        }
      case Confirm(c) =>
        ConfirmKeepsHolds(s, c);
        ConfirmKeepsCalls(s, c);
      case _ => OthersKeepLeased(s, step);
    }
  }

  lemma {:induction false} LeasedDoneStays(s: State, steps: seq<Step>, i: nat)
    requires Leased(s) && Punctual(s, steps) && i < |s.rows| && s.rows[i].status == DONE
    ensures i < |Run(s, steps).rows| && Run(s, steps).rows[i].status == DONE
    decreases steps
  {
    hide Apply, Leased;
    if steps != [] {
      StepKeepsLeased(s, steps[0]);
      DoneIsLeftExactlyBy(s, steps[0], i);
      PunctualCallsHold(s, steps[0], i);
      LeasedDoneStays(Apply(s, steps[0]), steps[1..], i);
    }
  }

  lemma {:induction false} RunKeepsLeased(s: State, steps: seq<Step>)
    requires Leased(s) && Punctual(s, steps)
    ensures Leased(Run(s, steps))
    decreases steps
  {
    hide Leased, Apply, InTime;
    if steps != [] {
      StepKeepsLeased(s, steps[0]);
      RunKeepsLeased(Apply(s, steps[0]), steps[1..]);
    }
  }

  lemma {:induction false} PunctualSplits(s: State, a: seq<Step>, b: seq<Step>)
    requires Punctual(s, a + b)
    ensures Punctual(s, a) && Punctual(Run(s, a), b)
    decreases a
  {
    hide InTime, Apply;
    if a == [] {
      assert a + b == b;
    } else {
      assert (a + b)[0] == a[0] && (a + b)[1..] == a[1..] + b;
      PunctualSplits(Apply(s, a[0]), a[1..], b);
    }
  }

  /** Over every run from freshly inserted steps in which outcomes are written inside their leases and no
      sweep takes a live lease away, a step once DONE stays so. */
  lemma DoneIsFinalWhenPunctual(s: State, a: seq<Step>, b: seq<Step>, i: nat)
    requires Fresh(s) && Punctual(s, a + b) && i < |Run(s, a).rows| && Run(s, a).rows[i].status == DONE
    ensures i < |Run(s, a + b).rows| && Run(s, a + b).rows[i].status == DONE
  {
    hide Run, Punctual;
    PunctualSplits(s, a, b);
    assert Leased(s);
    RunKeepsLeased(s, a);
    LeasedDoneStays(Run(s, a), b, i);
    RunConcat(s, a, b);
  }

  lemma PunctualCallsHold(s: State, step: Step, i: nat)
    requires Leased(s) && InTime(s, step) && i < |s.rows| && s.rows[i].status == DONE
    ensures !(step.Confirm? && step.call < |s.calls| && s.calls[step.call].open && s.calls[step.call].step == i)
  {
    if step.Confirm? && step.call < |s.calls| && s.calls[step.call].open {
      assert Holds(s.calls[step.call], s.rows);
    }
  }

  // ---- a stale release reopens a finished step ----

  const SLOW := Worker("slow", 30000, 3)
  const QUICK := Worker("quick", 30000, 3)
  const NEW_ROW := Row(PENDING, 0, "", None, None, "")
  const NEW := State(0, true, [NEW_ROW], map[], [], [])

  /** slow claims and stalls past its lease; quick re-claims and finishes the step. */
  const FINISHING: seq<Step> := [Peek(0, SLOW), Claim(0, {}), Tick(30001), Peek(1, QUICK), Claim(1, {}),
                                 Execute(1, Fine("e")), Confirm(1)]

  lemma RunUnfolds(s: State, step: Step, rest: seq<Step>)
    ensures Run(s, [step] + rest) == Run(Apply(s, step), rest)
  {
    assert ([step] + rest)[1..] == rest;
  }

  lemma OnlyStep(rows: seq<Row>, now: nat)
    requires |rows| == 1 && Claimable(rows[0], now)
    ensures NextStep(rows, now, {}) == 0
  {
    assert rows[..0] == [];
  }

  const FIRST_CLAIM := State(0, true, [Row(RUNNING, 1, "slow", Some(30000), None, "")], map[],
                             [Call(0, 1, SLOW, 30000, None, true)], [])
  const SECOND_CLAIM := State(30001, true, [Row(RUNNING, 2, "quick", Some(60001), None, "")], map[],
                              [Call(0, 1, SLOW, 30000, None, true), Call(0, 2, QUICK, 60001, None, true)], [])
  const FINISHED := State(30001, true, [Row(DONE, 2, "quick", None, None, "e")], map[],
                          [Call(0, 1, SLOW, 30000, None, true), Call(0, 2, QUICK, 60001, Some(Fine("e")), false)], [0])

  lemma BothClaim()
    ensures Apply(Apply(NEW, Peek(0, SLOW)), Claim(0, {})) == FIRST_CLAIM
    ensures Apply(Apply(Apply(FIRST_CLAIM, Tick(30001)), Peek(1, QUICK)), Claim(1, {})) == SECOND_CLAIM
    ensures Apply(Apply(SECOND_CLAIM, Execute(1, Fine("e"))), Confirm(1)) == FINISHED
  {
    OnlyStep(NEW.rows, 0);
    OnlyStep(FIRST_CLAIM.rows, 30001);
    assert map[0 := SLOW] - {0} == map[] && map[1 := QUICK] - {1} == map[];
  }

  lemma QuickFinishes()
    ensures Run(NEW, FINISHING) == FINISHED
  {
    hide Apply, Run;
    BothClaim();
    var f := FINISHING;
    var s1 := Apply(NEW, f[0]);
    var s2 := Apply(FIRST_CLAIM, f[2]);
    RunUnfolds(NEW, f[0], f[1..]);
    RunUnfolds(s1, f[1], f[2..]);
    RunUnfolds(FIRST_CLAIM, f[2], f[3..]);
    RunUnfolds(s2, f[3], f[4..]);
    RunUnfolds(Apply(s2, f[3]), f[4], f[5..]);
    RunUnfolds(SECOND_CLAIM, f[5], f[6..]);
    RunUnfolds(Apply(SECOND_CLAIM, f[5]), f[6], []);
    assert f == [f[0]] + f[1..] && f[1..] == [f[1]] + f[2..] && f[2..] == [f[2]] + f[3..] && f[3..] == [f[3]] + f[4..];
    assert f[4..] == [f[4]] + f[5..] && f[5..] == [f[5]] + f[6..] && f[6..] == [f[6]] + [];
    assert Run(FINISHED, []) == FINISHED by { RunOfNone(FINISHED); }
  }

  lemma RunOfNone(s: State)
    ensures Run(s, []) == s
  {
  }

  /** Every step is DONE, so RunDrill would finish the drill SUCCEEDED; then the stalled worker's failing
      executor call puts the step back to PENDING. */
  lemma StaleReleaseReopens()
    ensures var s := Run(NEW, FINISHING); var t := Apply(Apply(s, Execute(0, Broken)), Confirm(0));
            && (forall i :: 0 <= i < |s.rows| ==> s.rows[i].status == DONE)
            && |t.rows| == 1 && t.rows[0].status == PENDING
  {
    hide Run;
    QuickFinishes();
  }

  // ---- RunDrill ----

  /** Attempts left in the table for a worker of budget m. */
  function Remaining(rows: seq<Row>, m: nat): nat
    decreases |rows|
  {
    if rows == [] then 0
    else
      var r := rows[|rows| - 1];
      Remaining(rows[..|rows| - 1], m) + if r.attempts < m then m - r.attempts else 0
  }

  lemma {:induction false} RemainingShrinks(a: seq<Row>, b: seq<Row>, m: nat)
    requires |a| == |b| && forall i :: 0 <= i < |a| ==> a[i].attempts <= b[i].attempts
    ensures Remaining(b, m) <= Remaining(a, m)
    ensures (exists i :: 0 <= i < |a| && a[i].attempts < m && a[i].attempts < b[i].attempts) ==> Remaining(b, m) < Remaining(a, m)
    decreases |a|
  {
    if a != [] {
      var n := |a| - 1;
      RemainingShrinks(a[..n], b[..n], m);
      if i :| 0 <= i < |a| && a[i].attempts < m && a[i].attempts < b[i].attempts && i < n {
        assert a[..n][i].attempts < m && a[..n][i].attempts < b[..n][i].attempts;
      }
    }
  }

  lemma StepKeepsAttempts(s: State, step: Step)
    ensures |Apply(s, step).rows| == |s.rows|
    ensures forall i :: 0 <= i < |s.rows| ==> s.rows[i].attempts <= Apply(s, step).rows[i].attempts
  {
  }

  lemma {:induction false} RunGrowsAttempts(s: State, steps: seq<Step>)
    ensures |Run(s, steps).rows| == |s.rows|
    ensures forall i :: 0 <= i < |s.rows| ==> s.rows[i].attempts <= Run(s, steps).rows[i].attempts
    decreases steps
  {
    hide Apply;
    if steps != [] {
      StepKeepsAttempts(s, steps[0]);
      RunGrowsAttempts(Apply(s, steps[0]), steps[1..]);
    }
  }

  lemma {:induction false} RunConcat(s: State, a: seq<Step>, b: seq<Step>)
    ensures Run(s, a + b) == Run(Run(s, a), b)
    decreases a
  {
    hide Apply;
    if a == [] {
      assert a + b == b;
    } else {
      assert (a + b)[0] == a[0] && (a + b)[1..] == a[1..] + b;
      RunConcat(Apply(s, a[0]), a[1..], b);
    }
  }

  lemma RunSnoc(s: State, a: seq<Step>, step: Step)
    ensures Run(s, a + [step]) == Apply(Run(s, a), step)
  {
    hide Apply;
    RunConcat(s, a, [step]);
    assert [step][1..] == [];
    assert Run(Run(s, a), [step]) == Run(Apply(Run(s, a), step), []);
  }

  /** A round in which call c was claimed. */
  function RoundTrace(tx: nat, w: Worker, locked: set<nat>, c: nat, outcome: Outcome, g1: seq<Step>, g2: seq<Step>): seq<Step> {
    g1 + [Peek(tx, w), Step.Claim(tx, locked)] + ([Execute(c, outcome)] + g2 + [Confirm(c)])
  }

  /** What ClaimNext tells its caller. */
  datatype Claim = Nothing | Exhausted | Got(call: nat)

  /** What the claim transaction tells a worker that saw the drill RUNNING. */
  function Answer(s: State, tx: nat, locked: set<nat>): Claim {
    if tx !in s.peeks then Nothing
    else
      var i := NextStep(s.rows, s.now, locked);
      if i == |s.rows| then Nothing
      else if s.rows[i].attempts >= MaxAttempts(s.peeks[tx]) then Exhausted
      else Got(|s.calls|)
  }

  predicate Sees(s: State, tx: nat) { tx !in s.peeks && s.running }

  /** One worker's loop and its surroundings: in round k others hold the row locks locked(k), the executor
      answers executor(k), and others do gap(2k) before the round and gap(2k + 1) before its outcome is
      written. */
  datatype Script = Script(tx: nat, w: Worker, locked: nat -> set<nat>, executor: nat -> Outcome, gap: nat -> seq<Step>)

  ghost function Looked(s: State, sc: Script, k: nat): State { Apply(Run(s, sc.gap(2 * k)), Step.Peek(sc.tx, sc.w)) }

  ghost function RoundClaim(s: State, sc: Script, k: nat): Claim {
    if Sees(Run(s, sc.gap(2 * k)), sc.tx) then Answer(Looked(s, sc, k), sc.tx, sc.locked(k)) else Nothing
  }

  /** The steps of round k. */
  ghost function RoundSteps(s: State, sc: Script, k: nat): seq<Step> {
    var look := sc.gap(2 * k) + [Step.Peek(sc.tx, sc.w)];
    if !Sees(Run(s, sc.gap(2 * k)), sc.tx) then look
    else
      match RoundClaim(s, sc, k)
      case Got(c) => RoundTrace(sc.tx, sc.w, sc.locked(k), c, sc.executor(k), sc.gap(2 * k), sc.gap(2 * k + 1))
      case _ => look + [Step.Claim(sc.tx, sc.locked(k))]
  }

  /** The steps of the first n rounds. */
  ghost function Rounds(s: State, sc: Script, n: nat): seq<Step>
    decreases n
  {
    if n == 0 then [] else Rounds(s, sc, n - 1) + RoundSteps(Run(s, Rounds(s, sc, n - 1)), sc, n - 1)
  }

  ghost function ClaimOf(s: State, sc: Script, k: nat): Claim { RoundClaim(Run(s, Rounds(s, sc, k)), sc, k) }

  /** After round k the loop goes on: a step was claimed and the executor did not fail. */
  ghost predicate GoesOn(s: State, sc: Script, k: nat) { ClaimOf(s, sc, k).Got? && sc.executor(k) != Broken }

  /** How RunDrill leaves the drill: aggregated as done or failed, still open, or an error. */
  datatype Ending = Succeeds | Fails | StaysOpen | Stops

  predicate AllDone(rows: seq<Row>) { rows != [] && forall i :: 0 <= i < |rows| ==> rows[i].status == DONE }

  predicate SomeFailed(rows: seq<Row>) { exists i :: 0 <= i < |rows| && rows[i].status == FAILED }

  /** What the counts of done, failed and all steps decide. */
  function EndingOf(rows: seq<Row>): Ending {
    if SomeFailed(rows) then Fails else if AllDone(rows) then Succeeds else StaysOpen
  }

  class Drill {
    var now: nat
    var running: bool
    var rows: seq<Row>
    var peeks: map<nat, Worker>
    var calls: seq<Call>
    var executed: seq<nat>

    function Model(): State
      reads this
    {
      State(now, running, rows, peeks, calls, executed)
    }

    method Peek(tx: nat, w: Worker) returns (seen: bool)
      modifies this`peeks
      ensures Model() == Apply(old(Model()), Step.Peek(tx, w))
      ensures seen == Sees(old(Model()), tx) && (seen ==> tx in peeks && peeks[tx] == w)
    {
      if tx in peeks || !running { return false; }
      peeks := peeks[tx := w];
      return true;
    }

    /** The claim transaction after the drill's state was seen. */
    method ClaimNext(tx: nat, locked: set<nat>) returns (r: Claim)
      requires tx in peeks
      modifies this`peeks, this`rows, this`calls
      ensures Model() == Apply(old(Model()), Step.Claim(tx, locked)) && r == Answer(old(Model()), tx, locked)
      ensures r.Got? ==> r.call == |old(calls)| < |calls| && calls[r.call].open && calls[r.call].outcome == None
                         && calls[r.call].step < |rows| && calls[r.call].worker == old(peeks)[tx]
                         && old(rows)[calls[r.call].step].attempts < MaxAttempts(old(peeks)[tx])
                         && rows[calls[r.call].step].attempts == old(rows)[calls[r.call].step].attempts + 1
    {
      var w := peeks[tx];
      peeks := peeks - {tx};
      var i := NextStep(rows, now, locked);
      if i == |rows| { return Nothing; }
      if rows[i].attempts >= MaxAttempts(w) {
        rows := rows[i := rows[i].(status := FAILED, lease := None)];
        return Exhausted;
      }
      rows := rows[i := Claimed(rows[i], w, now)];
      calls := calls + [Call(i, rows[i].attempts, w, now + LeaseTTL(w), None, true)];
      return Got(|calls| - 1);
    }

    method Execute(c: nat, outcome: Outcome)
      modifies this`calls, this`executed
      ensures Model() == Apply(old(Model()), Step.Execute(c, outcome))
    {
      if c < |calls| && calls[c].open && calls[c].outcome == None {
        executed := executed + [calls[c].step];
        calls := calls[c := calls[c].(outcome := Some(outcome))];
      }
    }

    method Confirm(c: nat)
      modifies this`calls, this`rows
      ensures Model() == Apply(old(Model()), Step.Confirm(c))
    {
      if c < |calls| && calls[c].open && calls[c].outcome.Some? && calls[c].step < |rows| {
        var k := calls[c];
        calls := calls[c := k.(open := false)];
        var r := rows[k.step];
        match k.outcome.value
        case Broken => rows := rows[k.step := r.(status := PENDING, lease := None)];
        case Fine(evidence) =>
          if r.status in {RUNNING, PENDING} && (r.claimedBy == k.worker.id || r.claimedBy == "") {
            rows := rows[k.step := r.(status := DONE, evidence := evidence, lease := None)];
          } else {
            assert rows[k.step := r] == rows;
          }
      }
    }

    method TimeoutSweep(cutoff: nat)
      modifies this`rows
      ensures Model() == Apply(old(Model()), Step.TimeoutSweep(cutoff))
    {
      ghost var before := rows;
      for i := 0 to |rows|
        invariant |rows| == |before|
        invariant forall k :: 0 <= k < |rows| ==> rows[k] == if k < i then Swept(before, cutoff)[k] else before[k]
      {
        if TimedOut(rows[i], cutoff) { rows := rows[i := rows[i].(status := PENDING, lease := None)]; }
      }
      assert rows == Swept(before, cutoff);
    }

    method Do(step: Step)
      modifies this
      ensures Model() == Apply(old(Model()), step)
    {
      match step
      case Tick(ms) => now := now + ms;
      case SetRunning(r) => running := r;
      case Peek(tx, w) => var _ := Peek(tx, w);
      case Claim(tx, locked) => if tx in peeks { var _ := ClaimNext(tx, locked); }
      case Execute(c, outcome) => Execute(c, outcome);
      case Confirm(c) => Confirm(c);
      case Crash(c) => if c < |calls| { calls := calls[c := calls[c].(open := false)]; }
      case TimeoutSweep(cutoff) => TimeoutSweep(cutoff);
    }

    /** What other workers, the clock and the sweep do meanwhile. */
    method Others(gap: seq<Step>)
      modifies this
      ensures Model() == Run(old(Model()), gap)
    {
      hide Apply;
      ghost var start := Model();
      for i := 0 to |gap|
        invariant Model() == Run(start, gap[..i])
      {
        assert gap[..i + 1] == gap[..i] + [gap[i]];
        RunSnoc(start, gap[..i], gap[i]);
        Do(gap[i]);
      }
      assert gap[..|gap|] == gap;
    }

    /** The executor call, what others do before the outcome is written, and the write. */
    method RunStep(c: nat, outcome: Outcome, gap: seq<Step>)
      modifies this
      ensures Model() == Run(old(Model()), [Step.Execute(c, outcome)] + gap + [Step.Confirm(c)])
    {
      hide Apply;
      ghost var s := Model();
      Execute(c, outcome);
      RunUnfolds(s, Step.Execute(c, outcome), gap);
      Others(gap);
      RunSnoc(s, [Step.Execute(c, outcome)] + gap, Step.Confirm(c));
      Confirm(c);
    }

    /** One round of the loop: it takes the round's steps, and either ends the loop or uses up an attempt of
        the worker's budget, whatever the others do. */
    method Round(sc: Script, k: nat) returns (claim: Claim)
      modifies this
      ensures Model() == Run(old(Model()), RoundSteps(old(Model()), sc, k))
      ensures claim == RoundClaim(old(Model()), sc, k)
      ensures claim.Got? ==> Remaining(rows, MaxAttempts(sc.w)) < Remaining(old(rows), MaxAttempts(sc.w))
    {
      hide Apply, Run, Remaining, NextStep;
      ghost var s := Model();
      var tx, w, g1 := sc.tx, sc.w, sc.gap(2 * k);
      Others(g1);
      RunSnoc(s, g1, Step.Peek(tx, w));
      RunGrowsAttempts(s, g1);
      ghost var trace := g1 + [Step.Peek(tx, w)];
      ghost var before := rows;
      var seen := Peek(tx, w);
      if !seen { return Nothing; }
      RunSnoc(s, trace, Step.Claim(tx, sc.locked(k)));
      trace := trace + [Step.Claim(tx, sc.locked(k))];
      StepKeepsAttempts(Model(), Step.Claim(tx, sc.locked(k)));
      claim := ClaimNext(tx, sc.locked(k));
      if !claim.Got? { return; }
      ghost var i, m := calls[claim.call].step, Model();
      assert s.rows[i].attempts <= before[i].attempts < MaxAttempts(w) && before[i].attempts < rows[i].attempts;
      RunStep(claim.call, sc.executor(k), sc.gap(2 * k + 1));
      ghost var more := [Step.Execute(claim.call, sc.executor(k))] + sc.gap(2 * k + 1) + [Step.Confirm(claim.call)];
      RunGrowsAttempts(m, more);
      RunConcat(s, trace, more);
      assert trace + more == RoundSteps(s, sc, k);
      RemainingShrinks(s.rows, rows, MaxAttempts(w));
    }

    /** ClaimNext then RunStep, until nothing is claimable or something fails; then the aggregate of the
        step states decides.  The loop takes the steps of its first n + 1 rounds: all but the last went on,
        and the last found nothing, or met a spent budget or a failing executor and so is an error. */
    method RunDrill(sc: Script) returns (ending: Ending, ghost n: nat)
      modifies this
      ensures Model() == Run(old(Model()), Rounds(old(Model()), sc, n + 1))
      ensures (forall k :: 0 <= k < n ==> GoesOn(old(Model()), sc, k)) && !GoesOn(old(Model()), sc, n)
      ensures ending == if ClaimOf(old(Model()), sc, n) == Nothing then EndingOf(rows) else Stops
    {
      hide Remaining, Apply, Run, RoundSteps, RoundClaim;
      ghost var s := Model();
      RunOfNone(s);
      var k := 0;
      while true
        invariant Model() == Run(s, Rounds(s, sc, k))
        invariant forall j :: 0 <= j < k ==> GoesOn(s, sc, j)
        decreases Remaining(rows, MaxAttempts(sc.w))
      {
        ghost var m := Model();
        var claim := Round(sc, k);
        RunConcat(s, Rounds(s, sc, k), RoundSteps(m, sc, k));
        n := k;
        if claim == Nothing { break; }
        if claim == Exhausted || sc.executor(k) == Broken { return Stops, k; }
        k := k + 1;
      }
      ending := Aggregate();
    }

    /** The counts of done and failed steps. */
    method Aggregate() returns (ending: Ending)
      ensures ending == EndingOf(rows)
    {
      var done, failed := 0, 0;
      for i := 0 to |rows|
        invariant 0 <= done <= i && (done == i <==> forall j :: 0 <= j < i ==> rows[j].status == DONE)
        invariant 0 <= failed && (failed > 0 <==> exists j :: 0 <= j < i && rows[j].status == FAILED)
      {
        if rows[i].status == DONE { done := done + 1; }
        if rows[i].status == FAILED { failed := failed + 1; }
      }
      if |rows| == 0 { return StaysOpen; }
      if failed > 0 { return Fails; }
      if done == |rows| { return Succeeds; }
      return StaysOpen;
    }
  }
}

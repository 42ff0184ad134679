/** A drill and its step workers together: what the Finish at the end of RunDrill meets after whatever
    others have done since the count. */
module DrillRun {
  import opened Base
  import D = Drill
  import W = DrillWorker

  /** verdicts: for each worker at the end of its loop, the step rows it counted. */
  datatype System = System(key: string, drills: D.State, work: W.State, verdicts: map<nat, seq<W.Row>>)

  datatype Action =
    | Command(step: D.Step)
    | Work(job: W.Step)
    | Count(tx: nat)
    | FinishRead(tx: nat, worker: string)

  predicate IsRunning(drills: map<string, D.Drill>, key: string) { key in drills && drills[key].state == D.RUNNING }

  /** The Finish that RunDrill calls for an ending, if it calls one. */
  function FinishCommand(ending: W.Ending, worker: string): Option<D.Command> {
    match ending
    case Succeeds => Some(D.Finish(D.SUCCEEDED, worker, "all steps done"))
    case Fails => Some(D.Finish(D.FAILED, worker, "steps failed (retry budget exhausted)"))
    case _ => None
  }

  /** Only workers finish this drill. */
  predicate IsFinish(step: D.Step, key: string) { step.Read? && step.key == key && step.command.Finish? }

  /** A claim sees the drill's state as it is. */
  function Synced(s: System): System { s.(work := s.work.(running := IsRunning(s.drills.drills, s.key))) }

  function Act(s: System, a: Action): System {
    match a
    case Command(step) => if IsFinish(step, s.key) then s else Synced(s.(drills := D.Apply(s.drills, step)))
    case Work(job) => if job.SetRunning? then s else s.(work := W.Apply(s.work, job))
    case Count(tx) =>
      if tx in s.verdicts || tx in s.drills.pending then s else s.(verdicts := s.verdicts[tx := s.work.rows])
    case FinishRead(tx, worker) =>
      if tx !in s.verdicts || FinishCommand(W.EndingOf(s.verdicts[tx]), worker).None? then s
      else Synced(s.(drills := D.Apply(s.drills, D.Read(tx, s.key, FinishCommand(W.EndingOf(s.verdicts[tx]), worker).value))))
  }

  function Run(s: System, actions: seq<Action>): System
    decreases actions
  {
    if actions == [] then s else Run(Act(s, actions[0]), actions[1..])
  }

  /** Nothing has happened to the drills, and the steps are as inserted. */
  ghost predicate Initial(s: System) { s.drills == D.START && W.Fresh(s.work) && s.verdicts == map[] }

  // ---- every finish was counted ----

  /** A pending Finish of this drill answers the count its worker made. */
  ghost predicate Counted(p: D.Pending, tx: nat, s: System) {
    p.command.Finish? && p.key == s.key ==>
      tx in s.verdicts && Some(p.command) == FinishCommand(W.EndingOf(s.verdicts[tx]), p.command.actor)
  }

  ghost predicate AllCounted(s: System) {
    forall tx :: tx in s.drills.pending ==> Counted(s.drills.pending[tx], tx, s)
  }

  lemma ActKeepsCounted(s: System, a: Action)
    requires AllCounted(s)
    ensures AllCounted(Act(s, a)) && Act(s, a).key == s.key
  {
    var t := Act(s, a);
    forall tx | tx in t.drills.pending ensures Counted(t.drills.pending[tx], tx, t) {
      if tx in s.drills.pending && t.drills.pending[tx] == s.drills.pending[tx] {
        assert Counted(s.drills.pending[tx], tx, s);
      }
    }
  }

  /** The edges a step adds to this drill's log from RUNNING to an end are the write of a counted Finish. */
  ghost predicate Ends(s: System, t: System, to: D.Life) {
    && s.key in s.drills.drills && s.key in t.drills.drills
    && var a, b := s.drills.drills[s.key].log, t.drills.drills[s.key].log;
       a <= b && exists k :: |a| <= k < |b| && b[k].from == D.RUNNING && b[k].to == to
  }

  /** A drill leaves RUNNING for SUCCEEDED or FAILED only by the write of a Finish whose worker counted, at
      some earlier moment, every step DONE, or some step FAILED; it was RUNNING up to that write. */
  lemma EndsAreCounted(s: System, a: Action, to: D.Life)
    requires D.Inv(s.drills) && AllCounted(s) && to in {D.SUCCEEDED, D.FAILED} && Ends(s, Act(s, a), to)
    ensures a.Command? && a.step.Write? && a.step.tx in s.verdicts && IsRunning(s.drills.drills, s.key)
    ensures to == D.SUCCEEDED ==> W.AllDone(s.verdicts[a.step.tx])
    ensures to == D.FAILED ==> W.SomeFailed(s.verdicts[a.step.tx])
  {
    hide D.Inv;
    var t := Act(s, a);
    var d, e := s.drills.drills[s.key], t.drills.drills[s.key];
    var k :| |d.log| <= k < |e.log| && e.log[k].from == D.RUNNING && e.log[k].to == to;
    assert a.Command?;
    EndingWrites(s.drills, a.step, s.key, k, to);
    var p := s.drills.pending[a.step.tx];
    assert Counted(p, a.step.tx, s);
  }

  lemma EndingWrites(s: D.State, step: D.Step, key: string, k: nat, to: D.Life)
    requires D.Inv(s) && key in s.drills && key in D.Apply(s, step).drills && to in {D.SUCCEEDED, D.FAILED}
    requires var a, b := s.drills[key].log, D.Apply(s, step).drills[key].log;
             |a| <= k < |b| && b[k].from == D.RUNNING && b[k].to == to
    ensures step.Write? && step.tx in s.pending && s.pending[step.tx].key == key
    ensures s.pending[step.tx].command.Finish? && s.pending[step.tx].command.to == to && s.drills[key].state == D.RUNNING
  {
    if step.Write? && step.tx in s.pending { assert D.PendingOk(s.pending[step.tx], s.drills); }
  }

  // ---- what the steps are when the finish is written ----

  /** Every outcome is written inside its lease and no sweep takes a live lease away. */
  ghost predicate InTime(s: System, a: Action) { a.Work? ==> W.InTime(s.work, a.job) }

  ghost predicate Punctual(s: System, actions: seq<Action>)
    decreases actions
  {
    actions == [] || (InTime(s, actions[0]) && Punctual(Act(s, actions[0]), actions[1..]))
  }

  /** A count of all DONE is still true. */
  ghost predicate Holds(s: System) {
    forall tx :: tx in s.verdicts && W.AllDone(s.verdicts[tx]) ==> W.AllDone(s.work.rows)
  }

  lemma WorkKeepsDone(s: W.State, step: W.Step)
    requires W.Leased(s) && W.InTime(s, step) && W.AllDone(s.rows)
    ensures W.AllDone(W.Apply(s, step).rows)
  {
    hide W.Leased, W.Apply, W.InTime;
    var t := W.Apply(s, step);
    W.StepKeepsAttempts(s, step);
    forall i | 0 <= i < |t.rows| ensures t.rows[i].status == W.DONE {
      W.DoneIsLeftExactlyBy(s, step, i);
      W.PunctualCallsHold(s, step, i);
    }
  }

  lemma ActKeepsHolds(s: System, a: Action)
    requires W.Leased(s.work) && Holds(s) && InTime(s, a)
    ensures W.Leased(Act(s, a).work) && Holds(Act(s, a))
  {
    hide W.Apply, W.AllDone;
    if a.Work? && !a.job.SetRunning? {
      W.StepKeepsLeased(s.work, a.job);
      if W.AllDone(s.work.rows) { WorkKeepsDone(s.work, a.job); }
    }
  }

  ghost predicate Sound(s: System) { D.Inv(s.drills) && AllCounted(s) }

  lemma ActKeepsSound(s: System, a: Action)
    requires Sound(s)
    ensures Sound(Act(s, a))
  {
    hide D.Inv, D.Apply;
    ActKeepsCounted(s, a);
    match a {
      case Command(step) => D.StepKeepsInv(s.drills, step);
      case FinishRead(tx, worker) =>
        if tx in s.verdicts && FinishCommand(W.EndingOf(s.verdicts[tx]), worker).Some? {
          D.StepKeepsInv(s.drills, D.Read(tx, s.key, FinishCommand(W.EndingOf(s.verdicts[tx]), worker).value));
        }
      case _ =>
    }
  }

  lemma {:induction false} RunKeepsSound(s: System, actions: seq<Action>)
    requires Sound(s)
    ensures Sound(Run(s, actions)) && Run(s, actions).key == s.key
    decreases actions
  {
    hide Sound, Act;
    if actions != [] {
      ActKeepsSound(s, actions[0]);
      assert Act(s, actions[0]).key == s.key by { SameKey(s, actions[0]); }
      RunKeepsSound(Act(s, actions[0]), actions[1..]);
    }
  }

  lemma SameKey(s: System, a: Action)
    ensures Act(s, a).key == s.key
  {
  }

  lemma {:induction false} RunKeepsHolds(s: System, actions: seq<Action>)
    requires W.Leased(s.work) && Holds(s) && Punctual(s, actions)
    ensures W.Leased(Run(s, actions).work) && Holds(Run(s, actions))
    decreases actions
  {
    hide W.Leased, Holds, InTime, Act;
    if actions != [] {
      ActKeepsHolds(s, actions[0]);
      RunKeepsHolds(Act(s, actions[0]), actions[1..]);
    }
  }

  /** Over every run of commands, workers, crashes and sweeps: whoever drives the drill from RUNNING to
      SUCCEEDED counted every step DONE; and if outcomes were all written inside their leases, every step is
      still DONE at that write. */
  lemma SuccessMeetsDoneSteps(s: System, actions: seq<Action>, a: Action)
    requires Initial(s) && Ends(Run(s, actions), Act(Run(s, actions), a), D.SUCCEEDED)
    ensures var m := Run(s, actions); a.Command? && a.step.Write? && a.step.tx in m.verdicts && W.AllDone(m.verdicts[a.step.tx])
    ensures Punctual(s, actions) ==> W.AllDone(Run(s, actions).work.rows)
  {
    hide Act, Ends, W.AllDone;
    RunKeepsSound(s, actions);
    EndsAreCounted(Run(s, actions), a, D.SUCCEEDED);
    if Punctual(s, actions) { RunKeepsHolds(s, actions); }
  }

  /** Likewise a drive to FAILED counted a FAILED step. */
  lemma FailureMeetsAFailedStep(s: System, actions: seq<Action>, a: Action)
    requires Initial(s) && Ends(Run(s, actions), Act(Run(s, actions), a), D.FAILED)
    ensures var m := Run(s, actions); a.Command? && a.step.Write? && a.step.tx in m.verdicts && W.SomeFailed(m.verdicts[a.step.tx])
  {
    hide Act, Ends, W.SomeFailed;
    RunKeepsSound(s, actions);
    EndsAreCounted(Run(s, actions), a, D.FAILED);
  }

  // ---- a stale release beneath a success ----

  const KEY := "d"
  const BUSY := D.Drill("alice", "bob", D.RUNNING, "",
                        [D.Edge(D.DRAFT, D.APPROVED, "bob"), D.Edge(D.APPROVED, D.SCHEDULED, "ops"),
                         D.Edge(D.SCHEDULED, D.RUNNING, "quick")], map[])

  function Asked(c: D.Command): seq<D.Step> { [D.Read(0, KEY, c), D.Write(0)] }

  function Alone(d: D.Drill): D.State { D.State(map[KEY := d], map[]) }

  /** A drill is created, approved, scheduled and started. */
  const LAUNCHING: seq<D.Step> := [D.Create(KEY, "vendor", "alice")] + Asked(D.Approve("bob")) + Asked(D.Schedule("ops"))
                                + Asked(D.Launch("quick"))

  /** A command on a drill nobody else touches does what its write says. */
  lemma CommandAlone(d: D.Drill, c: D.Command, e: D.Drill)
    requires D.Admissible(c) && d.state == D.From(c)
    requires D.Written(d, D.Pending(KEY, c, d.initiator, d.evidence)) == Some(e)
    ensures D.Run(Alone(d), Asked(c)) == Alone(e)
  {
    hide D.Written, D.From;
    var s1 := D.Apply(Alone(d), D.Read(0, KEY, c));
    assert s1.pending - {0} == map[];
    assert Alone(d).drills[KEY := e] == Alone(e).drills;
    D.RunOne(Alone(d), D.Read(0, KEY, c));
    D.RunOne(s1, D.Write(0));
    D.RunConcat(Alone(d), [D.Read(0, KEY, c)], [D.Write(0)]);
    assert Asked(c) == [D.Read(0, KEY, c)] + [D.Write(0)];
  }

  lemma Launches()
    ensures D.Run(D.START, LAUNCHING) == Alone(BUSY)
  {
    hide D.Run;
    var d0 := D.Drill("alice", "", D.DRAFT, "", [], map[]);
    var d1 := D.Move(d0, D.APPROVED, "bob").(approver := "bob");
    var d2 := D.Move(d1, D.SCHEDULED, "ops");
    var create := D.Create(KEY, "vendor", "alice");
    D.RunOne(D.START, create);
    CommandAlone(d0, D.Approve("bob"), d1);
    CommandAlone(d1, D.Schedule("ops"), d2);
    CommandAlone(d2, D.Launch("quick"), D.Move(d2, D.RUNNING, "quick"));
    assert D.Move(d2, D.RUNNING, "quick") == BUSY;
    D.RunConcat(D.START, [create], Asked(D.Approve("bob")));
    D.RunConcat(D.START, [create] + Asked(D.Approve("bob")), Asked(D.Schedule("ops")));
    D.RunConcat(D.START, [create] + Asked(D.Approve("bob")) + Asked(D.Schedule("ops")), Asked(D.Launch("quick")));
  }

  function Commands(steps: seq<D.Step>): seq<Action> {
    seq(|steps|, i requires 0 <= i < |steps| => Command(steps[i]))
  }

  function Jobs(jobs: seq<W.Step>): seq<Action> { seq(|jobs|, i requires 0 <= i < |jobs| => Work(jobs[i])) }

  lemma {:induction false} RunCommands(s: System, steps: seq<D.Step>)
    requires s == Synced(s) && forall i :: 0 <= i < |steps| ==> !IsFinish(steps[i], s.key)
    ensures Run(s, Commands(steps)) == Synced(s.(drills := D.Run(s.drills, steps)))
    decreases steps
  {
    hide D.Apply;
    if steps != [] {
      assert Commands(steps)[1..] == Commands(steps[1..]);
      RunCommands(Act(s, Command(steps[0])), steps[1..]);
    }
  }

  lemma {:induction false} RunJobs(s: System, jobs: seq<W.Step>)
    requires forall i :: 0 <= i < |jobs| ==> !jobs[i].SetRunning?
    ensures Run(s, Jobs(jobs)) == s.(work := W.Run(s.work, jobs))
    decreases jobs
  {
    hide W.Apply;
    if jobs != [] {
      assert Jobs(jobs)[1..] == Jobs(jobs[1..]);
      RunJobs(Act(s, Work(jobs[0])), jobs[1..]);
    }
  }

  lemma {:induction false} RunConcat(s: System, a: seq<Action>, b: seq<Action>)
    ensures Run(s, a + b) == Run(Run(s, a), b)
    decreases a
  {
    hide Act;
    if a == [] {
      assert a + b == b;
    } else {
      assert (a + b)[0] == a[0] && (a + b)[1..] == a[1..] + b;
      RunConcat(Act(s, a[0]), a[1..], b);
    }
  }

  const REOPENED := W.State(30001, true, [W.Row(W.PENDING, 2, "quick", None, None, "e")], map[],
                            [W.Call(0, 1, W.SLOW, 30000, Some(W.Broken), false),
                             W.Call(0, 2, W.QUICK, 60001, Some(W.Fine("e")), false)], [0, 0])

  lemma StaleCallReopens()
    ensures W.Apply(W.Apply(W.FINISHED, W.Execute(0, W.Broken)), W.Confirm(0)) == REOPENED
  {
  }

  /** The Finish of a finished count drives a running drill without findings to SUCCEEDED. */
  lemma CountedFinishSucceeds(s: System)
    requires s.key == KEY && KEY in s.drills.drills && s.drills.drills[KEY] == BUSY && s.drills.pending == map[]
    requires 0 in s.verdicts && s.verdicts[0] == W.FINISHED.rows
    ensures var m := Act(s, FinishRead(0, "quick"));
            m.work.rows == s.work.rows
            && KEY in Act(m, Command(D.Write(0))).drills.drills && Act(m, Command(D.Write(0))).drills.drills[KEY].state == D.SUCCEEDED
  {
    hide W.Apply;
    assert W.AllDone(W.FINISHED.rows) && !W.SomeFailed(W.FINISHED.rows);
  }

  lemma RunOfFour(s: System, a: Action, b: Action, c: Action, d: Action)
    ensures Run(s, [a, b, c, d]) == Act(Act(Act(Act(s, a), b), c), d)
  {
    hide Act;
    var actions := [a, b, c, d];
    assert actions[1..][1..][1..][1..] == [];
    assert Run(s, actions) == Run(Act(s, a), actions[1..]) == Run(Act(Act(s, a), b), actions[1..][1..]);
    assert Run(Act(Act(s, a), b), actions[1..][1..]) == Run(Act(Act(Act(s, a), b), c), actions[1..][1..][1..]);
  }

  const FIRST := System(KEY, D.START, W.NEW.(running := false), map[])

  /** The drill starts; one worker claims its step and stalls, another finishes it and counts; the stalled
      call fails and puts the step back; the counting worker reads for its Finish. */
  const PREPARING: seq<Action> := Commands(LAUNCHING) + Jobs(W.FINISHING)
  const COUNTED: seq<Action> := PREPARING
    + [Count(0), Work(W.Execute(0, W.Broken)), Work(W.Confirm(0)), FinishRead(0, "quick")]

  lemma Prepares()
    ensures Run(FIRST, PREPARING) == System(KEY, D.State(map[KEY := BUSY], map[]), W.FINISHED, map[])
  {
    hide D.Apply, W.Apply, W.Run, D.Run;
    Launches();
    RunCommands(FIRST, LAUNCHING);
    W.QuickFinishes();
    RunJobs(Run(FIRST, Commands(LAUNCHING)), W.FINISHING);
    RunConcat(FIRST, Commands(LAUNCHING), Jobs(W.FINISHING));
  }

  /** From the beginning: the drill is driven to SUCCEEDED over a step that is PENDING by the time of the
      write. */
  lemma SuccessOverAPendingStep()
    ensures Initial(FIRST)
    ensures var m := Run(FIRST, COUNTED); var t := Act(m, Command(D.Write(0)));
            && |m.work.rows| == 1 && m.work.rows[0].status == W.PENDING
            && KEY in t.drills.drills && t.drills.drills[KEY].state == D.SUCCEEDED
  {
    hide D.Apply, W.Apply, Run;
    Prepares();
    var s := Run(FIRST, PREPARING);
    StaleCallReopens();
    RunConcat(FIRST, PREPARING, [Count(0), Work(W.Execute(0, W.Broken)), Work(W.Confirm(0)), FinishRead(0, "quick")]);
    RunOfFour(s, Count(0), Work(W.Execute(0, W.Broken)), Work(W.Confirm(0)), FinishRead(0, "quick"));
    CountedFinishSucceeds(s.(verdicts := map[0 := W.FINISHED.rows], work := REOPENED));
  }

  // ---- the code ----

  /** The end of RunDrill: the Finish its count calls for, with whatever commits between Finish's read and
      write. */
  method Conclude(store: D.Store, tx: nat, key: string, worker: string, ending: W.Ending, gap: seq<D.Step>)
      returns (ok: bool)
    requires tx !in store.pending
    modifies store
    ensures var c := FinishCommand(ending, worker);
            store.Model() == D.Run(old(store.Model()),
                                   if c.Some? && D.Outcomes(old(store.drills), key, c.value) == D.Proceeds
                                   then [D.Read(tx, key, c.value)] + gap + [D.Write(tx)] else [])
  {
    ok := true;
    match ending
    case Succeeds => ok := store.Transition(tx, key, D.Finish(D.SUCCEEDED, worker, "all steps done"), gap);
    case Fails => ok := store.Transition(tx, key, D.Finish(D.FAILED, worker, "steps failed (retry budget exhausted)"), gap);
    case _ =>
  }
}

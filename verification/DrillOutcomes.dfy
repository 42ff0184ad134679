/** What each drill command leaves, and when it is refused, in the drill's own columns. */
module DrillOutcomes {
  import opened Base
  import opened Drill
  import W = DrillWorker
  import R = DrillRun

  // ---- the commands, spelled out ----

  function Enters(d: Drill, to: Life, actor: string): Drill {
    d.(state := to, log := d.log + [Edge(d.state, to, actor)])
  }

  ghost predicate AllResolved(d: Drill) { forall f :: f in d.findings ==> !d.findings[f] }

  /** approve: a draft, by somebody else than its initiator. */
  predicate MayApprove(d: Drill, approver: string) { d.state == DRAFT && approver != d.initiator }

  /** abort: scheduled, running or in remediation, as looked up first. */
  predicate MayAbort(d: Drill, from: Life) { d.state == from && from in {SCHEDULED, RUNNING, REMEDIATION_OPEN} }

  ghost predicate MayClose(d: Drill) { d.state == REMEDIATION_OPEN && AllResolved(d) && d.evidence != "" }

  ghost predicate May(d: Drill, c: Command) {
    match c
    case Approve(approver) => MayApprove(d, approver)
    case Schedule(_) => d.state == APPROVED
    case Launch(_) => d.state == SCHEDULED
    case Abort(_, from) => MayAbort(d, from)
    case Finish(to, _, _) => d.state == RUNNING && to in {SUCCEEDED, FAILED}
    case Close(_) => MayClose(d)
  }

  /** A finish stores its evidence; a success over a drill with findings, open or not, goes on into remediation,
      with a log row for each of the two moves. */
  function Finished(d: Drill, to: Life, actor: string, evidence: string): Drill {
    if to == SUCCEEDED && d.findings != map[] then
      d.(state := REMEDIATION_OPEN, evidence := evidence,
         log := d.log + [Edge(d.state, SUCCEEDED, actor), Edge(SUCCEEDED, REMEDIATION_OPEN, actor)])
    else d.(state := to, evidence := evidence, log := d.log + [Edge(d.state, to, actor)])
  }

  function Left(d: Drill, c: Command): Drill {
    match c
    case Approve(approver) => Enters(d, APPROVED, approver).(approver := approver)
    case Schedule(actor) => Enters(d, SCHEDULED, actor)
    case Launch(worker) => Enters(d, RUNNING, worker)
    case Abort(actor, _) => Enters(d, ABORTED, actor)
    case Finish(to, actor, evidence) => Finished(d, to, actor, evidence)
    case Close(actor) => Enters(d, CLOSED, actor)
  }

  lemma WrittenExactly(d: Drill, p: Pending)
    requires p.initiator == d.initiator && Admissible(p.command) && (p.command.Close? ==> p.evidence == d.evidence)
    ensures Written(d, p) == if May(d, p.command) then Some(Left(d, p.command)) else None
  {
    var c := p.command;
    assert AnyOpen(d) <==> !AllResolved(d);
    if c.Finish? && d.state == RUNNING {
      assert d.log + [Edge(RUNNING, SUCCEEDED, c.actor)] + [Edge(SUCCEEDED, REMEDIATION_OPEN, c.actor)]
          == d.log + [Edge(RUNNING, SUCCEEDED, c.actor), Edge(SUCCEEDED, REMEDIATION_OPEN, c.actor)];
    }
  }

  /** Over every run: the write of an open command, whatever was committed since its read, moves its drill as the
      command says if and only if the drill as it then is allows it; otherwise it changes no drill. */
  lemma WritesExactly(steps: seq<Step>, tx: nat)
    requires tx in Run(START, steps).pending
    ensures var s := Run(START, steps); var p := s.pending[tx]; var t := Apply(s, Step.Write(tx));
            && t.pending == s.pending - {tx} && p.key in s.drills
            && t.drills == (if May(s.drills[p.key], p.command) then s.drills[p.key := Left(s.drills[p.key], p.command)]
                            else s.drills)
  {
    hide May, Left, Written;
    var s := Run(START, steps);
    var p := s.pending[tx];
    RunKeepsInv(START, steps);
    assert PendingOk(p, s.drills);
    if !p.command.Close? || s.drills[p.key].evidence == p.evidence { WrittenExactly(s.drills[p.key], p); }
  }

  predicate Starts(d: Drill, c: Command) {
    match c
    case Approve(_) => d.state == DRAFT
    case Schedule(_) => d.state == APPROVED
    case Launch(_) => d.state == SCHEDULED
    case Abort(_, from) => d.state == from && from in {SCHEDULED, RUNNING, REMEDIATION_OPEN}
    case Finish(to, _, _) => d.state == RUNNING && to in {SUCCEEDED, FAILED}
    case Close(_) => d.state == REMEDIATION_OPEN
  }

  /** The read opens the command exactly when the drill is in the state it starts from. */
  lemma ReadsExactly(s: State, tx: nat, key: string, c: Command)
    requires tx !in s.pending
    ensures var t := Apply(s, Step.Read(tx, key, c));
            if key in s.drills && Starts(s.drills[key], c)
            then t == s.(pending := s.pending[tx := Pending(key, c, s.drills[key].initiator, s.drills[key].evidence)])
            else t == s
  {
  }

  /** A command that nobody gets in the way of. */
  lemma CommandSucceedsExactly(s: State, tx: nat, key: string, c: Command)
    requires tx !in s.pending
    ensures var t := Run(s, [Step.Read(tx, key, c), Step.Write(tx)]);
            if key in s.drills && May(s.drills[key], c) then t == s.(drills := s.drills[key := Left(s.drills[key], c)]) else t == s
  {
    hide Written, Left;
    var r := Apply(s, Step.Read(tx, key, c));
    assert [Step.Read(tx, key, c), Step.Write(tx)] == [Step.Read(tx, key, c)] + [Step.Write(tx)];
    RunConcat(s, [Step.Read(tx, key, c)], [Step.Write(tx)]);
    RunOne(s, Step.Read(tx, key, c));
    RunOne(r, Step.Write(tx));
    ReadsExactly(s, tx, key, c);
    if key in s.drills && Starts(s.drills[key], c) {
      WrittenExactly(s.drills[key], r.pending[tx]);
      assert r.pending - {tx} == s.pending;
    }
  }

  /** A finding goes in, once, exactly while the drill runs, is in remediation, or has ended; an ended drill then
      goes into remediation. */
  lemma FindingsExactly(s: State, key: string, finding: string, actor: string)
    ensures var t := Apply(s, Step.AddFinding(key, finding, actor));
            if key in s.drills && s.drills[key].state in {RUNNING, REMEDIATION_OPEN, SUCCEEDED, FAILED, ABORTED} then
              && var d := s.drills[key];
                 var noted := if finding in d.findings then d else d.(findings := d.findings[finding := true]);
                 t == s.(drills := s.drills[key :=
                   if d.state in {RUNNING, REMEDIATION_OPEN} then noted
                   else noted.(state := REMEDIATION_OPEN, log := d.log + [Edge(d.state, REMEDIATION_OPEN, actor)])])
            else t == s
  {
  }

  /** Resolving closes an open finding and does nothing else. */
  lemma ResolvesExactly(s: State, key: string, finding: string)
    ensures var t := Apply(s, Step.ResolveFinding(key, finding));
            if key in s.drills && finding in s.drills[key].findings && s.drills[key].findings[finding]
            then t == s.(drills := s.drills[key := s.drills[key].(findings := s.drills[key].findings[finding := false])])
            else t == s
  {
  }

  lemma CreatesExactly(s: State, key: string, vendor: string, initiator: string)
    ensures var t := Apply(s, Step.Create(key, vendor, initiator));
            if key != "" && vendor != "" && initiator != "" && key !in s.drills
            then t == s.(drills := s.drills[key := Drill(initiator, "", DRAFT, "", [], map[])]) else t == s
  {
  }

  // ---- a whole drill ----

  function Doing(tx: nat, key: string, c: Command): seq<Step> { [Step.Read(tx, key, c), Step.Write(tx)] }

  /** Create, approve by somebody else, schedule, launch and finish lead from nothing to SUCCEEDED, with a log of
      four rows. */
  lemma ADrillSucceeds(key: string, vendor: string, initiator: string, approver: string, worker: string, evidence: string)
    requires key != "" && vendor != "" && initiator != "" && approver != initiator
    ensures var d := Run(START, [Step.Create(key, vendor, initiator)] + Doing(0, key, Approve(approver))
                                + Doing(0, key, Schedule(initiator)) + Doing(0, key, Launch(worker))
                                + Doing(0, key, Finish(SUCCEEDED, worker, evidence))).drills;
            && key in d && d[key].state == SUCCEEDED && d[key].evidence == evidence && d[key].approver == approver
            && d[key].log == [Edge(DRAFT, APPROVED, approver), Edge(APPROVED, SCHEDULED, initiator),
                              Edge(SCHEDULED, RUNNING, worker), Edge(RUNNING, SUCCEEDED, worker)]
  {
    hide Run, Apply;
    var a := [Step.Create(key, vendor, initiator)];
    var b, c, e, f := Doing(0, key, Approve(approver)), Doing(0, key, Schedule(initiator)), Doing(0, key, Launch(worker)),
                      Doing(0, key, Finish(SUCCEEDED, worker, evidence));
    RunOne(START, a[0]);
    CreatesExactly(START, key, vendor, initiator);
    RunConcat(START, a, b);
    RunConcat(START, a + b, c);
    RunConcat(START, a + b + c, e);
    RunConcat(START, a + b + c + e, f);
    var d0 := Drill(initiator, "", DRAFT, "", [], map[]);
    var d1, d2, d3 := Left(d0, Approve(approver)), Left(Left(d0, Approve(approver)), Schedule(initiator)),
                      Left(Left(Left(d0, Approve(approver)), Schedule(initiator)), Launch(worker));
    Does(Run(START, a), key, Approve(approver), d0);
    Does(Run(START, a + b), key, Schedule(initiator), d1);
    Does(Run(START, a + b + c), key, Launch(worker), d2);
    Does(Run(START, a + b + c + e), key, Finish(SUCCEEDED, worker, evidence), d3);
  }

  lemma Does(s: State, key: string, c: Command, d: Drill)
    requires 0 !in s.pending && key in s.drills && s.drills[key] == d && May(d, c)
    ensures var t := Run(s, Doing(0, key, c)); 0 !in t.pending && key in t.drills && t.drills[key] == Left(d, c)
  {
    hide Run, May, Left;
    CommandSucceedsExactly(s, 0, key, c);
  }

  /** What a worker's count of the steps does to a running drill that nobody touches meanwhile: a failed step ends it
      FAILED, all steps DONE end it SUCCEEDED, or in remediation when it has findings, and otherwise it runs on. */
  lemma CountsDecide(s: State, tx: nat, key: string, worker: string, rows: seq<W.Row>)
    requires tx !in s.pending && key in s.drills && s.drills[key].state == RUNNING
    ensures var c := R.FinishCommand(W.EndingOf(rows), worker);
            var d, t := s.drills[key], if c.Some? then Run(s, Doing(tx, key, c.value)) else s;
            && t.pending == s.pending && t.drills.Keys == s.drills.Keys
            && (forall k :: k in s.drills && k != key ==> t.drills[k] == s.drills[k])
            && t.drills[key] ==
                 if exists i :: 0 <= i < |rows| && rows[i].status == W.FAILED
                 then Finished(d, FAILED, worker, "steps failed (retry budget exhausted)")
                 else if rows != [] && forall i :: 0 <= i < |rows| ==> rows[i].status == W.DONE
                 then Finished(d, SUCCEEDED, worker, "all steps done")
                 else d
  {
    hide Run, Finished;
    var c := R.FinishCommand(W.EndingOf(rows), worker);
    if c.Some? { CommandSucceedsExactly(s, tx, key, c.value); }
  }
}

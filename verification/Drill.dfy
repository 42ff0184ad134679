/** Exit drills (internal/exitdrill/drill.go): a state machine with an audit log and findings, driven
    by concurrent commands.  A command reads the drill, then writes it with a compare-and-set; other
    commands commit in between. */
module Drill {
  import opened Base

  datatype Life = DRAFT | APPROVED | SCHEDULED | RUNNING | SUCCEEDED | FAILED | ABORTED | REMEDIATION_OPEN | CLOSED

  /** A row of the transition log. */
  datatype Edge = Edge(from: Life, to: Life, actor: string)

  /** findings maps a finding's key to whether it is still OPEN. */
  datatype Drill = Drill(initiator: string, approver: string, state: Life, evidence: string,
                         log: seq<Edge>, findings: map<string, bool>)

  datatype Command =
    | Approve(approver: string)
    | Schedule(actor: string)
    | Launch(worker: string)
    | Abort(actor: string, from: Life)     // from is the state Abort looked up first
    | Finish(to: Life, actor: string, evidence: string)
    | Close(actor: string)

  /** A command between its read and its write: what it read of the drill. */
  datatype Pending = Pending(key: string, command: Command, initiator: string, evidence: string)

  datatype State = State(drills: map<string, Drill>, pending: map<nat, Pending>)

  datatype Step =
    | Create(key: string, vendor: string, initiator: string)
    | Read(tx: nat, key: string, command: Command)
    | Write(tx: nat)
    | AddFinding(key: string, finding: string, actor: string)
    | ResolveFinding(key: string, finding: string)
    | Rollback(tx: nat)

  const START := State(map[], map[])

  /** legalTransitions. */
  predicate Legal(from: Life, to: Life) {
    match from
    case DRAFT => to == APPROVED
    case APPROVED => to == SCHEDULED
    case SCHEDULED => to in {RUNNING, ABORTED}
    case RUNNING => to in {SUCCEEDED, FAILED, ABORTED}
    case SUCCEEDED => to == REMEDIATION_OPEN
    case FAILED => to == REMEDIATION_OPEN
    case ABORTED => to == REMEDIATION_OPEN
    case REMEDIATION_OPEN => to in {CLOSED, ABORTED}
    case CLOSED => false
  }

  function From(c: Command): Life {
    match c
    case Approve(_) => DRAFT
    case Schedule(_) => APPROVED
    case Launch(_) => SCHEDULED
    case Abort(_, from) => from
    case Finish(_, _, _) => RUNNING
    case Close(_) => REMEDIATION_OPEN
  }

  function To(c: Command): Life {
    match c
    case Approve(_) => APPROVED
    case Schedule(_) => SCHEDULED
    case Launch(_) => RUNNING
    case Abort(_, _) => ABORTED
    case Finish(to, _, _) => to
    case Close(_) => CLOSED
  }

  function Actor(c: Command): string {
    match c
    case Approve(approver) => approver
    case Schedule(actor) => actor
    case Launch(worker) => worker
    case Abort(actor, _) => actor
    case Finish(_, actor, _) => actor
    case Close(actor) => actor
  }

  /** What a command checks before it opens its transaction. */
  predicate Admissible(c: Command) {
    match c
    case Abort(_, from) => Legal(from, ABORTED)
    case Finish(to, _, _) => to in {SUCCEEDED, FAILED}
    case _ => true
  }

  /** The state change and its audit row. */
  function Move(d: Drill, to: Life, actor: string): Drill {
    d.(state := to, log := d.log + [Edge(d.state, to, actor)])
  }

  predicate AnyOpen(d: Drill) { exists f :: f in d.findings && d.findings[f] }

  /** transition's write: the compare-and-set and the command's own changes, or None when the whole
      transaction is refused. */
  function Written(d: Drill, p: Pending): Option<Drill> {
    var c := p.command;
    if d.state != From(c) || !Legal(From(c), To(c)) then None
    else
      var m := Move(d, To(c), Actor(c));
      match c
      case Approve(approver) => if approver == p.initiator then None else Some(m.(approver := approver))
      case Finish(to, actor, evidence) =>
        var e := m.(evidence := evidence);
        if to == SUCCEEDED && d.findings != map[] then Some(Move(e, REMEDIATION_OPEN, actor)) else Some(e)
      case Close(_) => if AnyOpen(d) || p.evidence == "" then None else Some(m)
      case _ => Some(m)
  }

  /** AddFinding under the drill's row lock: the finding and, where the matrix asks for it, the
      remediation phase. */
  function Found(d: Drill, finding: string, actor: string): Option<Drill> {
    var e := d.(findings := if finding in d.findings then d.findings else d.findings[finding := true]);
    if d.state in {SUCCEEDED, FAILED, ABORTED} then Some(Move(e, REMEDIATION_OPEN, actor))
    else if d.state in {RUNNING, REMEDIATION_OPEN} then Some(e)
    else None
  }

  /** A refused step changes nothing but the set of open commands. */
  function Apply(s: State, step: Step): State {
    match step
    case Create(key, vendor, initiator) =>
      if key == "" || vendor == "" || initiator == "" || key in s.drills then s
      else s.(drills := s.drills[key := Drill(initiator, "", DRAFT, "", [], map[])])
    case Read(tx, key, c) =>
      if tx in s.pending || !Admissible(c) || key !in s.drills || s.drills[key].state != From(c) then s
      else s.(pending := s.pending[tx := Pending(key, c, s.drills[key].initiator, s.drills[key].evidence)])
    case Write(tx) =>
      if tx !in s.pending then s
      else
        var p, rest := s.pending[tx], s.pending - {tx};
        if p.key !in s.drills || Written(s.drills[p.key], p).None? then s.(pending := rest)
        else State(s.drills[p.key := Written(s.drills[p.key], p).value], rest)
    case AddFinding(key, finding, actor) =>
      if key in s.drills && Found(s.drills[key], finding, actor).Some?
      then s.(drills := s.drills[key := Found(s.drills[key], finding, actor).value]) else s
    case ResolveFinding(key, finding) =>
      if key in s.drills && finding in s.drills[key].findings && s.drills[key].findings[finding]
      then s.(drills := s.drills[key := s.drills[key].(findings := s.drills[key].findings[finding := false])]) else s
    case Rollback(tx) => s.(pending := s.pending - {tx})
  }

  function Run(s: State, steps: seq<Step>): State
    decreases steps
  {
    if steps == [] then s else Run(Apply(s, steps[0]), steps[1..])
  }

  lemma {:induction false} RunConcat(s: State, a: seq<Step>, b: seq<Step>)
    ensures Run(s, a + b) == Run(Run(s, a), b)
    decreases a
  {
    if a == [] {
      assert a + b == b;
    } else {
      assert (a + b)[0] == a[0] && (a + b)[1..] == a[1..] + b;
      RunConcat(Apply(s, a[0]), a[1..], b);
    }
  }

  lemma RunOne(s: State, step: Step)
    ensures Run(s, [step]) == Apply(s, step)
  {
    assert Run(Apply(s, step), [step][1..]) == Apply(s, step);
  }

  // ---- invariant ----

  /** The log is a path of legal edges from DRAFT to the current state. */
  ghost predicate IsPath(log: seq<Edge>, state: Life) {
    && (log == [] ==> state == DRAFT)
    && (log != [] ==> log[0].from == DRAFT && log[|log| - 1].to == state)
    && (forall k :: 0 <= k < |log| ==> Legal(log[k].from, log[k].to))
    && (forall k :: 0 < k < |log| ==> log[k].from == log[k - 1].to)
  }

  /** States a drill can only be in after it ran or was aborted; they are never left for others. */
  predicate Over(l: Life) { l in {SUCCEEDED, FAILED, ABORTED, REMEDIATION_OPEN, CLOSED} }

  ghost predicate DrillOk(d: Drill) {
    && IsPath(d.log, d.state)
    && (d.log != [] ==> d.log[0].actor == d.approver && d.approver != d.initiator)
    && (d.log == [] ==> d.approver == "")
    && (d.state == CLOSED ==> !AnyOpen(d) && d.evidence != "")
  }

  ghost predicate PendingOk(p: Pending, drills: map<string, Drill>) {
    && p.key in drills && p.initiator == drills[p.key].initiator && Admissible(p.command)
    && (p.command.Close? ==> Over(drills[p.key].state) && p.evidence == drills[p.key].evidence)
  }

  ghost predicate Inv(s: State) {
    && (forall key :: key in s.drills ==> DrillOk(s.drills[key]))
    && (forall tx :: tx in s.pending ==> PendingOk(s.pending[tx], s.drills))
  }

  /** What any step does to one drill. */
  ghost predicate Follows(a: Drill, b: Drill) {
    && b.initiator == a.initiator && a.log <= b.log
    && (Over(a.state) ==> Over(b.state) && b.evidence == a.evidence)
    && (a.state == CLOSED && !AnyOpen(a) ==> b == a)
    && (forall f :: f in a.findings ==> f in b.findings && (b.findings[f] ==> a.findings[f]))
  }

  lemma MoveKeepsPath(d: Drill, to: Life, actor: string)
    requires IsPath(d.log, d.state) && Legal(d.state, to)
    ensures IsPath(Move(d, to, actor).log, to)
  {
  }

  lemma WrittenIsOk(d: Drill, p: Pending)
    requires DrillOk(d) && Written(d, p).Some? && p.initiator == d.initiator
    requires p.command.Close? ==> p.evidence == d.evidence
    ensures DrillOk(Written(d, p).value) && Follows(d, Written(d, p).value)
  {
    hide IsPath;
    var c := p.command;
    var m := Move(d, To(c), Actor(c));
    assert d.log == [] <==> d.state == DRAFT by { PathEnds(d); }
    MoveKeepsPath(d, To(c), Actor(c));
    if c.Finish? { MoveKeepsPath(m.(evidence := c.evidence), REMEDIATION_OPEN, c.actor); }
  }

  /** DRAFT is never re-entered. */
  lemma PathEnds(d: Drill)
    requires IsPath(d.log, d.state)
    ensures d.log == [] <==> d.state == DRAFT
  {
    if d.log != [] { assert Legal(d.log[|d.log| - 1].from, d.log[|d.log| - 1].to); }
  }

  lemma FoundIsOk(d: Drill, finding: string, actor: string)
    requires DrillOk(d) && Found(d, finding, actor).Some?
    ensures DrillOk(Found(d, finding, actor).value) && Follows(d, Found(d, finding, actor).value)
  {
    hide IsPath;
    PathEnds(d);
    var e := d.(findings := if finding in d.findings then d.findings else d.findings[finding := true]);
    if d.state in {SUCCEEDED, FAILED, ABORTED} { MoveKeepsPath(e, REMEDIATION_OPEN, actor); }
  }

  lemma ResolvedIsOk(d: Drill, finding: string)
    requires DrillOk(d) && finding in d.findings && d.findings[finding]
    ensures var e := d.(findings := d.findings[finding := false]); DrillOk(e) && Follows(d, e)
  {
    hide IsPath;
  }

  /** The drills a step leaves, one by one. */
  lemma StepFollows(s: State, step: Step, key: string)
    requires Inv(s) && key in s.drills
    ensures var t := Apply(s, step); key in t.drills && DrillOk(t.drills[key]) && Follows(s.drills[key], t.drills[key])
  {
    hide DrillOk, Written, Found;
    var d := s.drills[key];
    assert DrillOk(d);
    match step {
      case Write(tx) =>
        if tx in s.pending && s.pending[tx].key == key {
          assert PendingOk(s.pending[tx], s.drills);
          if Written(d, s.pending[tx]).Some? { WrittenIsOk(d, s.pending[tx]); }
        }
      case AddFinding(k, finding, actor) => if k == key && Found(d, finding, actor).Some? { FoundIsOk(d, finding, actor); }
      case ResolveFinding(k, finding) =>
        if k == key && finding in d.findings && d.findings[finding] { ResolvedIsOk(d, finding); }
      case _ =>
    }
  }

  lemma StepKeepsInv(s: State, step: Step)
    requires Inv(s)
    ensures Inv(Apply(s, step))
  {
    hide Written, Found, Follows;
    var t := Apply(s, step);
    forall key | key in t.drills ensures DrillOk(t.drills[key]) {
      if key in s.drills { StepFollows(s, step, key); }
    }
    forall tx | tx in t.pending ensures PendingOk(t.pending[tx], t.drills) { StepKeepsPending(s, step, tx); }
  }

  lemma StepKeepsPending(s: State, step: Step, tx: nat)
    requires Inv(s) && tx in Apply(s, step).pending
    ensures PendingOk(Apply(s, step).pending[tx], Apply(s, step).drills)
  {
    hide Written, Found, DrillOk, AnyOpen;
    var t := Apply(s, step);
    var p := t.pending[tx];
    if tx in s.pending && p == s.pending[tx] {
      assert PendingOk(p, s.drills);
      StepFollows(s, step, p.key);
    } else {
      assert step.Read? && step.tx == tx && t.drills == s.drills;
    }
  }

  lemma {:induction false} RunKeepsInv(s: State, steps: seq<Step>)
    requires Inv(s)
    ensures Inv(Run(s, steps))
    decreases steps
  {
    hide Inv, Apply;
    if steps != [] {
      StepKeepsInv(s, steps[0]);
      RunKeepsInv(Apply(s, steps[0]), steps[1..]);
    }
  }

  // ---- the audit trail ----

  ghost predicate ApprovedOnceBy(log: seq<Edge>, approver: string) {
    exists k :: 0 <= k < |log| && log[k].to == APPROVED && log[k].actor == approver
                && forall j :: 0 <= j < |log| && log[j].to == APPROVED ==> j == k
  }

  /** In every reachable state the log of a drill is a legal path from DRAFT to its state; past DRAFT the
      approver is not the initiator and made the one transition into APPROVED there is. */
  lemma LogsArePaths(steps: seq<Step>, key: string)
    requires key in Run(START, steps).drills
    ensures var d := Run(START, steps).drills[key];
            && IsPath(d.log, d.state)
            && (d.state != DRAFT ==> d.approver != d.initiator && ApprovedOnceBy(d.log, d.approver))
  {
    RunKeepsInv(START, steps);
    var d := Run(START, steps).drills[key];
    assert DrillOk(d);
    PathEnds(d);
    if d.state != DRAFT { OnlyFirstApproves(d); }
  }

  lemma OnlyFirstApproves(d: Drill)
    requires DrillOk(d) && d.log != []
    ensures ApprovedOnceBy(d.log, d.approver)
  {
    assert Legal(d.log[0].from, d.log[0].to) && d.log[0].to == APPROVED;
    forall j | 0 < j < |d.log| ensures d.log[j].to != APPROVED {
      assert Legal(d.log[j].from, d.log[j].to) && Legal(d.log[j - 1].from, d.log[j - 1].to);
    }
  }

  /** The checker's audit section (internal/exitdrillverify/checker.go): the breaks it reports. */
  datatype Break = NoLog | BadApprover | NoApproval

  method AuditSection(d: Drill) returns (breaks: seq<Break>)
    ensures breaks == [] <==> d.log != [] && d.approver != "" && d.approver != d.initiator
                              && exists k :: 0 <= k < |d.log| && d.log[k].to == APPROVED && d.log[k].actor == d.approver
  {
    breaks := [];
    if |d.log| == 0 {
      breaks := [NoLog];
    } else if d.approver == "" || d.approver == d.initiator {
      breaks := [BadApprover];
    } else {
      var approved := 0;
      for i := 0 to |d.log|
        invariant approved > 0 <==> exists k :: 0 <= k < i && d.log[k].to == APPROVED && d.log[k].actor == d.approver
      {
        if d.log[i].to == APPROVED && d.log[i].actor == d.approver { approved := approved + 1; }
      }
      if approved == 0 { breaks := [NoApproval]; }
    }
  }

  /** The audit section is clean. */
  ghost predicate Clean(d: Drill) {
    d.log != [] && d.approver != "" && d.approver != d.initiator
    && exists k :: 0 <= k < |d.log| && d.log[k].to == APPROVED && d.log[k].actor == d.approver
  }

  /** A drill made by these commands passes the audit exactly when it is past DRAFT and its approver has
      a name. */
  lemma AuditPassesExactlyWhen(steps: seq<Step>, key: string)
    requires key in Run(START, steps).drills
    ensures var d := Run(START, steps).drills[key]; Clean(d) <==> d.state != DRAFT && d.approver != ""
  {
    LogsArePaths(steps, key);
    var d := Run(START, steps).drills[key];
    PathEnds(d);
  }

  // ---- closing ----

  /** In every interleaving, a CLOSED drill has no OPEN finding and a result evidence. */
  lemma ClosedIsSettled(steps: seq<Step>, key: string)
    requires key in Run(START, steps).drills && Run(START, steps).drills[key].state == CLOSED
    ensures var d := Run(START, steps).drills[key]; !AnyOpen(d) && d.evidence != ""
  {
    RunKeepsInv(START, steps);
    assert DrillOk(Run(START, steps).drills[key]);
  }

  /** ... and is never changed again: not its state, its evidence, its log or its findings. */
  lemma {:induction false} ClosedIsFrozen(s: State, steps: seq<Step>, key: string)
    requires Inv(s) && key in s.drills && s.drills[key].state == CLOSED
    ensures key in Run(s, steps).drills && Run(s, steps).drills[key] == s.drills[key]
    decreases steps
  {
    hide Apply;
    if steps != [] {
      assert DrillOk(s.drills[key]);
      StepFollows(s, steps[0], key);
      StepKeepsInv(s, steps[0]);
      ClosedIsFrozen(Apply(s, steps[0]), steps[1..], key);
    }
  }

  /** A drill over without result evidence, such as one aborted before it ran, can never be closed. */
  lemma {:induction false} WithoutEvidenceNeverCloses(s: State, steps: seq<Step>, key: string)
    requires Inv(s) && key in s.drills && Over(s.drills[key].state) && s.drills[key].evidence == ""
    ensures key in Run(s, steps).drills && Run(s, steps).drills[key].state != CLOSED
    decreases steps
  {
    hide Apply;
    assert DrillOk(s.drills[key]);
    if steps != [] {
      StepFollows(s, steps[0], key);
      StepKeepsInv(s, steps[0]);
      WithoutEvidenceNeverCloses(Apply(s, steps[0]), steps[1..], key);
    }
  }

  /** Findings never disappear and a resolved one never reopens. */
  lemma {:induction false} ResolvedStaysResolved(s: State, steps: seq<Step>, key: string, f: string)
    requires Inv(s) && key in s.drills && f in s.drills[key].findings && !s.drills[key].findings[f]
    ensures key in Run(s, steps).drills
    ensures f in Run(s, steps).drills[key].findings && !Run(s, steps).drills[key].findings[f]
    decreases steps
  {
    hide Apply;
    if steps != [] {
      StepFollows(s, steps[0], key);
      StepKeepsInv(s, steps[0]);
      ResolvedStaysResolved(Apply(s, steps[0]), steps[1..], key, f);
    }
  }

  // ---- the code ----

  /** What transition answers at its read. */
  datatype Outcome = Missing | Replay | Outside | Conflict | Proceeds | Inadmissible

  function Outcomes(drills: map<string, Drill>, key: string, c: Command): Outcome {
    if !Admissible(c) then Inadmissible
    else if key !in drills then Missing
    else if drills[key].state == From(c) then Proceeds
    else if drills[key].state == To(c) then Replay
    else if Legal(drills[key].state, To(c)) then Conflict
    else Outside
  }

  class Store {
    var drills: map<string, Drill>
    var pending: map<nat, Pending>   // commands between their read and their write

    function Model(): State
      reads this
    {
      State(drills, pending)
    }

    constructor ()
      ensures Model() == START
    {
      drills, pending := map[], map[];
    }

    method Create(key: string, vendor: string, initiator: string)
      modifies this`drills
      ensures Model() == Apply(old(Model()), Step.Create(key, vendor, initiator))
    {
      if key == "" || vendor == "" || initiator == "" || key in drills { return; }
      drills := drills[key := Drill(initiator, "", DRAFT, "", [], map[])];
    }

    /** A drill already at the target is a replay, whoever asks; a different state is a conflict when
        the matrix would have allowed the move from there, and outside the matrix otherwise. */
    method Read(tx: nat, key: string, c: Command) returns (outcome: Outcome)
      requires tx !in pending
      modifies this`pending
      ensures Model() == Apply(old(Model()), Step.Read(tx, key, c))
      ensures outcome == Outcomes(drills, key, c)
      ensures outcome != Proceeds ==> Model() == old(Model())
    {
      if !Admissible(c) { return Inadmissible; }
      if key !in drills { return Missing; }
      var d := drills[key];
      if d.state != From(c) {
        if d.state == To(c) { return Replay; }
        if !Legal(d.state, To(c)) { return Outside; }
        return Conflict;
      }
      pending := pending[tx := Pending(key, c, d.initiator, d.evidence)];
      return Proceeds;
    }

    /** The count of OPEN findings, against zero. */
    method HasOpen(d: Drill) returns (open_: bool)
      ensures open_ <==> AnyOpen(d)
    {
      var rest := d.findings.Keys;
      while rest != {}
        invariant rest <= d.findings.Keys
        invariant forall f :: f in d.findings && f !in rest ==> !d.findings[f]
        decreases |rest|
      {
        var f :| f in rest;
        if d.findings[f] { return true; }
        rest := rest - {f};
      }
      return false;
    }

    /** The compare-and-set, its audit row, and the command's hook, in one transaction. */
    method Write(tx: nat) returns (ok: bool)
      modifies this
      ensures Model() == Apply(old(Model()), Step.Write(tx))
      ensures ok <==> tx in old(pending) && old(pending)[tx].key in old(drills)
                      && Written(old(drills)[old(pending)[tx].key], old(pending)[tx]).Some?
    {
      if tx !in pending { return false; }
      var p := pending[tx];
      var c := p.command;
      pending := pending - {tx};
      if p.key !in drills { return false; }
      var d := drills[p.key];
      if d.state != From(c) || !Legal(From(c), To(c)) { return false; }
      var m := d.(state := To(c), log := d.log + [Edge(d.state, To(c), Actor(c))]);
      match c {
        case Approve(approver) =>
          if approver == p.initiator { return false; }
          m := m.(approver := approver);
        case Finish(to, actor, evidence) =>
          m := m.(evidence := evidence);
          if to == SUCCEEDED && d.findings != map[] {
            m := m.(state := REMEDIATION_OPEN, log := m.log + [Edge(SUCCEEDED, REMEDIATION_OPEN, actor)]);
          }
        case Close(_) =>
          var open_ := HasOpen(d);
          if open_ || p.evidence == "" { return false; }
        case _ =>
      }
      drills := drills[p.key := m];
      return true;
    }

    method AddFinding(key: string, finding: string, actor: string) returns (ok: bool)
      modifies this`drills
      ensures Model() == Apply(old(Model()), Step.AddFinding(key, finding, actor))
      ensures ok <==> key in old(drills) && Found(old(drills)[key], finding, actor).Some?
    {
      if key !in drills { return false; }
      var d := drills[key];
      if !(d.state in {SUCCEEDED, REMEDIATION_OPEN, RUNNING, FAILED, ABORTED}) { return false; }
      var m := d;
      if finding !in d.findings { m := m.(findings := d.findings[finding := true]); }
      if d.state in {SUCCEEDED, FAILED, ABORTED} {
        m := m.(state := REMEDIATION_OPEN, log := d.log + [Edge(d.state, REMEDIATION_OPEN, actor)]);
      }
      drills := drills[key := m];
      return true;
    }

    method ResolveFinding(key: string, finding: string) returns (ok: bool)
      modifies this`drills
      ensures Model() == Apply(old(Model()), Step.ResolveFinding(key, finding))
      ensures ok <==> key in old(drills) && finding in old(drills)[key].findings && old(drills)[key].findings[finding]
    {
      ok := key in drills && finding in drills[key].findings && drills[key].findings[finding];
      if ok { drills := drills[key := drills[key].(findings := drills[key].findings[finding := false])]; }
    }

    method Do(step: Step)
      modifies this
      ensures Model() == Apply(old(Model()), step)
    {
      match step
      case Create(key, vendor, initiator) => Create(key, vendor, initiator);
      case Read(tx, key, c) => if tx !in pending { var _ := Read(tx, key, c); }
      case Write(tx) => var _ := Write(tx);
      case AddFinding(key, finding, actor) => var _ := AddFinding(key, finding, actor);
      case ResolveFinding(key, finding) => var _ := ResolveFinding(key, finding);
      case Rollback(tx) => pending := pending - {tx};
    }

    /** What other commands commit meanwhile. */
    method Others(gap: seq<Step>)
      modifies this
      ensures Model() == Run(old(Model()), gap)
    {
      hide Apply;
      ghost var start := Model();
      for i := 0 to |gap|
        invariant Model() == Run(start, gap[..i])
      {
        assert gap[..i + 1] == gap[..i] + [gap[i]];
        RunConcat(start, gap[..i], [gap[i]]);
        RunOne(Run(start, gap[..i]), gap[i]);
        Do(gap[i]);
      }
      assert gap[..|gap|] == gap;
    }

    /** transition: the read, whatever commits before the compare-and-set, and the write. */
    method Transition(tx: nat, key: string, c: Command, gap: seq<Step>) returns (ok: bool)
      requires tx !in pending
      modifies this
      ensures Model() == Run(old(Model()), if Outcomes(old(drills), key, c) == Proceeds
                                           then [Step.Read(tx, key, c)] + gap + [Step.Write(tx)] else [])
      ensures ok ==> Outcomes(old(drills), key, c) in {Proceeds, Replay}
    {
      hide Apply;
      ghost var s := Model();
      var outcome := Read(tx, key, c);
      if outcome != Proceeds { return outcome == Replay; }
      Others(gap);
      RunOne(s, Step.Read(tx, key, c));
      RunConcat(s, [Step.Read(tx, key, c)], gap);
      RunConcat(s, [Step.Read(tx, key, c)] + gap, [Step.Write(tx)]);
      RunOne(Run(s, [Step.Read(tx, key, c)] + gap), Step.Write(tx));
      ok := Write(tx);
    }
  }
}

/** Where the retention a pack is committed to comes from. */
module ArchiveRetention {
  import opened Base
  import opened Archive
  import opened ArchiveSafety

  /** The k-th step of the run is a driver of pid reading the row, and until is that moment's clock plus the
      driver's retention period. */
  ghost predicate ReadAtStep(steps: seq<Step>, k: nat, pid: PackId, until: nat) {
    && k < |steps| && steps[k].Advance? && steps[k].pid == pid
    && var m := Run(START, steps[..k]);
       pid in m.drives && m.drives[pid].pc.Ready? && until == m.now + m.drives[pid].days * 86400000
  }

  ghost predicate ReadAt(steps: seq<Step>, pid: PackId, until: nat) { exists k: nat :: ReadAtStep(steps, k, pid, until) }

  /** What a driver that has yet to lock means to commit to. */
  function Intended(pc: Pc): Option<nat> {
    match pc
    case Starting(_, retain) => Some(retain)
    case Uploading(_, retain) => Some(retain)
    case Uploaded(_, retain, _, _) => Some(retain)
    case Written(_, retain, _, _) => Some(retain)
    case Agreed(_, retain, _) => Some(retain)
    case _ => None
  }

  ghost predicate Dated(s: State, steps: seq<Step>) {
    && (forall pid :: pid in s.drives && Intended(s.drives[pid].pc).Some? ==> ReadAt(steps, pid, Intended(s.drives[pid].pc).value))
    && (forall pid :: pid in s.packs && s.packs[pid].committed.Some? ==> ReadAt(steps, pid, s.packs[pid].committed.value))
  }

  lemma LaterStill(steps: seq<Step>, step: Step, pid: PackId, until: nat)
    requires ReadAt(steps, pid, until)
    ensures ReadAt(steps + [step], pid, until)
  {
    var k: nat :| ReadAtStep(steps, k, pid, until);
    assert (steps + [step])[..k] == steps[..k];
    assert ReadAtStep(steps + [step], k, pid, until);
  }

  /** A step gives a driver a date only by reading the row, and a pack only by locking it with its driver's. */
  ghost predicate DatesFrom(s: State, t: State, step: Step) {
    && (forall pid :: pid in t.drives && Intended(t.drives[pid].pc).Some? ==>
          || (pid in s.drives && Intended(t.drives[pid].pc) == Intended(s.drives[pid].pc))
          || (step.Advance? && step.pid == pid && pid in s.drives && s.drives[pid].pc.Ready?
              && Intended(t.drives[pid].pc).value == s.now + s.drives[pid].days * 86400000))
    && (forall pid :: pid in t.packs && t.packs[pid].committed.Some? ==>
          || (pid in s.packs && t.packs[pid].committed == s.packs[pid].committed)
          || (pid in s.drives && t.packs[pid].committed == Intended(s.drives[pid].pc)))
  }

  lemma NextDates(pid: PackId, d: Drive, p: Pack, objects: map<nat, Object>, now: nat,
                  reload: (nat, nat) -> seq<Item>, reply: Reply)
    requires !d.pc.Covered?
    ensures var e := Next(pid, d, p, objects, now, reload, reply);
            && (e.pc.Some? && Intended(e.pc.value).Some? ==>
                  Intended(e.pc.value) == Intended(d.pc)
                  || (d.pc.Ready? && Intended(e.pc.value).value == now + d.days * 86400000))
            && (e.pack.committed == p.committed || e.pack.committed == Intended(d.pc))
  {
  }

  lemma ActDates(s: State, pid: PackId, reply: Reply)
    requires pid in s.packs && pid in s.drives
    ensures DatesFrom(s, Act(s, pid, reply), Advance(pid, reply))
  {
    hide Next, InsertLinks, FlipArchived, Intended, Reload;
    var d, p := s.drives[pid], s.packs[pid];
    if !d.pc.Covered? {
      NextDates(pid, d, p, s.objects, s.now, (a: nat, b: nat) => Reload(s.recs, s.links, a, b), reply);
    }
  }

  lemma StepDates(s: State, step: Step)
    ensures DatesFrom(s, Apply(s, step), step)
  {
    hide Act, Window, IdOf;
    if step.Advance? && step.pid in s.packs && step.pid in s.drives { ActDates(s, step.pid, step.reply); }
  }

  lemma DatedAfter(s: State, t: State, steps: seq<Step>, step: Step)
    requires s == Run(START, steps) && Dated(s, steps) && DatesFrom(s, t, step)
    ensures Dated(t, steps + [step])
  {
    hide Run, ReadAt, Intended;
    var more := steps + [step];
    forall pid | pid in t.drives && Intended(t.drives[pid].pc).Some? ensures ReadAt(more, pid, Intended(t.drives[pid].pc).value) {
      if pid in s.drives && Intended(t.drives[pid].pc) == Intended(s.drives[pid].pc) {
        LaterStill(steps, step, pid, Intended(t.drives[pid].pc).value);
      } else {
        ReadNow(steps, step, pid, Intended(t.drives[pid].pc).value);
      }
    }
    forall pid | pid in t.packs && t.packs[pid].committed.Some? ensures ReadAt(more, pid, t.packs[pid].committed.value) {
      LaterStill(steps, step, pid, t.packs[pid].committed.value);
    }
  }

  lemma ReadNow(steps: seq<Step>, step: Step, pid: PackId, until: nat)
    requires step.Advance? && step.pid == pid
    requires var m := Run(START, steps);
             pid in m.drives && m.drives[pid].pc.Ready? && until == m.now + m.drives[pid].days * 86400000
    ensures ReadAt(steps + [step], pid, until)
  {
    assert (steps + [step])[..|steps|] == steps;
    assert ReadAtStep(steps + [step], |steps|, pid, until);
  }

  lemma {:induction false} RunSnoc(s: State, steps: seq<Step>, step: Step)
    ensures Run(s, steps + [step]) == Apply(Run(s, steps), step)
    decreases steps
  {
    hide Apply;
    if steps == [] {
      assert [step][1..] == [] && [] + [step] == [step];
      assert Run(s, [step]) == Run(Apply(s, step), []);
    } else {
      assert (steps + [step])[0] == steps[0] && (steps + [step])[1..] == steps[1..] + [step];
      RunSnoc(Apply(s, steps[0]), steps[1..], step);
    }
  }

  lemma {:induction false} RunIsDated(steps: seq<Step>)
    ensures Dated(Run(START, steps), steps)
    decreases |steps|
  {
    hide Apply, Dated, DatesFrom;
    if steps == [] {
      NothingDated();
    } else {
      var init, last := steps[..|steps| - 1], steps[|steps| - 1];
      assert steps == init + [last];
      RunIsDated(init);
      RunSnoc(START, init, last);
      StepDates(Run(START, init), last);
      DatedAfter(Run(START, init), Run(START, steps), init, last);
    }
  }

  lemma NothingDated()
    ensures Dated(Run(START, []), [])
  {
  }

  /** Over every run: the retention a pack was locked with is the clock of the moment its driver read the row,
      plus the driver's retention period; and the VERIFIED pack's object lock reaches that date, less a minute. */
  lemma CommitmentsAreDated(steps: seq<Step>, pid: PackId)
    requires pid in Run(START, steps).packs && Run(START, steps).packs[pid].committed.Some?
    ensures var t := Run(START, steps); var p := t.packs[pid];
            && ReadAt(steps, pid, p.committed.value)
            && (p.state == VERIFIED ==>
                  && p.version.Some? && p.version.value in t.objects && t.objects[p.version.value].lock.Some?
                  && t.objects[p.version.value].lock.value + 60000 >= p.committed.value)
  {
    hide Run, ReadAt;
    RunIsDated(steps);
    if Run(START, steps).packs[pid].state == VERIFIED { VerifiedPacksAreCovered(steps, pid); }
  }
}

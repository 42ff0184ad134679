/** The archive code over the ledger tables and the object store: the store's statements, a driver's
    actions, and the tick of a worker. */
module ArchiveLedger {
  import opened Base
  import opened Archive
  import P = ArchiveProgress
  import S = ArchiveSafety

  class Ledger {
    var now: nat
    var recs: map<nat, Rec>
    var packs: map<PackId, Pack>
    var links: seq<Link>
    var objects: map<nat, Object>
    var drives: map<PackId, Drive>   // the drive locks, each with its holder's local variables
    var claims: set<(PackId, seq<Item>)>   // what workers hold after their own ClaimWindow

    ghost function Model(): State
      reads this
    {
      State(now, recs, packs, links, objects, drives, claims)
    }

    constructor ()
      ensures Model() == START
    {
      now, recs, packs, links, objects, drives, claims := 0, map[], map[], [], map[], map[], {};
    }

    /** SELECT the unarchived window in id order, scanned into items. */
    method SelectWindow(batch: nat) returns (items: seq<Item>)
      ensures items == Window(recs, links, batch)
    {
      var eligible := Eligible(recs, links);
      AscendingIn(eligible, batch);
      var ids := Limit(Ascending(eligible), batch);
      items := [];
      for i := 0 to |ids|
        invariant items == ItemsOf(recs, ids[..i])
      {
        items := items + [ItemOf(ids[i], recs[ids[i]])];
      }
      assert ids[..|ids|] == ids;
    }

    /** Derive the window's id, INSERT ... ON CONFLICT DO NOTHING. */
    method ClaimWindow(batch: nat, policy: string) returns (pid: PackId, items: seq<Item>, created: bool)
      modifies this`packs, this`claims
      ensures Model() == Apply(old(Model()), Step.ClaimWindow(batch, policy))
      ensures items == Window(recs, links, P.Size(batch)) && pid == IdOf(policy, items)
      ensures created <==> items != [] && pid !in old(packs)
    {
      hide Window, Entries;
      items := SelectWindow(if batch == 0 then 100 else batch);
      pid := IdOf(policy, items);
      created := items != [] && pid !in packs;
      if created {
        packs := packs[pid := Pack(PENDING, None, None, None, None, |items|, items[0].id, items[|items| - 1].id, 0)];
        claims := claims + {(pid, items)};
      }
    }

    /** UPDATE ... WHERE state IN (PENDING, RETRYABLE): the matrix edge into WRITING. */
    method MarkWriting(pid: PackId) returns (ok: bool)
      requires pid in packs
      modifies this`packs
      ensures packs == old(packs)[pid := Archive.MarkWriting(old(packs)[pid])]
      ensures ok <==> S.Edge(old(packs)[pid].state, WRITING)
      ensures S.PacksOk(old(packs), objects, links) ==> S.PacksOk(packs, objects, links)
    {
      var p := packs[pid];
      ok := p.state == PENDING || p.state == RETRYABLE;
      if ok { packs := packs[pid := p.(state := WRITING, attempts := p.attempts + 1)]; } else { SameRow(packs, pid); }
    }

    /** UPDATE ... WHERE state = WRITING: what was uploaded. */
    method MarkWritten(pid: PackId, version: nat, digest: Hash) returns (ok: bool)
      requires pid in packs
      modifies this`packs
      ensures packs == old(packs)[pid := Archive.MarkWritten(old(packs)[pid], version, digest)]
      ensures ok <==> packs[pid].state == WRITING
      ensures S.PacksOk(old(packs), objects, links) ==> S.PacksOk(packs, objects, links)
    {
      var p := packs[pid];
      ok := p.state == WRITING;
      if ok { packs := packs[pid := p.(version := Some(version), digest := Some(digest))]; } else { SameRow(packs, pid); }
    }

    /** UPDATE ... WHERE state = WRITING with a version: the matrix edge into LOCKED. */
    method MarkLocked(pid: PackId, until: nat) returns (ok: bool)
      requires pid in packs
      modifies this`packs
      ensures packs == old(packs)[pid := Archive.MarkLocked(old(packs)[pid], until)]
      ensures ok <==> S.Edge(old(packs)[pid].state, packs[pid].state)
      ensures ok ==> packs[pid].state == LOCKED
    {
      var p := packs[pid];
      ok := p.state == WRITING && p.version.Some?;
      if ok { packs := packs[pid := p.(state := LOCKED, retention := Some(until), committed := Some(until))]; }
      else { SameRow(packs, pid); }
    }

    method MarkFailed(pid: PackId, to: PackState)
      requires pid in packs
      modifies this`packs
      ensures packs == old(packs)[pid := Archive.MarkFailed(old(packs)[pid], to)]
    {
      packs := packs[pid := Archive.MarkFailed(packs[pid], to)];
    }

    /** The ledger's deadline only ever moves later. */
    method ExtendRetention(pid: PackId, until: nat) returns (ok: bool)
      modifies this`packs
      ensures Model() == Apply(old(Model()), Step.ExtendLedger(pid, until))
      ensures ok <==> pid in old(packs) && old(packs)[pid].state in {LOCKED, VERIFIED}
                      && old(packs)[pid].retention.Some? && old(packs)[pid].retention.value < until
    {
      ok := pid in packs && (packs[pid].state == LOCKED || packs[pid].state == VERIFIED)
            && packs[pid].retention.Some? && packs[pid].retention.value < until;
      if ok { packs := packs[pid := packs[pid].(retention := Some(until))]; }
    }

    method HasLink(id: nat) returns (linked: bool)
      ensures linked <==> IsLinked(links, id)
    {
      for i := 0 to |links|
        invariant forall k :: 0 <= k < i ==> links[k].record != id
      {
        if links[i].record == id { return true; }
      }
      return false;
    }

    /** One transaction: the guard, one link insert per record, the transition, the worm_status flip. */
    method MarkVerified(pid: PackId, items: seq<Item>, version: nat)
      requires pid in packs
      modifies this`packs, this`links, this`recs
      ensures Model() == Archive.MarkVerified(old(Model()), pid, items, version)
    {
      ghost var s := Model();
      var p := packs[pid];
      if p.state != LOCKED || p.version != Some(version) || p.count != |items| { return; }
      assert items[..0] == [];
      for i := 0 to |items|
        invariant links == InsertLinks(s.links, pid, items[..i], version) && packs == s.packs && recs == s.recs
      {
        assert items[..i + 1][..i] == items[..i];
        var linked := HasLink(items[i].id);
        if !linked { links := links + [Link(pid, items[i].id, version, items[i].digest)]; }
      }
      assert items[..|items|] == items;
      packs := packs[pid := p.(state := VERIFIED)];
      recs := FlipArchived(recs, links, pid);
    }

    /** TryDriveLock after the worker's own claim. */
    method LockClaimed(pid: PackId, items: seq<Item>, days: nat) returns (ok: bool)
      requires (pid, items) in claims
      modifies this`drives
      ensures Model() == Apply(old(Model()), Step.LockClaimed(pid, items, days))
      ensures ok <==> pid !in old(drives)
    {
      ok := pid !in drives;
      if ok { drives := drives[pid := Drive(pid.policy, days, Ready(items))]; }
    }

    /** TryDriveLock from the sweep. */
    method LockSwept(pid: PackId, policy: string, days: nat) returns (ok: bool)
      modifies this`drives
      ensures Model() == Apply(old(Model()), Step.LockSwept(pid, policy, days))
      ensures ok <==> pid in packs && pid !in old(drives)
    {
      ok := pid in packs && pid !in drives;
      if ok { drives := drives[pid := Drive(policy, days, Adopting)]; }
    }

    method Goto(pid: PackId, pc: Pc)
      requires pid in drives
      modifies this`drives
      ensures drives == old(drives)[pid := old(drives)[pid].(pc := pc)]
    {
      drives := drives[pid := drives[pid].(pc := pc)];
    }

    method Stop(pid: PackId)
      modifies this`drives
      ensures drives == old(drives) - {pid}
    {
      drives := drives - {pid};
    }

    /** Recover reads the row; a PENDING one is first given to the retry path. */
    method AdoptAction(pid: PackId, reply: Reply)
      requires pid in packs && pid in drives && (drives[pid].pc.Adopting? || drives[pid].pc.AdoptPending?)
      modifies this`packs, this`drives
      ensures Model() == Act(old(Model()), pid, reply)
    {
      hide Reload, Window, Entries;
      SameRow(packs, pid);
      var p := packs[pid];
      if reply == Down { Stop(pid); return; }
      if p.state == VERIFIED || p.state == QUARANTINED { Stop(pid); return; }
      if drives[pid].pc.AdoptPending? {
        MarkFailed(pid, RETRYABLE);
        Goto(pid, Adopting);
      } else if p.state == PENDING {
        Goto(pid, AdoptPending);
      } else {
        Goto(pid, Reloading(p.first, p.last, p.count));
      }
    }

    /** Recover reloads the window; drift and a changed set identity quarantine the pack. */
    method ReloadAction(pid: PackId, reply: Reply)
      requires pid in packs && pid in drives && drives[pid].pc.Reloading?
      modifies this`packs, this`drives
      ensures Model() == Act(old(Model()), pid, reply)
    {
      hide Reload, Entries;
      SameRow(packs, pid);
      var pc := drives[pid].pc;
      if reply == Down { Stop(pid); return; }
      var items := Reload(recs, links, pc.first, pc.last);
      if |items| != pc.count { Goto(pid, Failing(QUARANTINED)); return; }
      if IdOf(drives[pid].policy, items) != pid { Goto(pid, Failing(QUARANTINED)); return; }
      Goto(pid, Ready(items));
    }

    /** The failure write that ends a drive. */
    method FailAction(pid: PackId, reply: Reply)
      requires pid in packs && pid in drives && drives[pid].pc.Failing?
      modifies this`packs, this`drives
      ensures Model() == Act(old(Model()), pid, reply)
    {
      hide Reload, Window, Entries;
      SameRow(packs, pid);
      if reply != Down { MarkFailed(pid, drives[pid].pc.to); }
      Stop(pid);
    }

    /** archivePack's dispatch on the state of the row it reads. */
    method DispatchAction(pid: PackId, reply: Reply)
      requires pid in packs && pid in drives && drives[pid].pc.Ready?
      modifies this`drives
      ensures Model() == Act(old(Model()), pid, reply)
    {
      hide Reload, Window, Entries;
      SameRow(packs, pid);
      var d, p := drives[pid], packs[pid];
      var items, retain := d.pc.items, now + d.days * DAY;
      if reply == Down { Stop(pid); }
      else if p.state == PENDING || p.state == RETRYABLE { Goto(pid, Starting(items, retain)); }
      else if p.state == WRITING { Goto(pid, Uploading(items, retain)); }
      else if p.state == LOCKED && p.retention.Some? && p.version.Some? {
        Goto(pid, Holding(items, p.version.value, p.retention.value));
      } else { Stop(pid); }
    }

    method StartAction(pid: PackId, reply: Reply)
      requires pid in packs && pid in drives && drives[pid].pc.Starting?
      modifies this`packs, this`drives
      ensures Model() == Act(old(Model()), pid, reply)
    {
      hide Reload, Window, Entries;
      SameRow(packs, pid);
      var pc := drives[pid].pc;
      if reply == Down { Stop(pid); return; }
      var ok := MarkWriting(pid);
      if ok { Goto(pid, Uploading(pc.items, pc.retain)); } else { Stop(pid); }
    }

    method RecordAction(pid: PackId, reply: Reply)
      requires pid in packs && pid in drives && drives[pid].pc.Uploaded?
      modifies this`packs, this`drives
      ensures Model() == Act(old(Model()), pid, reply)
    {
      hide Reload, Window, Entries;
      SameRow(packs, pid);
      var pc := drives[pid].pc;
      if reply == Down { Stop(pid); return; }
      var ok := MarkWritten(pid, pc.version, pc.hash);
      if ok { Goto(pid, Written(pc.items, pc.retain, pc.version, pc.hash)); } else { Stop(pid); }
    }

    /** Head: the stored version must hash to what was sent. */
    method HeadAction(pid: PackId, reply: Reply)
      requires pid in packs && pid in drives && drives[pid].pc.Written?
      modifies this`drives
      ensures Model() == Act(old(Model()), pid, reply)
    {
      hide Reload, Window, Entries;
      SameRow(packs, pid);
      var pc := drives[pid].pc;
      if reply == Down || pc.version !in objects { Goto(pid, Failing(RETRYABLE)); }
      else if Sha256(objects[pc.version].blob) != pc.hash { Goto(pid, Failing(QUARANTINED)); }
      else { Goto(pid, Agreed(pc.items, pc.retain, pc.version)); }
    }

    /** PutLocked: the manifest goes out, the store answers. */
    method UploadAction(pid: PackId, reply: Reply)
      requires pid in packs && pid in drives && drives[pid].pc.Uploading?
      modifies this`objects, this`drives
      ensures Model() == Act(old(Model()), pid, reply)
    {
      hide Reload, Window, Entries;
      SameRow(packs, pid);
      var d := drives[pid];
      var manifest := BuildManifest(pid, d.policy, d.pc.items, d.days, now);
      var hash := Sha256(Json(manifest));
      match reply
      case Stored(v, blob, lock) =>
        if v in objects { Goto(pid, Failing(RETRYABLE)); return; }
        objects := objects[v := Object(pid, blob, lock)];
        Goto(pid, Uploaded(d.pc.items, d.pc.retain, v, hash));
      case Lost(v, blob, lock) =>
        if v !in objects { objects := objects[v := Object(pid, blob, lock)]; }
        Goto(pid, Failing(RETRYABLE));
      case _ => Goto(pid, Failing(RETRYABLE));
    }

    method LockAction(pid: PackId, reply: Reply)
      requires pid in packs && pid in drives && drives[pid].pc.Agreed?
      modifies this`packs, this`drives
      ensures Model() == Act(old(Model()), pid, reply)
    {
      hide Reload, Window, Entries;
      SameRow(packs, pid);
      var pc := drives[pid].pc;
      if reply == Down { Stop(pid); return; }
      var ok := MarkLocked(pid, pc.retain);
      if ok { Goto(pid, Holding(pc.items, pc.version, pc.retain)); } else { Stop(pid); }
    }

    /** RetentionUntil against the recorded deadline, before and after the one extension. */
    method CheckAction(pid: PackId, reply: Reply)
      requires pid in packs && pid in drives && (drives[pid].pc.Holding? || drives[pid].pc.Rechecking?)
      modifies this`drives
      ensures Model() == Act(old(Model()), pid, reply)
    {
      hide Reload, Window, Entries;
      SameRow(packs, pid);
      var pc := drives[pid].pc;
      if reply == Down || pc.version !in objects { Stop(pid); return; }
      var lock := objects[pc.version].lock;
      if lock.Some? && lock.value + MINUTE >= pc.until { Goto(pid, Pc.Covered(pc.items, pc.version, pc.until)); }
      else if pc.Holding? { Goto(pid, Extending(pc.items, pc.version, pc.until)); }
      else { Stop(pid); }
    }

    /** ExtendRetention on the object: an extend-only store never shortens a lock. */
    method ExtendAction(pid: PackId, reply: Reply)
      requires pid in packs && pid in drives && drives[pid].pc.Extending?
      modifies this`objects, this`drives
      ensures Model() == Act(old(Model()), pid, reply)
    {
      hide Reload, Window, Entries;
      SameRow(packs, pid);
      var pc := drives[pid].pc;
      if reply == Down || pc.version !in objects { Stop(pid); return; }
      var o := objects[pc.version];
      if reply.Granted? && !(o.lock.Some? && o.lock.value >= reply.until) {
        objects := objects[pc.version := o.(lock := Some(reply.until))];
      } else {
        SameObject(objects, pc.version);
      }
      Goto(pid, Rechecking(pc.items, pc.version, pc.until));
    }

    /** The next action of the driver of pid, against whatever the world answers. */
    method Action(pid: PackId, reply: Reply)
      requires pid in packs && pid in drives
      modifies this
      ensures Model() == Act(old(Model()), pid, reply)
    {
      match drives[pid].pc
      case Covered(items, version, _) =>
        if reply != Down { MarkVerified(pid, items, version); }
        Stop(pid);
      case Uploading(_, _) => UploadAction(pid, reply);
      case Ready(_) => DispatchAction(pid, reply);
      case Starting(_, _) => StartAction(pid, reply);
      case Uploaded(_, _, _, _) => RecordAction(pid, reply);
      case Written(_, _, _, _) => HeadAction(pid, reply);
      case Agreed(_, _, _) => LockAction(pid, reply);
      case Holding(_, _, _) => CheckAction(pid, reply);
      case Extending(_, _, _) => ExtendAction(pid, reply);
      case Rechecking(_, _, _) => CheckAction(pid, reply);
      case Adopting => AdoptAction(pid, reply);
      case AdoptPending => AdoptAction(pid, reply);
      case Reloading(_, _, _) => ReloadAction(pid, reply);
      case Failing(_) => FailAction(pid, reply);
    }

    /** A driver running to its end against an honest world, nobody else running. */
    method DriveToEnd(pid: PackId)
      modifies this
      ensures Model() == P.DriveOn(old(Model()), pid, P.FUEL)
    {
      ghost var s := Model();
      var fuel: nat := P.FUEL;
      while fuel > 0 && pid in drives && pid in packs
        invariant fuel <= P.FUEL
        invariant P.DriveOn(s, pid, P.FUEL) == P.DriveOn(Model(), pid, fuel)
      {
        P.DriveUnfolds(Model(), pid, fuel);
        Action(pid, P.HonestReply(pid, drives[pid], objects, now));
        fuel := fuel - 1;
      }
      assert P.DriveOn(Model(), pid, fuel) == Model();
    }

    /** ArchiveOnce: sweep the non-terminal packs, then claim the next window and archive it if this
        claim created its pack. */
    method ArchiveOnce(pending: seq<PackId>, batch: nat, policy: string, days: nat)
      requires drives == map[]
      modifies this
      ensures Model() == P.Tick(old(Model()), pending, batch, policy, days)
    {
      ghost var s := Model();
      for i := 0 to |pending|
        invariant P.Sweep(s, pending, policy, days) == P.Sweep(Model(), pending[i..], policy, days)
      {
        var pid := pending[i];
        assert pending[i..][0] == pid && pending[i..][1..] == pending[i + 1..];
        if pid in packs {
          var _ := LockSwept(pid, policy, days);
          DriveToEnd(pid);
        }
      }
      assert pending[|pending|..] == [];
      ghost var m := Model();
      var pid, items, created := ClaimWindow(batch, policy);
      if created {
        var ok := LockClaimed(pid, items, days);
        DriveToEnd(pid);
      } else {
        assert Model() == m;
      }
    }

    // ---- where anything can happen in between ----

    method Do(step: Step)
      modifies this
      ensures Model() == Apply(old(Model()), step)
    {
      hide Act, Window, Entries;
      match step
      case Tick(ms) => now := now + ms;
      case AddRecord(id, r) => if id !in recs { recs := recs[id := r.(archived := false)]; }
      case SetLinked(id, linked) => if id in recs { recs := recs[id := recs[id].(linked := linked)]; }
      case ClaimWindow(batch, policy) => var _, _, _ := ClaimWindow(batch, policy);
      case LockClaimed(pid, items, days) => if (pid, items) in claims { var _ := LockClaimed(pid, items, days); }
      case LockSwept(pid, policy, days) => var _ := LockSwept(pid, policy, days);
      case Advance(pid, reply) => if pid in packs && pid in drives { Action(pid, reply); }
      case Crash(pid) => Stop(pid);
      case ExtendLedger(pid, until) => var _ := ExtendRetention(pid, until);
      case ExtendObject(v, until) =>
        if v in objects { objects := objects[v := objects[v].(lock := Raise(objects[v].lock, until))]; }
    }

    /** What other workers, the evidence index and the object store do meanwhile. */
    method Others(gap: seq<Step>)
      modifies this
      ensures Model() == Run(old(Model()), gap)
    {
      hide Apply;
      ghost var start := Model();
      for k := 0 to |gap|
        invariant Model() == Run(start, gap[..k])
      {
        assert gap[..k + 1] == gap[..k] + [gap[k]];
        RunSnoc(start, gap[..k], gap[k]);
        Do(gap[k]);
      }
      assert gap[..|gap|] == gap;
    }

    /** The actions of a driver that may crash after them, each after a gap and against any reply; an ended
        drive acts no more. */
    method DriveAmong(pid: PackId, turn: Turn)
      modifies this
      ensures Model() == Run(old(Model()), DriveTrace(pid, turn, turn.actions))
    {
      hide Apply, Run;
      ghost var s := Model();
      RunOfNone(s);
      for k := 0 to turn.actions
        invariant Model() == Run(s, DriveTrace(pid, turn, k))
      {
        ghost var done := DriveTrace(pid, turn, k);
        Others(turn.gaps(k));
        RunConcat(s, done, turn.gaps(k));
        RunSnoc(s, done + turn.gaps(k), Advance(pid, turn.replies(k)));
        Do(Advance(pid, turn.replies(k)));
      }
    }

    /** A gap, the drive lock, and the drive. */
    method LockAndDrive(lock: Step, pid: PackId, turn: Turn)
      modifies this
      ensures Model() == Run(old(Model()), TurnTrace(lock, pid, turn))
    {
      hide Apply, Run, DriveTrace;
      ghost var s := Model();
      Others(turn.before);
      RunSnoc(s, turn.before, lock);
      Do(lock);
      DriveAmong(pid, turn);
      RunConcat(s, turn.before + [lock], DriveTrace(pid, turn, turn.actions));
    }

    method SweepAmong(pending: seq<PackId>, policy: string, days: nat, turns: nat -> Turn)
      modifies this
      ensures Model() == Run(old(Model()), SweepTrace(pending, policy, days, turns))
    {
      hide Apply, Run, TurnTrace;
      ghost var s := Model();
      RunOfNone(s);
      for i := 0 to |pending|
        invariant Model() == Run(s, SweepTrace(pending[..i], policy, days, turns))
      {
        assert pending[..i + 1][..i] == pending[..i];
        LockAndDrive(Step.LockSwept(pending[i], policy, days), pending[i], turns(i));
        RunConcat(s, SweepTrace(pending[..i], policy, days, turns),
                  TurnTrace(Step.LockSwept(pending[i], policy, days), pending[i], turns(i)));
      }
      assert pending[..|pending|] == pending;
    }

    /** ArchiveOnce among others: a turn for every pending pack, then the claim and, if it created its pack, a
        turn for that. */
    method ArchiveAmong(pending: seq<PackId>, batch: nat, policy: string, days: nat, turns: nat -> Turn)
        returns (pid: PackId, items: seq<Item>, created: bool)
      modifies this
      ensures Model() == Run(old(Model()), TickTrace(pending, batch, policy, days, turns, pid, items, created))
      ensures var m := Run(old(Model()), SweepTrace(pending, policy, days, turns));
              && items == Window(m.recs, m.links, P.Size(batch)) && pid == IdOf(policy, items)
              && (created <==> items != [] && pid !in m.packs)
    {
      hide Apply, Run, Window, Entries, SweepTrace, TurnTrace;
      ghost var s, swept := Model(), SweepTrace(pending, policy, days, turns);
      SweepAmong(pending, policy, days, turns);
      RunSnoc(s, swept, Step.ClaimWindow(batch, policy));
      pid, items, created := ClaimWindow(batch, policy);
      if created {
        LockAndDrive(Step.LockClaimed(pid, items, days), pid, turns(|pending|));
        RunConcat(s, swept + [Step.ClaimWindow(batch, policy)],
                  TurnTrace(Step.LockClaimed(pid, items, days), pid, turns(|pending|)));
      }
    }
  }

  /** A worker's turn on one pack: what happens before it takes the lock, then per action what happens before it
      and what the world answers, and how many actions it lives for. */
  datatype Turn = Turn(before: seq<Step>, gaps: nat -> seq<Step>, replies: nat -> Reply, actions: nat)

  function DriveTrace(pid: PackId, turn: Turn, n: nat): seq<Step> {
    if n == 0 then [] else DriveTrace(pid, turn, n - 1) + turn.gaps(n - 1) + [Advance(pid, turn.replies(n - 1))]
  }

  function TurnTrace(lock: Step, pid: PackId, turn: Turn): seq<Step> {
    turn.before + [lock] + DriveTrace(pid, turn, turn.actions)
  }

  function SweepTrace(pending: seq<PackId>, policy: string, days: nat, turns: nat -> Turn): seq<Step>
    decreases |pending|
  {
    if pending == [] then []
    else
      var n := |pending| - 1;
      SweepTrace(pending[..n], policy, days, turns) + TurnTrace(Step.LockSwept(pending[n], policy, days), pending[n], turns(n))
  }

  function TickTrace(pending: seq<PackId>, batch: nat, policy: string, days: nat, turns: nat -> Turn,
                     pid: PackId, items: seq<Item>, created: bool): seq<Step> {
    var done := SweepTrace(pending, policy, days, turns) + [Step.ClaimWindow(batch, policy)];
    if created then done + TurnTrace(Step.LockClaimed(pid, items, days), pid, turns(|pending|)) else done
  }

  lemma {:induction false} RunConcat(s: State, a: seq<Step>, b: seq<Step>)
    ensures Run(s, a + b) == Run(Run(s, a), b)
    decreases a
  {
    hide Apply;
    if a == [] {
      assert a + b == b;
    } else {
      assert (a + b)[0] == a[0] && (a + b)[1..] == a[1..] + b;
      RunConcat(Apply(s, a[0]), a[1..], b);
    }
  }

  lemma RunOfNone(s: State)
    ensures Run(s, []) == s
  {
  }

  lemma RunSnoc(s: State, a: seq<Step>, step: Step)
    ensures Run(s, a + [step]) == Apply(Run(s, a), step)
  {
    hide Apply;
    RunConcat(s, a, [step]);
    assert Run(Run(s, a), [step]) == Run(Apply(Run(s, a), step), [step][1..]);
  }

  lemma SameRow(packs: map<PackId, Pack>, pid: PackId)
    requires pid in packs
    ensures packs[pid := packs[pid]] == packs
  {
  }

  lemma SameObject(objects: map<nat, Object>, v: nat)
    requires v in objects
    ensures objects[v := objects[v].(lock := objects[v].lock)] == objects
  {
    assert objects[v].(lock := objects[v].lock) == objects[v];
  }
}

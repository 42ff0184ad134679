/** Progress of one archive worker over an honest store, nobody else running. */
module ArchiveProgress {
  import opened Base
  import opened Archive
  import opened ArchiveSafety

  function Fresh(objects: map<nat, Object>): nat {
    var s := objects.Keys;
    if s == {} then 0 else Ascending(s)[|s| - 1] + 1
  }

  lemma FreshIsFresh(objects: map<nat, Object>)
    ensures Fresh(objects) !in objects
  {
    var s := objects.Keys;
    var a := Ascending(s);
    forall v | v in s ensures v < Fresh(objects) {
      assert v in a;
      var k :| 0 <= k < |a| && a[k] == v;
      assert a[k] <= a[|s| - 1];
    }
  }

  /** An honest world: uploads are stored as sent under the retention asked for, extensions are
      granted, nothing fails. */
  function HonestReply(pid: PackId, d: Drive, objects: map<nat, Object>, now: nat): Reply {
    match d.pc
    case Uploading(items, retain) =>
      Stored(Fresh(objects), Json(BuildManifest(pid, d.policy, items, d.days, now)), Some(retain))
    case Extending(_, _, until) => Granted(until)
    case _ => Done
  }

  function Honest(s: State, pid: PackId): Reply
    requires pid in s.drives
  {
    HonestReply(pid, s.drives[pid], s.objects, s.now)
  }

  /** How many actions the driver has left. */
  function Rank(pc: Pc, p: Pack): nat {
    match pc
    case Adopting => if p.state == PENDING then 14 else 12
    case AdoptPending => 13
    case Reloading(_, _, _) => 11
    case Ready(_) => 10
    case Starting(_, _) => 9
    case Uploading(_, _) => 8
    case Uploaded(_, _, _, _) => 7
    case Written(_, _, _, _) => 6
    case Agreed(_, _, _) => 5
    case Holding(_, _, _) => 4
    case Extending(_, _, _) => 3
    case Rechecking(_, _, _) => 2
    case Covered(_, _, _) => 1
    case Failing(_) => 1
  }

  function OneAction(s: State, pid: PackId): State
    requires pid in s.drives && pid in s.packs
  {
    Act(s, pid, Honest(s, pid))
  }

  predicate Driving(s: State, pid: PackId) { pid in s.drives && pid in s.packs }

  /** Let the driver of pid run to its end: at most fuel actions. */
  function DriveOn(s: State, pid: PackId, fuel: nat): State
    decreases fuel
  {
    if fuel == 0 || !Driving(s, pid) then s else DriveOn(OneAction(s, pid), pid, fuel - 1)
  }

  const FUEL: nat := 15

  /** Everything but the driven pack, its driver and new object versions is as before. */
  ghost predicate Frame(s: State, t: State, pid: PackId) {
    && t.now == s.now && t.recs == s.recs && t.links == s.links && t.claims == s.claims
    && t.packs.Keys == s.packs.Keys && (forall q :: q in s.packs && q != pid ==> t.packs[q] == s.packs[q])
    && t.drives.Keys <= s.drives.Keys && (forall q :: q in t.drives && q != pid ==> t.drives[q] == s.drives[q])
    && (forall q :: q in s.drives && q != pid ==> q in t.drives)
  }

  /** The driver is on its way to VERIFIED with these items. */
  ghost predicate OnTrackPc(pc: Pc, p: Pack, objects: map<nat, Object>, items: seq<Item>) {
    && p.count == |items|
    && match pc
       case Ready(i) => i == items && p.state !in {VERIFIED, QUARANTINED}
       case Starting(i, _) => i == items
       case Uploading(i, _) => i == items
       case Uploaded(i, _, v, h) => i == items && v in objects && Sha256(objects[v].blob) == h
       case Written(i, _, v, h) => i == items && v in objects && Sha256(objects[v].blob) == h
       case Agreed(i, _, _) => i == items
       case Holding(i, _, _) => i == items
       case Extending(i, _, _) => i == items
       case Rechecking(i, v, until) => i == items && v in objects && Covers(objects[v].lock, until)
       case Covered(i, _, _) => i == items
       case _ => false
  }

  ghost predicate OnTrack(s: State, pid: PackId, items: seq<Item>) {
    Driving(s, pid) && OnTrackPc(s.drives[pid].pc, s.packs[pid], s.objects, items)
  }

  lemma ActFrame(s: State, pid: PackId, reply: Reply)
    requires Driving(s, pid) && !s.drives[pid].pc.Covered?
    ensures Frame(s, Act(s, pid, reply), pid)
  {
  }

  lemma UploadOnTrack(pid: PackId, d: Drive, p: Pack, objects: map<nat, Object>, now: nat,
                      reload: (nat, nat) -> seq<Item>, items: seq<Item>)
    requires DriveOk(pid, d.pc, p, objects) && OnTrackPc(d.pc, p, objects, items)
    requires p.state == LOCKED ==> Sealed(pid, p, objects)
    requires d.pc.Uploading? || d.pc.Uploaded?
    ensures var e := Next(pid, d, p, objects, now, reload, HonestReply(pid, d, objects, now));
            e.pc.Some? && OnTrackPc(e.pc.value, e.pack, e.objects, items)
            && Rank(e.pc.value, e.pack) < Rank(d.pc, p)
  {
    FreshIsFresh(objects);
  }

  lemma WritingOnTrack(pid: PackId, d: Drive, p: Pack, objects: map<nat, Object>, now: nat,
                       reload: (nat, nat) -> seq<Item>, items: seq<Item>)
    requires DriveOk(pid, d.pc, p, objects) && OnTrackPc(d.pc, p, objects, items)
    requires p.state == LOCKED ==> Sealed(pid, p, objects)
    requires d.pc.Ready? || d.pc.Starting? || d.pc.Written? || d.pc.Agreed?
    ensures var e := Next(pid, d, p, objects, now, reload, HonestReply(pid, d, objects, now));
            e.pc.Some? && OnTrackPc(e.pc.value, e.pack, e.objects, items)
            && Rank(e.pc.value, e.pack) < Rank(d.pc, p)
  {
  }

  lemma HoldingOnTrack(pid: PackId, d: Drive, p: Pack, objects: map<nat, Object>, now: nat,
                       reload: (nat, nat) -> seq<Item>, items: seq<Item>)
    requires DriveOk(pid, d.pc, p, objects) && OnTrackPc(d.pc, p, objects, items)
    requires p.state == LOCKED ==> Sealed(pid, p, objects)
    requires d.pc.Holding? || d.pc.Extending? || d.pc.Rechecking?
    ensures var e := Next(pid, d, p, objects, now, reload, HonestReply(pid, d, objects, now));
            e.pc.Some? && OnTrackPc(e.pc.value, e.pack, e.objects, items)
            && Rank(e.pc.value, e.pack) < Rank(d.pc, p)
  {
  }

  lemma StaysOnTrack(s: State, pid: PackId, items: seq<Item>)
    requires Inv(s) && OnTrack(s, pid, items) && !s.drives[pid].pc.Covered?
    ensures var t := OneAction(s, pid);
            OnTrack(t, pid, items) && Rank(t.drives[pid].pc, t.packs[pid]) < Rank(s.drives[pid].pc, s.packs[pid])
  {
    var d, p := s.drives[pid], s.packs[pid];
    var reload := (a: nat, b: nat) => Reload(s.recs, s.links, a, b);
    assert DriveOk(pid, d.pc, p, s.objects);
    assert PackOk(pid, p, s.objects, s.links);
    if d.pc.Uploading? || d.pc.Uploaded? {
      UploadOnTrack(pid, d, p, s.objects, s.now, reload, items);
    } else if d.pc.Holding? || d.pc.Extending? || d.pc.Rechecking? {
      HoldingOnTrack(pid, d, p, s.objects, s.now, reload, items);
    } else {
      WritingOnTrack(pid, d, p, s.objects, s.now, reload, items);
    }
  }

  /** What a verified drive leaves: the pack VERIFIED, its items linked, nothing else touched. */
  ghost predicate Verified(s: State, t: State, pid: PackId, items: seq<Item>) {
    && pid in t.packs && t.packs[pid].state == VERIFIED && pid !in t.drives
    && (exists v :: t.links == InsertLinks(s.links, pid, items, v))
    && t.recs == FlipArchived(s.recs, t.links, pid)
    && t.packs.Keys == s.packs.Keys && (forall q :: q in s.packs && q != pid ==> t.packs[q] == s.packs[q])
    && t.drives.Keys == s.drives.Keys - {pid}
  }

  lemma CoveredVerifies(s: State, pid: PackId, items: seq<Item>)
    requires Inv(s) && OnTrack(s, pid, items) && s.drives[pid].pc.Covered?
    ensures Verified(s, OneAction(s, pid), pid, items)
  {
    var t := OneAction(s, pid);
    assert DriveOk(pid, s.drives[pid].pc, s.packs[pid], s.objects);
    assert t.links == InsertLinks(s.links, pid, items, s.drives[pid].pc.version);
  }

  lemma VerifiedAfterFrame(s: State, m: State, t: State, pid: PackId, items: seq<Item>)
    requires Frame(s, m, pid) && Verified(m, t, pid, items)
    ensures Verified(s, t, pid, items)
  {
    var v :| t.links == InsertLinks(m.links, pid, items, v);
    assert t.links == InsertLinks(s.links, pid, items, v);
  }

  lemma DriveUnfolds(s: State, pid: PackId, fuel: nat)
    requires fuel > 0 && Driving(s, pid)
    ensures DriveOn(s, pid, fuel) == DriveOn(OneAction(s, pid), pid, fuel - 1)
  {
  }

  lemma {:induction false} DriveKeepsInv(s: State, pid: PackId, fuel: nat)
    requires Inv(s)
    ensures Inv(DriveOn(s, pid, fuel))
    decreases fuel
  {
    if fuel > 0 && Driving(s, pid) {
      AdvanceKeepsInv(s, pid, Honest(s, pid));
      DriveKeepsInv(OneAction(s, pid), pid, fuel - 1);
    }
  }

  /** One action on the way: still on track with less to go, or VERIFIED and done. */
  lemma TrackStep(s: State, pid: PackId, items: seq<Item>) returns (m: State)
    requires Inv(s) && OnTrack(s, pid, items)
    ensures m == OneAction(s, pid) && Inv(m) && Driving(s, pid) && Rank(s.drives[pid].pc, s.packs[pid]) > 0
    ensures s.drives[pid].pc.Covered? ==> Verified(s, m, pid, items) && !Driving(m, pid)
    ensures !s.drives[pid].pc.Covered? ==>
              (Frame(s, m, pid) && OnTrack(m, pid, items)
               && Rank(m.drives[pid].pc, m.packs[pid]) < Rank(s.drives[pid].pc, s.packs[pid]))
  {
    m := OneAction(s, pid);
    AdvanceKeepsInv(s, pid, Honest(s, pid));
    if s.drives[pid].pc.Covered? {
      CoveredVerifies(s, pid, items);
    } else {
      StaysOnTrack(s, pid, items);
      ActFrame(s, pid, Honest(s, pid));
    }
  }

  lemma {:induction false} DriveVerifies(s: State, pid: PackId, items: seq<Item>, fuel: nat)
    requires Inv(s) && OnTrack(s, pid, items) && Rank(s.drives[pid].pc, s.packs[pid]) <= fuel
    ensures Verified(s, DriveOn(s, pid, fuel), pid, items)
    decreases fuel
  {
    hide OnTrack, Verified, Inv, Frame, Rank, OneAction;
    var m := TrackStep(s, pid, items);
    DriveUnfolds(s, pid, fuel);
    if !s.drives[pid].pc.Covered? {
      DriveVerifies(m, pid, items, fuel - 1);
      VerifiedAfterFrame(s, m, DriveOn(m, pid, fuel - 1), pid, items);
    }
  }

  // ---- recovery ----

  predicate Terminal(st: PackState) { st in {VERIFIED, QUARANTINED} }

  /** The driver is still deciding what to do with a pack it adopted. */
  ghost predicate DecidingPc(pc: Pc, p: Pack) {
    match pc
    case Adopting => !Terminal(p.state)
    case AdoptPending => p.state == PENDING
    case Reloading(_, _, count) => count == p.count && p.state in {WRITING, RETRYABLE, LOCKED}
    case Failing(to) => to == QUARANTINED && p.state in {WRITING, RETRYABLE, LOCKED}
    case _ => false
  }

  ghost predicate Deciding(s: State, pid: PackId) {
    Driving(s, pid) && DecidingPc(s.drives[pid].pc, s.packs[pid])
  }

  /** The drive is over, the pack is terminal, other packs and drives are untouched, and records only
      became linked. */
  ghost predicate Settles(s: State, t: State, pid: PackId) {
    && pid in t.packs && Terminal(t.packs[pid].state) && t.now == s.now
    && t.packs.Keys == s.packs.Keys && (forall q :: q in s.packs && q != pid ==> t.packs[q] == s.packs[q])
    && t.drives.Keys == s.drives.Keys - {pid}
    && s.links <= t.links && Eligible(t.recs, t.links) <= Eligible(s.recs, s.links)
    && SameRecords(s.recs, t.recs)
  }

  ghost predicate SameRecords(a: map<nat, Rec>, b: map<nat, Rec>) {
    a.Keys == b.Keys && forall id :: id in a ==> b[id].(archived := a[id].archived) == a[id]
  }

  lemma EligibleShrinks(a: map<nat, Rec>, b: map<nat, Rec>, la: seq<Link>, lb: seq<Link>)
    requires SameRecords(a, b) && la <= lb
    ensures Eligible(b, lb) <= Eligible(a, la)
  {
    forall id | id in Eligible(b, lb) ensures id in Eligible(a, la) {
      if IsLinked(la, id) { LinkedGrows(la, lb, id); }
    }
  }

  lemma VerifiedSettles(s: State, t: State, pid: PackId, items: seq<Item>)
    requires Inv(s) && Verified(s, t, pid, items) && t.now == s.now
    ensures Settles(s, t, pid)
  {
    var v :| t.links == InsertLinks(s.links, pid, items, v);
    InsertLinksAdds(s.links, pid, items, v);
    assert SameRecords(s.recs, t.recs);
    EligibleShrinks(s.recs, t.recs, s.links, t.links);
  }

  lemma SettlesAfterFrame(s: State, m: State, t: State, pid: PackId)
    requires Frame(s, m, pid) && pid in s.packs && Settles(m, t, pid)
    ensures Settles(s, t, pid)
  {
  }

  ghost predicate Decided(s: State, m: State, pid: PackId) {
    && Frame(s, m, pid)
    && (pid !in m.drives ==> pid in m.packs && Terminal(m.packs[pid].state) && m.drives.Keys == s.drives.Keys - {pid})
    && (pid in m.drives ==>
          && pid in m.packs && pid in s.drives && pid in s.packs
          && (Deciding(m, pid) || exists items :: OnTrack(m, pid, items))
          && Rank(m.drives[pid].pc, m.packs[pid]) < Rank(s.drives[pid].pc, s.packs[pid]))
  }

  lemma ReloadDecides(s: State, pid: PackId)
    requires Deciding(s, pid) && s.drives[pid].pc.Reloading?
    ensures Decided(s, OneAction(s, pid), pid)
  {
    hide Reload, Entries;
    var m := OneAction(s, pid);
    ActFrame(s, pid, Honest(s, pid));
    var d := s.drives[pid];
    var items := Reload(s.recs, s.links, d.pc.first, d.pc.last);
    if |items| == d.pc.count && IdOf(d.policy, items) == pid {
      assert m.drives[pid].pc == Ready(items);
      assert OnTrack(m, pid, items);
    }
  }

  lemma DecisionStep(s: State, pid: PackId)
    requires Deciding(s, pid)
    ensures Decided(s, OneAction(s, pid), pid)
  {
    if s.drives[pid].pc.Reloading? {
      ReloadDecides(s, pid);
    } else {
      ActFrame(s, pid, Honest(s, pid));
    }
  }

  lemma {:induction false} RecoverySettles(s: State, pid: PackId, fuel: nat)
    requires Inv(s) && Deciding(s, pid) && Rank(s.drives[pid].pc, s.packs[pid]) <= fuel
    ensures Settles(s, DriveOn(s, pid, fuel), pid)
    decreases fuel
  {
    var m := OneAction(s, pid);
    DecisionStep(s, pid);
    AdvanceKeepsInv(s, pid, Honest(s, pid));
    DriveUnfolds(s, pid, fuel);
    if pid !in m.drives {
      assert DriveOn(m, pid, fuel - 1) == m;
      EligibleShrinks(s.recs, m.recs, s.links, m.links);
    } else if Deciding(m, pid) {
      RecoverySettles(m, pid, fuel - 1);
      SettlesAfterFrame(s, m, DriveOn(m, pid, fuel - 1), pid);
    } else {
      var items :| OnTrack(m, pid, items);
      DriveVerifies(m, pid, items, fuel - 1);
      ClockStands(m, pid, fuel - 1);
      VerifiedSettles(m, DriveOn(m, pid, fuel - 1), pid, items);
      SettlesAfterFrame(s, m, DriveOn(m, pid, fuel - 1), pid);
    }
  }

  lemma {:induction false} ClockStands(s: State, pid: PackId, fuel: nat)
    ensures DriveOn(s, pid, fuel).now == s.now
    decreases fuel
  {
    if fuel > 0 && Driving(s, pid) { ClockStands(OneAction(s, pid), pid, fuel - 1); }
  }

  /** Recover on one pack: take the drive lock, run, release. */
  function Recover(s: State, pid: PackId, policy: string, days: nat): State {
    DriveOn(Apply(s, LockSwept(pid, policy, days)), pid, FUEL)
  }

  lemma RecoverSettles(s: State, pid: PackId, policy: string, days: nat)
    requires Inv(s) && s.drives == map[] && pid in s.packs
    ensures Inv(Recover(s, pid, policy, days)) && Settles(s, Recover(s, pid, policy, days), pid)
  {
    var m := Apply(s, LockSwept(pid, policy, days));
    StepKeepsInv(s, LockSwept(pid, policy, days));
    DriveKeepsInv(m, pid, FUEL);
    if Terminal(s.packs[pid].state) {
      TerminalIsLeftAlone(m, pid);
      EligibleShrinks(s.recs, s.recs, s.links, s.links);
    } else {
      RecoverySettles(m, pid, FUEL);
    }
  }

  lemma TerminalIsLeftAlone(s: State, pid: PackId)
    requires Driving(s, pid) && s.drives[pid].pc == Adopting && Terminal(s.packs[pid].state)
    ensures DriveOn(s, pid, FUEL) == s.(drives := s.drives - {pid})
  {
    var m := OneAction(s, pid);
    DriveUnfolds(s, pid, FUEL);
    assert m == s.(drives := s.drives - {pid}) by { assert s.packs[pid := s.packs[pid]] == s.packs; }
    assert DriveOn(m, pid, FUEL - 1) == m;
  }

  // ---- ticks ----

  /** The recovery sweep over the packs PendingPacks listed. */
  function Sweep(s: State, pending: seq<PackId>, policy: string, days: nat): State
    decreases pending
  {
    if pending == [] then s
    else Sweep(if pending[0] in s.packs then Recover(s, pending[0], policy, days) else s, pending[1..], policy, days)
  }

  /** No driver is running and every pack is terminal, except perhaps those listed. */
  ghost predicate QuietBut(s: State, pending: seq<PackId>) {
    s.drives == map[] && forall pid :: pid in s.packs && !Terminal(s.packs[pid].state) ==> pid in pending
  }

  lemma SettlesQuiets(s: State, t: State, pending: seq<PackId>)
    requires pending != [] && QuietBut(s, pending) && Settles(s, t, pending[0])
    ensures QuietBut(t, pending[1..])
  {
    forall pid | pid in t.packs && !Terminal(t.packs[pid].state) ensures pid in pending[1..] {
      assert pid in pending;
    }
  }

  lemma {:induction false} SweepQuiets(s: State, pending: seq<PackId>, policy: string, days: nat)
    requires Inv(s) && QuietBut(s, pending)
    ensures var t := Sweep(s, pending, policy, days);
            && Inv(t) && QuietBut(t, []) && t.packs.Keys == s.packs.Keys
            && s.links <= t.links && Eligible(t.recs, t.links) <= Eligible(s.recs, s.links) && SameRecords(s.recs, t.recs)
    decreases pending
  {
    if pending == [] {
    } else if pending[0] in s.packs {
      var m := Recover(s, pending[0], policy, days);
      RecoverSettles(s, pending[0], policy, days);
      SettlesQuiets(s, m, pending);
      SweepQuiets(m, pending[1..], policy, days);
    } else {
      assert QuietBut(s, pending[1..]) by {
        forall pid | pid in s.packs && !Terminal(s.packs[pid].state) ensures pid in pending[1..] {
          assert pid in pending;
        }
      }
      SweepQuiets(s, pending[1..], policy, days);
    }
  }

  function Size(batch: nat): nat { if batch == 0 then 100 else batch }

  /** The claim half of ArchiveOnce: claim the next window, and archive it if the claim created the pack. */
  function ClaimAndArchive(s: State, batch: nat, policy: string, days: nat): State {
    var items := Window(s.recs, s.links, Size(batch));
    var pid := IdOf(policy, items);
    if items == [] || pid in s.packs then s
    else DriveOn(Apply(Apply(s, ClaimWindow(batch, policy)), LockClaimed(pid, items, days)), pid, FUEL)
  }

  function Tick(s: State, pending: seq<PackId>, batch: nat, policy: string, days: nat): State {
    ClaimAndArchive(Sweep(s, pending, policy, days), batch, policy, days)
  }

  function Ids(items: seq<Item>): set<nat> { set k | 0 <= k < |items| :: items[k].id }

  lemma WindowIsEligible(recs: map<nat, Rec>, links: seq<Link>, n: nat)
    ensures Ids(Window(recs, links, n)) <= Eligible(recs, links)
    ensures |Window(recs, links, n)| == if |Eligible(recs, links)| <= n then |Eligible(recs, links)| else n
    ensures DistinctIds(Window(recs, links, n))
  {
    var e := Eligible(recs, links);
    AscendingIn(e, n);
    ItemsAreDistinct(recs, Limit(Ascending(e), n));
  }

  /** In a quiet state a window's pack id is taken only by a quarantined pack. */
  lemma TakenMeansQuarantined(s: State, n: nat, policy: string)
    requires Inv(s) && QuietBut(s, []) && Window(s.recs, s.links, n) != []
    requires IdOf(policy, Window(s.recs, s.links, n)) in s.packs
    ensures s.packs[IdOf(policy, Window(s.recs, s.links, n))].state == QUARANTINED
  {
    var items := Window(s.recs, s.links, n);
    var pid := IdOf(policy, items);
    WindowIsEligible(s.recs, s.links, n);
    assert PackOk(pid, s.packs[pid], s.objects, s.links);
    assert EntryOf(items[0]) in pid.entries;
    assert items[0].id in Ids(items);
  }

  lemma NewlyLinkedAreItems(a: seq<Link>, pid: PackId, items: seq<Item>, v: nat, id: nat)
    requires OneLinkEach(a) && IsLinked(InsertLinks(a, pid, items, v), id) && !IsLinked(a, id)
    ensures id in Ids(items)
  {
    var b := InsertLinks(a, pid, items, v);
    InsertLinksAdds(a, pid, items, v);
    assert forall j :: 0 <= j < |a| ==> a[j].record != id;
    var k :| 0 <= k < |b| && b[k].record == id;
    assert NewLink(b[k], pid, items, v);
  }

  /** Linking the window removes exactly the window from what is left to archive. */
  lemma LinkingTheWindow(recs: map<nat, Rec>, a: seq<Link>, pid: PackId, items: seq<Item>, v: nat, after: map<nat, Rec>)
    requires OneLinkEach(a) && SameRecords(recs, after)
    ensures Eligible(after, InsertLinks(a, pid, items, v)) == Eligible(recs, a) - Ids(items)
  {
    var b := InsertLinks(a, pid, items, v);
    InsertLinksAdds(a, pid, items, v);
    forall id ensures id in Eligible(after, b) <==> id in Eligible(recs, a) && id !in Ids(items) {
      if id in Ids(items) {
        var k :| 0 <= k < |items| && items[k].id == id;
        assert IsLinked(b, items[k].id);
      } else if IsLinked(a, id) {
        LinkedGrows(a, b, id);
      } else if IsLinked(b, id) {
        NewlyLinkedAreItems(a, pid, items, v, id);
      }
      if id in after { assert after[id].(archived := recs[id].archived) == recs[id]; }
    }
  }

  /** A quarantined pack already holds the content id of the next window. */
  ghost predicate Twin(s: State, batch: nat, policy: string) {
    var pid := IdOf(policy, Window(s.recs, s.links, Size(batch)));
    pid in s.packs && s.packs[pid].state == QUARANTINED
  }

  /** The claim half of a tick archives exactly the next window, unless a quarantined pack has the
      window's content id; then it does nothing at all. */
  lemma ClaimArchivesUnlessTwin(s: State, batch: nat, policy: string, days: nat)
    requires Inv(s) && QuietBut(s, []) && Eligible(s.recs, s.links) != {}
    ensures var t := ClaimAndArchive(s, batch, policy, days);
            && (Twin(s, batch, policy) ==> t == s)
            && (!Twin(s, batch, policy) ==> Archived(s, t, Window(s.recs, s.links, Size(batch))))
  {
    var items := Window(s.recs, s.links, Size(batch));
    WindowIsEligible(s.recs, s.links, Size(batch));
    if IdOf(policy, items) in s.packs {
      TakenMeansQuarantined(s, Size(batch), policy);
    } else {
      FreshClaimArchives(s, batch, policy, days);
    }
  }

  lemma {:induction false} IdsCount(items: seq<Item>)
    requires DistinctIds(items)
    ensures |Ids(items)| == |items|
    decreases |items|
  {
    if items != [] {
      var n := |items| - 1;
      var init := items[..n];
      IdsCount(init);
      assert Ids(items) == Ids(init) + {items[n].id};
      assert items[n].id !in Ids(init);
    }
  }

  /** One ArchiveOnce tick from any state in which nobody is driving: afterwards every pack is
      terminal and every invariant holds; the sweep loses nothing; and if no quarantined pack holds
      the next window's content id, exactly min(batch, remaining) of the records the sweep left are
      archived, otherwise none is. */
  lemma TickArchives(s: State, pending: seq<PackId>, batch: nat, policy: string, days: nat)
    requires Inv(s) && QuietBut(s, pending)
    ensures var m, t := Sweep(s, pending, policy, days), Tick(s, pending, batch, policy, days);
            var left := |Eligible(m.recs, m.links)|;
            && Inv(t) && QuietBut(t, [])
            && s.links <= t.links && SameRecords(s.recs, t.recs)
            && Eligible(m.recs, m.links) <= Eligible(s.recs, s.links)
            && |Eligible(t.recs, t.links)| ==
               if left == 0 || Twin(m, batch, policy) then left
               else left - (if left <= Size(batch) then left else Size(batch))
  {
    var m := Sweep(s, pending, policy, days);
    SweepQuiets(s, pending, policy, days);
    var items := Window(m.recs, m.links, Size(batch));
    WindowIsEligible(m.recs, m.links, Size(batch));
    IdsCount(items);
    ClaimKeepsAll(m, batch, policy, days);
    if Eligible(m.recs, m.links) != {} {
      ClaimArchivesUnlessTwin(m, batch, policy, days);
    }
    SameRecordsTrans(s.recs, m.recs, Tick(s, pending, batch, policy, days).recs);
  }

  lemma SameRecordsTrans(a: map<nat, Rec>, b: map<nat, Rec>, c: map<nat, Rec>)
    requires SameRecords(a, b) && SameRecords(b, c)
    ensures SameRecords(a, c)
  {
    forall id | id in a ensures c[id].(archived := a[id].archived) == a[id] {
      assert b[id].(archived := a[id].archived) == a[id] && c[id].(archived := b[id].archived) == b[id];
    }
  }

  /** The claim created the pack and its worker took the drive lock. */
  lemma ClaimStarts(s: State, batch: nat, policy: string, days: nat) returns (m: State)
    requires Inv(s) && QuietBut(s, []) && Window(s.recs, s.links, Size(batch)) != []
    requires IdOf(policy, Window(s.recs, s.links, Size(batch))) !in s.packs
    ensures var items := Window(s.recs, s.links, Size(batch)); var pid := IdOf(policy, items);
            && ClaimAndArchive(s, batch, policy, days) == DriveOn(m, pid, FUEL)
            && Inv(m) && OnTrack(m, pid, items) && Rank(m.drives[pid].pc, m.packs[pid]) <= FUEL
            && m.recs == s.recs && m.links == s.links && m.drives.Keys == {pid}
            && m.packs.Keys == s.packs.Keys + {pid} && (forall q :: q in s.packs ==> m.packs[q] == s.packs[q])
  {
    var items := Window(s.recs, s.links, Size(batch));
    var pid := IdOf(policy, items);
    hide Window, Entries, Inv, DriveOn;
    var c := Apply(s, ClaimWindow(batch, policy));
    m := Apply(c, LockClaimed(pid, items, days));
    StepKeepsInv(s, ClaimWindow(batch, policy));
    StepKeepsInv(c, LockClaimed(pid, items, days));
  }

  /** What the claim half leaves when it created the pack. */
  ghost predicate Archived(s: State, t: State, items: seq<Item>) {
    && QuietBut(t, []) && s.links <= t.links && SameRecords(s.recs, t.recs)
    && Eligible(t.recs, t.links) == Eligible(s.recs, s.links) - Ids(items)
    && (forall q :: q in t.packs ==> (q in s.packs && t.packs[q] == s.packs[q]) || t.packs[q].state == VERIFIED)
    && (forall q :: q in s.packs ==> q in t.packs && t.packs[q] == s.packs[q])
  }

  lemma FreshClaimArchives(s: State, batch: nat, policy: string, days: nat)
    requires Inv(s) && QuietBut(s, []) && Window(s.recs, s.links, Size(batch)) != []
    requires IdOf(policy, Window(s.recs, s.links, Size(batch))) !in s.packs
    ensures Archived(s, ClaimAndArchive(s, batch, policy, days), Window(s.recs, s.links, Size(batch)))
  {
    var items := Window(s.recs, s.links, Size(batch));
    var pid := IdOf(policy, items);
    var m := ClaimStarts(s, batch, policy, days);
    DriveVerifies(m, pid, items, FUEL);
    VerifiedIsArchived(s, m, DriveOn(m, pid, FUEL), pid, items);
  }

  lemma VerifiedIsArchived(s: State, m: State, t: State, pid: PackId, items: seq<Item>)
    requires QuietBut(s, []) && LinksOk(m.links, m.packs) && Verified(m, t, pid, items)
    requires m.recs == s.recs && m.links == s.links && m.drives.Keys == {pid} && pid !in s.packs
    requires m.packs.Keys == s.packs.Keys + {pid} && (forall q :: q in s.packs ==> m.packs[q] == s.packs[q])
    ensures Archived(s, t, items)
  {
    ArchivedWindow(m, t, pid, items);
  }

  lemma ClaimKeepsAll(s: State, batch: nat, policy: string, days: nat)
    requires Inv(s)
    ensures Inv(ClaimAndArchive(s, batch, policy, days))
  {
    var items := Window(s.recs, s.links, Size(batch));
    var pid := IdOf(policy, items);
    if items != [] && pid !in s.packs {
      var c := Apply(s, ClaimWindow(batch, policy));
      StepKeepsInv(s, ClaimWindow(batch, policy));
      StepKeepsInv(c, LockClaimed(pid, items, days));
      DriveKeepsInv(Apply(c, LockClaimed(pid, items, days)), pid, FUEL);
    }
  }

  lemma ArchivedWindow(m: State, t: State, pid: PackId, items: seq<Item>)
    requires LinksOk(m.links, m.packs) && Verified(m, t, pid, items)
    ensures m.links <= t.links && SameRecords(m.recs, t.recs)
    ensures Eligible(t.recs, t.links) == Eligible(m.recs, m.links) - Ids(items)
  {
    var v :| t.links == InsertLinks(m.links, pid, items, v);
    InsertLinksAdds(m.links, pid, items, v);
    LinkingTheWindow(m.recs, m.links, pid, items, v, t.recs);
  }

  // ---- runs of ticks ----

  /** One tick after another, each sweeping the packs it found pending. */
  function Ticks(s: State, pendings: seq<seq<PackId>>, batch: nat, policy: string, days: nat): State
    decreases |pendings|
  {
    if pendings == [] then s
    else Ticks(Tick(s, pendings[0], batch, policy, days), pendings[1..], batch, policy, days)
  }

  /** The first tick's list holds every pack that is not terminal; later ticks find none left over. */
  ghost predicate Startable(s: State, pendings: seq<seq<PackId>>) {
    Inv(s) && (pendings != [] ==> QuietBut(s, pendings[0]))
  }

  function Left(s: State): set<nat> { Eligible(s.recs, s.links) }

  /** The records that wait once the first tick has swept. */
  function Waiting(s: State, pendings: seq<seq<PackId>>, policy: string, days: nat): set<nat> {
    if pendings == [] then Left(s) else Left(Sweep(s, pendings[0], policy, days))
  }

  /** Nothing waits, or no quarantined pack holds the next window's content id. */
  ghost predicate Free(s: State, batch: nat, policy: string) { Left(s) == {} || !Twin(s, batch, policy) }

  /** At every tick the window is free once the tick has swept. */
  ghost predicate Unobstructed(s: State, pendings: seq<seq<PackId>>, batch: nat, policy: string, days: nat)
    decreases |pendings|
  {
    pendings == [] || (Free(Sweep(s, pendings[0], policy, days), batch, policy)
                       && Unobstructed(Tick(s, pendings[0], batch, policy, days), pendings[1..], batch, policy, days))
  }

  /** A sweep over terminal packs changes nothing. */
  lemma {:induction false} SweepOfQuiet(s: State, pending: seq<PackId>, policy: string, days: nat)
    requires QuietBut(s, [])
    ensures Sweep(s, pending, policy, days) == s
    decreases pending
  {
    if pending != [] {
      if pending[0] in s.packs {
        var m := Apply(s, LockSwept(pending[0], policy, days));
        TerminalIsLeftAlone(m, pending[0]);
        assert m.drives - {pending[0]} == map[];
      }
      SweepOfQuiet(s, pending[1..], policy, days);
    }
  }

  lemma NextStartable(s: State, pendings: seq<seq<PackId>>, batch: nat, policy: string, days: nat)
    requires Startable(s, pendings) && pendings != []
    ensures var t := Tick(s, pendings[0], batch, policy, days);
            Startable(t, pendings[1..]) && QuietBut(t, []) && Waiting(t, pendings[1..], policy, days) == Left(t)
  {
    hide Inv, Tick, Sweep, Eligible;
    var t := Tick(s, pendings[0], batch, policy, days);
    TickArchives(s, pendings[0], batch, policy, days);
    if pendings[1..] != [] { SweepOfQuiet(t, pendings[1..][0], policy, days); }
  }

  /** How many records n ticks can archive. */
  function Capacity(n: nat, batch: nat): nat { n * Size(batch) }

  function Minus(a: nat, b: nat): nat { if a <= b then 0 else a - b }

  lemma NoTicksLeaveAll(left: nat, batch: nat)
    ensures Minus(left, Capacity(0, batch)) == left
  {
  }

  lemma MinusSteps(left: nat, n: nat, batch: nat)
    requires n > 0
    ensures Minus(Minus(left, Size(batch)), Capacity(n - 1, batch)) == Minus(left, Capacity(n, batch))
  {
    assert n * Size(batch) == (n - 1) * Size(batch) + Size(batch);
  }

  /** Every invariant holds, no link is lost, and records only became archived. */
  ghost predicate Grown(s: State, t: State) { Inv(t) && s.links <= t.links && SameRecords(s.recs, t.recs) }

  /** From any interrupted state, while no tick's window is held by a quarantined pack, n ticks archive n
      batches' worth of what waits, or all of it; nothing already archived is lost. */
  lemma {:induction false} TicksArchive(s: State, pendings: seq<seq<PackId>>, batch: nat, policy: string, days: nat)
    requires Startable(s, pendings) && Unobstructed(s, pendings, batch, policy, days)
    ensures |Left(Ticks(s, pendings, batch, policy, days))|
         == Minus(|Waiting(s, pendings, policy, days)|, Capacity(|pendings|, batch))
    ensures Grown(s, Ticks(s, pendings, batch, policy, days))
    decreases |pendings|
  {
    hide Tick, Inv, QuietBut, Eligible, Size, Twin, Minus;
    if pendings == [] {
      assert Minus(|Left(s)|, Capacity(0, batch)) == |Left(s)| by { NoTicksLeaveAll(|Left(s)|, batch); }
    } else {
      var t := Tick(s, pendings[0], batch, policy, days);
      TickArchives(s, pendings[0], batch, policy, days);
      NextStartable(s, pendings, batch, policy, days);
      TicksArchive(t, pendings[1..], batch, policy, days);
      TickLeaves(s, pendings[0], batch, policy, days);
      MinusSteps(|Waiting(s, pendings, policy, days)|, |pendings|, batch);
      SameRecordsTrans(s.recs, t.recs, Ticks(t, pendings[1..], batch, policy, days).recs);
    }
  }

  lemma TickLeaves(s: State, pending: seq<PackId>, batch: nat, policy: string, days: nat)
    requires Inv(s) && QuietBut(s, pending) && Free(Sweep(s, pending, policy, days), batch, policy)
    ensures |Left(Tick(s, pending, batch, policy, days))| == Minus(|Left(Sweep(s, pending, policy, days))|, Size(batch))
  {
    hide Tick, Inv, QuietBut, Sweep, Eligible, Size, Twin;
    TickArchives(s, pending, batch, policy, days);
  }

  /** While a quarantined pack holds the next window's content id, no number of ticks changes anything. */
  lemma {:induction false} TwinStallsForever(s: State, pendings: seq<seq<PackId>>, batch: nat, policy: string, days: nat)
    requires Inv(s) && QuietBut(s, []) && Left(s) != {} && Twin(s, batch, policy)
    ensures Ticks(s, pendings, batch, policy, days) == s
    decreases |pendings|
  {
    hide Inv, QuietBut, Eligible, Twin, Sweep, ClaimAndArchive;
    if pendings != [] {
      SweepOfQuiet(s, pendings[0], policy, days);
      ClaimArchivesUnlessTwin(s, batch, policy, days);
      TwinStallsForever(s, pendings[1..], batch, policy, days);
    }
  }

  lemma {:induction false} ObstructedTicksStall(s: State, pendings: seq<seq<PackId>>, batch: nat, policy: string, days: nat)
    requires Startable(s, pendings) && !Unobstructed(s, pendings, batch, policy, days)
    ensures Left(Ticks(s, pendings, batch, policy, days)) != {}
    decreases |pendings|
  {
    hide Inv, QuietBut, Eligible, Twin, Sweep, ClaimAndArchive;
    var m := Sweep(s, pendings[0], policy, days);
    if Free(m, batch, policy) {
      NextStartable(s, pendings, batch, policy, days);
      ObstructedTicksStall(Tick(s, pendings[0], batch, policy, days), pendings[1..], batch, policy, days);
    } else {
      SweepQuiets(s, pendings[0], policy, days);
      ClaimArchivesUnlessTwin(m, batch, policy, days);
      TwinStallsForever(m, pendings[1..], batch, policy, days);
    }
  }

  /** Given enough ticks, ceil(n / batch) for n waiting records, everything is archived exactly when no
      quarantined pack ever holds the content id of the window a tick is about to claim. */
  lemma EverythingIsArchived(s: State, pendings: seq<seq<PackId>>, batch: nat, policy: string, days: nat)
    requires Startable(s, pendings) && |Waiting(s, pendings, policy, days)| <= Capacity(|pendings|, batch)
    ensures Left(Ticks(s, pendings, batch, policy, days)) == {} <==> Unobstructed(s, pendings, batch, policy, days)
  {
    hide Startable, Ticks, Waiting, Left, Capacity, Unobstructed;
    if Unobstructed(s, pendings, batch, policy, days) {
      TicksArchive(s, pendings, batch, policy, days);
    } else {
      ObstructedTicksStall(s, pendings, batch, policy, days);
    }
  }
}

/** When the recovery of an interrupted pack completes it, and what retention a pack is committed to. */
module ArchiveRecovery {
  import opened Base
  import opened Archive
  import opened ArchiveSafety
  import opened P = ArchiveProgress

  // ---- a pack row describes its pack ----

  ghost predicate HasRecord(pid: PackId, id: nat) { exists e :: e in pid.entries && e.id == id }

  /** One entry per record; count is their number, first and last the least and the greatest record. */
  ghost predicate Described(pid: PackId, p: Pack) {
    && p.count == |pid.entries| > 0
    && (forall e, f :: e in pid.entries && f in pid.entries && e.id == f.id ==> e == f)
    && (forall e :: e in pid.entries ==> p.first <= e.id <= p.last)
    && HasRecord(pid, p.first) && HasRecord(pid, p.last)
  }

  ghost predicate AllDescribed(packs: map<PackId, Pack>) { forall pid :: pid in packs ==> Described(pid, packs[pid]) }

  lemma {:induction false} EntriesCount(items: seq<Item>)
    requires DistinctIds(items)
    ensures |Entries(items)| == |items|
    decreases |items|
  {
    if items != [] {
      var n := |items| - 1;
      var init := items[..n];
      EntriesCount(init);
      assert Entries(items) == Entries(init) + {EntryOf(items[n])};
      assert EntryOf(items[n]) !in Entries(init);
    }
  }

  lemma AscendingItemsDescribe(policy: string, items: seq<Item>, p: Pack)
    requires items != [] && forall i, j :: 0 <= i < j < |items| ==> items[i].id < items[j].id
    requires p.count == |items| && p.first == items[0].id && p.last == items[|items| - 1].id
    ensures Described(IdOf(policy, items), p)
  {
    var pid := IdOf(policy, items);
    EntriesCount(items);
    assert EntryOf(items[0]) in pid.entries && EntryOf(items[|items| - 1]) in pid.entries;
    forall e, f | e in pid.entries && f in pid.entries && e.id == f.id ensures e == f {
      var i :| 0 <= i < |items| && EntryOf(items[i]) == e;
      var j :| 0 <= j < |items| && EntryOf(items[j]) == f;
    }
  }

  lemma ItemsAscend(recs: map<nat, Rec>, ids: seq<nat>)
    requires forall k :: 0 <= k < |ids| ==> ids[k] in recs
    requires forall i, j :: 0 <= i < j < |ids| ==> ids[i] < ids[j]
    ensures forall i, j :: 0 <= i < j < |ItemsOf(recs, ids)| ==> ItemsOf(recs, ids)[i].id < ItemsOf(recs, ids)[j].id
  {
  }

  lemma ClaimDescribes(s: State, batch: nat, policy: string)
    requires AllDescribed(s.packs)
    ensures AllDescribed(Claim(s, batch, policy).packs)
  {
    hide Described, IsLinked, Entries, Ascending, Limit;
    var n := if batch == 0 then 100 else batch;
    var items := Window(s.recs, s.links, n);
    var t := Claim(s, batch, policy);
    if t != s {
      var e := Eligible(s.recs, s.links);
      AscendingIn(e, n);
      ItemsAscend(s.recs, Limit(Ascending(e), n));
      AscendingItemsDescribe(policy, items, t.packs[IdOf(policy, items)]);
    }
  }

  lemma NewPacksAreClaimed(s: State, step: Step, pid: PackId)
    requires pid in Apply(s, step).packs && pid !in s.packs
    ensures step.ClaimWindow?
  {
    hide Next, Claim, IdOf, InsertLinks, FlipArchived;
  }

  lemma StepKeepsDescribed(s: State, step: Step)
    requires Inv(s) && AllDescribed(s.packs)
    ensures AllDescribed(Apply(s, step).packs)
  {
    hide Inv, Described, Claim, Act;
    var t := Apply(s, step);
    if step.ClaimWindow? {
      ClaimDescribes(s, step.batch, step.policy);
    } else {
      forall pid | pid in t.packs ensures Described(pid, t.packs[pid]) {
        if pid !in s.packs { NewPacksAreClaimed(s, step, pid); }
        ChangesFollowTheMatrix(s, step, pid);
        StaysDescribed(pid, s.packs[pid], t.packs[pid]);
      }
    }
  }

  lemma StaysDescribed(pid: PackId, a: Pack, b: Pack)
    requires Described(pid, a) && Moves(a, b)
    ensures Described(pid, b)
  {
  }

  /** In every reachable state each pack row has the size and the bounds of what its id was derived from. */
  lemma {:induction false} PacksAreDescribed(s: State, steps: seq<Step>)
    requires Inv(s) && AllDescribed(s.packs)
    ensures AllDescribed(Run(s, steps).packs)
    decreases steps
  {
    hide Inv, AllDescribed, Apply;
    if steps != [] {
      StepKeepsInv(s, steps[0]);
      StepKeepsDescribed(s, steps[0]);
      PacksAreDescribed(Apply(s, steps[0]), steps[1..]);
    }
  }

  // ---- when recovery completes a pack ----

  /** The record is linked to its source and not archived yet. */
  ghost predicate Unarchived(recs: map<nat, Rec>, links: seq<Link>, id: nat) {
    id in recs && recs[id].linked && forall k :: 0 <= k < |links| ==> links[k].record != id
  }

  /** The worker's policy is the pack's, and the unarchived records between its bounds are just its own. */
  ghost predicate Recoverable(s: State, pid: PackId, policy: string)
    requires pid in s.packs
  {
    && pid.policy == policy
    && forall id :: s.packs[pid].first <= id <= s.packs[pid].last ==>
         (Unarchived(s.recs, s.links, id) <==> HasRecord(pid, id))
  }

  lemma EntriesOfItems(recs: map<nat, Rec>, ids: seq<nat>, e: Entry)
    requires forall k :: 0 <= k < |ids| ==> ids[k] in recs
    ensures e in Entries(ItemsOf(recs, ids)) <==>
            e.id in ids && e.eventId == recs[e.id].eventId && e.digest == recs[e.id].digest
  {
    var items := ItemsOf(recs, ids);
    if e.id in ids && e.eventId == recs[e.id].eventId && e.digest == recs[e.id].digest {
      var k :| 0 <= k < |ids| && ids[k] == e.id;
      assert EntryOf(items[k]) == e;
    }
  }

  lemma ReloadedIds(recs: map<nat, Rec>, links: seq<Link>, first: nat, last: nat, e: Entry)
    ensures e in Entries(Reload(recs, links, first, last)) <==>
            Unarchived(recs, links, e.id) && first <= e.id <= last
            && e.eventId == recs[e.id].eventId && e.digest == recs[e.id].digest
  {
    hide Entries, ItemsOf;
    var s := set id | id in Eligible(recs, links) && first <= id <= last;
    var ids := Limit(Ascending(s), |s|);
    AscendingIn(s, |s|);
    EntriesOfItems(recs, ids, e);
    assert e.id in ids <==> e.id in s;
  }

  /** The reloaded records have the pack's number and id exactly when the pack can be recovered. */
  lemma ReloadMatchesExactly(s: State, pid: PackId, policy: string)
    requires pid in s.packs && Described(pid, s.packs[pid]) && Real(pid, s.recs)
    ensures var items := Reload(s.recs, s.links, s.packs[pid].first, s.packs[pid].last);
            |items| == s.packs[pid].count && IdOf(policy, items) == pid <==> Recoverable(s, pid, policy)
  {
    hide Reload, Entries, Unarchived;
    var p := s.packs[pid];
    var items := Reload(s.recs, s.links, p.first, p.last);
    ReloadDistinct(s.recs, s.links, p.first, p.last);
    EntriesCount(items);
    if Recoverable(s, pid, policy) {
      forall e ensures e in Entries(items) <==> e in pid.entries {
        ReloadedIds(s.recs, s.links, p.first, p.last, e);
        if e in Entries(items) {
          assert HasRecord(pid, e.id);
          var f :| f in pid.entries && f.id == e.id;
          assert f == e;
        }
        if e in pid.entries { assert HasRecord(pid, e.id); }
      }
      assert Entries(items) == pid.entries;
    } else if IdOf(policy, items) == pid {
      MatchingIsRecoverable(s, pid, policy);
    }
  }

  lemma MatchingIsRecoverable(s: State, pid: PackId, policy: string)
    requires pid in s.packs && IdOf(policy, Reload(s.recs, s.links, s.packs[pid].first, s.packs[pid].last)) == pid
    ensures Recoverable(s, pid, policy)
  {
    hide Reload, Entries, Unarchived;
    var p := s.packs[pid];
    forall id | p.first <= id <= p.last ensures Unarchived(s.recs, s.links, id) <==> HasRecord(pid, id) {
      if Unarchived(s.recs, s.links, id) {
        assert id in s.recs by { UnarchivedExists(s.recs, s.links, id); }
        var e := Entry(id, s.recs[id].eventId, s.recs[id].digest);
        ReloadedIds(s.recs, s.links, p.first, p.last, e);
        assert e in pid.entries && e.id == id;
      }
      if HasRecord(pid, id) {
        var e :| e in pid.entries && e.id == id;
        ReloadedIds(s.recs, s.links, p.first, p.last, e);
      }
    }
  }

  lemma UnarchivedExists(recs: map<nat, Rec>, links: seq<Link>, id: nat)
    requires Unarchived(recs, links, id)
    ensures id in recs
  {
  }

  /** The driver has not read the window yet. */
  ghost predicate Reading(s: State, pid: PackId) {
    && Driving(s, pid)
    && var pc, p := s.drives[pid].pc, s.packs[pid];
       match pc
       case Adopting => !Terminal(p.state)
       case AdoptPending => p.state == PENDING
       case Reloading(first, last, count) =>
         first == p.first && last == p.last && count == p.count && p.state in {WRITING, RETRYABLE, LOCKED}
       case _ => false
  }

  /** The pack is VERIFIED and all it covers is linked to it and archived. */
  ghost predicate Completed(t: State, pid: PackId) {
    && pid in t.packs && t.packs[pid].state == VERIFIED
    && forall e :: e in pid.entries ==> LinkedBy(t.links, pid, e.id) && e.id in t.recs && t.recs[e.id].archived
  }

  ghost predicate Abandoned(s: State, t: State, pid: PackId) {
    pid in t.packs && t.packs[pid].state == QUARANTINED && t.links == s.links && t.recs == s.recs
  }

  ghost predicate Decides(s: State, t: State, pid: PackId, policy: string)
    requires pid in s.packs
  {
    if Recoverable(s, pid, policy) then Completed(t, pid) else Abandoned(s, t, pid)
  }

  lemma NewlyLinked(links: seq<Link>, pid: PackId, items: seq<Item>, v: nat, id: nat)
    requires OneLinkEach(links) && !IsLinked(links, id) && id in Ids(items)
    ensures LinkedBy(InsertLinks(links, pid, items, v), pid, id)
  {
    var t := InsertLinks(links, pid, items, v);
    InsertLinksAdds(links, pid, items, v);
    assert IsLinked(t, id);
    var k :| 0 <= k < |t| && t[k].record == id;
    assert forall j :: 0 <= j < |links| ==> t[j] == links[j] && t[j].record != id;
    assert NewLink(t[k], pid, items, v);
  }

  lemma VerifiedCompletes(s: State, t: State, pid: PackId, items: seq<Item>)
    requires Inv(s) && Verified(s, t, pid, items) && pid in s.packs && Entries(items) == pid.entries
    requires forall e :: e in pid.entries ==> Unarchived(s.recs, s.links, e.id)
    ensures Completed(t, pid)
  {
    hide Inv;
    assert LinksOk(s.links, s.packs) by { LinksAreOk(s); }
    var v :| t.links == InsertLinks(s.links, pid, items, v);
    forall e | e in pid.entries ensures LinkedBy(t.links, pid, e.id) && e.id in t.recs && t.recs[e.id].archived {
      var i :| 0 <= i < |items| && EntryOf(items[i]) == e;
      assert items[i].id in Ids(items);
      assert Unarchived(s.recs, s.links, e.id);
      NewlyLinked(s.links, pid, items, v, e.id);
    }
  }

  lemma LinksAreOk(s: State)
    requires Inv(s)
    ensures LinksOk(s.links, s.packs)
  {
  }

  /** The reload goes on with the pack's own records, or towards quarantine, as ReloadMatchesExactly says. */
  lemma ReloadActs(s: State, pid: PackId)
    requires Reading(s, pid) && s.drives[pid].pc.Reloading?
    ensures var p, d, m := s.packs[pid], s.drives[pid], OneAction(s, pid);
            var items := Reload(s.recs, s.links, p.first, p.last);
            && Frame(s, m, pid) && Driving(m, pid) && m.packs[pid] == p
            && m.drives[pid].pc == (if |items| == p.count && IdOf(d.policy, items) == pid then Ready(items) else Failing(QUARANTINED))
  {
    hide Reload, Entries;
    ActFrame(s, pid, Honest(s, pid));
    assert s.packs[pid := s.packs[pid]] == s.packs;
  }

  lemma ReadingMoves(s: State, pid: PackId)
    requires Reading(s, pid) && !s.drives[pid].pc.Reloading?
    ensures var m := OneAction(s, pid);
            && Frame(s, m, pid) && Reading(m, pid) && m.drives[pid].policy == s.drives[pid].policy
            && Rank(m.drives[pid].pc, m.packs[pid]) < Rank(s.drives[pid].pc, s.packs[pid])
            && m.packs[pid].count == s.packs[pid].count
            && m.packs[pid].first == s.packs[pid].first && m.packs[pid].last == s.packs[pid].last
  {
    ActFrame(s, pid, Honest(s, pid));
  }

  lemma QuarantineEnds(s: State, pid: PackId, fuel: nat)
    requires Driving(s, pid) && s.drives[pid].pc == Failing(QUARANTINED) && fuel > 0
    requires s.packs[pid].state in {WRITING, RETRYABLE, LOCKED}
    ensures Abandoned(s, DriveOn(s, pid, fuel), pid)
  {
    DriveUnfolds(s, pid, fuel);
    var m := OneAction(s, pid);
    assert DriveOn(m, pid, fuel - 1) == m;
  }

  lemma WindowDecides(s: State, pid: PackId, fuel: nat)
    requires Inv(s) && Reading(s, pid) && s.drives[pid].pc.Reloading? && Described(pid, s.packs[pid]) && fuel >= 11
    ensures Decides(s, DriveOn(s, pid, fuel), pid, s.drives[pid].policy)
  {
    hide Inv, Reload, Entries, Described, OneAction, DriveOn, Unarchived;
    var p, policy := s.packs[pid], s.drives[pid].policy;
    var items := Reload(s.recs, s.links, p.first, p.last);
    assert Real(pid, s.recs) by { PackIsReal(s, pid); }
    ReloadMatchesExactly(s, pid, policy);
    ReloadActs(s, pid);
    DriveUnfolds(s, pid, fuel);
    var m := OneAction(s, pid);
    if Recoverable(s, pid, policy) {
      ActionKeepsInv(s, pid);
      DriveVerifies(m, pid, items, fuel - 1);
      VerifiedAfterFrame(s, m, DriveOn(m, pid, fuel - 1), pid, items);
      OwnRecordsAreUnarchived(s, pid, policy);
      VerifiedCompletes(s, DriveOn(m, pid, fuel - 1), pid, items);
    } else {
      QuarantineEnds(m, pid, fuel - 1);
    }
  }

  lemma OwnRecordsAreUnarchived(s: State, pid: PackId, policy: string)
    requires pid in s.packs && Described(pid, s.packs[pid]) && Recoverable(s, pid, policy)
    ensures forall e :: e in pid.entries ==> Unarchived(s.recs, s.links, e.id)
  {
    hide Unarchived;
    forall e | e in pid.entries ensures Unarchived(s.recs, s.links, e.id) { assert HasRecord(pid, e.id); }
  }

  lemma PackIsReal(s: State, pid: PackId)
    requires Inv(s) && pid in s.packs
    ensures Real(pid, s.recs)
  {
  }

  lemma ActionKeepsInv(s: State, pid: PackId)
    requires Inv(s) && Driving(s, pid)
    ensures Inv(OneAction(s, pid))
  {
    hide Inv;
    AdvanceKeepsInv(s, pid, Honest(s, pid));
  }

  lemma {:induction false} ReadingDecides(s: State, pid: PackId, fuel: nat)
    requires Inv(s) && Reading(s, pid) && Described(pid, s.packs[pid]) && Rank(s.drives[pid].pc, s.packs[pid]) <= fuel
    ensures Decides(s, DriveOn(s, pid, fuel), pid, s.drives[pid].policy)
    decreases fuel
  {
    hide Inv, Described, OneAction, Unarchived;
    if s.drives[pid].pc.Reloading? {
      WindowDecides(s, pid, fuel);
    } else {
      var m := OneAction(s, pid);
      ReadingMoves(s, pid);
      ActionKeepsInv(s, pid);
      DescribedAlike(pid, s.packs[pid], m.packs[pid]);
      DriveUnfolds(s, pid, fuel);
      ReadingDecides(m, pid, fuel - 1);
    }
  }

  lemma DescribedAlike(pid: PackId, a: Pack, b: Pack)
    requires Described(pid, a) && b.count == a.count && b.first == a.first && b.last == a.last
    ensures Described(pid, b)
  {
  }

  /** Recovery in an honest world, nobody else driving: the interrupted pack is completed, all it covers linked
      to it and archived, if and only if the worker's policy is the pack's and the unarchived records between
      its bounds are just its own; otherwise it is quarantined and no record or link is touched. */
  lemma RecoveryCompletesExactly(s: State, pid: PackId, policy: string, days: nat)
    requires Inv(s) && s.drives == map[] && pid in s.packs && !Terminal(s.packs[pid].state) && Described(pid, s.packs[pid])
    ensures var t := Recover(s, pid, policy, days);
            && (Recoverable(s, pid, policy) <==> Completed(t, pid))
            && (!Recoverable(s, pid, policy) <==> Abandoned(s, t, pid))
  {
    hide Inv, Described, DriveOn, Recoverable, LinkedBy;
    var m := Apply(s, LockSwept(pid, policy, days));
    StepKeepsInv(s, LockSwept(pid, policy, days));
    ReadingDecides(m, pid, FUEL);
    assert Recoverable(m, pid, policy) <==> Recoverable(s, pid, policy) by { SameWindow(s, m, pid, policy); }
  }

  lemma SameWindow(s: State, m: State, pid: PackId, policy: string)
    requires pid in s.packs && m.packs == s.packs && m.recs == s.recs && m.links == s.links
    ensures Recoverable(m, pid, policy) <==> Recoverable(s, pid, policy)
  {
  }
}

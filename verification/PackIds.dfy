/** The archive model's content ids and the bytes that are really hashed agree. */
module PackIds {
  import opened PackDigest
  import opened Base
  import A = Archive
  import S = ArchiveSafety

  function EntriesOf(items: seq<A.Item>): seq<A.Entry> {
    seq(|items|, i requires 0 <= i < |items| => A.EntryOf(items[i]))
  }

  predicate NoRepeat(es: seq<A.Entry>) { forall i, j :: 0 <= i < j < |es| ==> es[i] != es[j] }

  lemma {:induction false} NoRepeatCounts(es: seq<A.Entry>, e: A.Entry)
    requires NoRepeat(es)
    ensures multiset(es)[e] == if e in es then 1 else 0
    decreases |es|
  {
    if es != [] {
      var n := |es| - 1;
      NoRepeatCounts(es[..n], e);
      assert es == es[..n] + [es[n]];
    }
  }

  lemma SameEntries(a: seq<A.Item>, b: seq<A.Item>)
    requires S.DistinctIds(a) && S.DistinctIds(b)
    ensures A.Entries(a) == A.Entries(b) <==> multiset(EntriesOf(a)) == multiset(EntriesOf(b))
  {
    hide S.DistinctIds;
    InEntries(a);
    InEntries(b);
    if A.Entries(a) == A.Entries(b) {
      hide A.Entries, EntriesOf;
      forall e ensures multiset(EntriesOf(a))[e] == multiset(EntriesOf(b))[e] {
        NoRepeatCounts(EntriesOf(a), e);
        NoRepeatCounts(EntriesOf(b), e);
      }
    }
    if multiset(EntriesOf(a)) == multiset(EntriesOf(b)) {
      hide A.Entries, EntriesOf;
      forall e ensures e in A.Entries(a) <==> e in A.Entries(b) {
        assert e in A.Entries(a) <==> e in multiset(EntriesOf(a));
      }
    }
  }

  lemma InEntries(items: seq<A.Item>)
    requires S.DistinctIds(items)
    ensures NoRepeat(EntriesOf(items))
    ensures forall e :: e in A.Entries(items) <==> e in EntriesOf(items)
  {
    var es := EntriesOf(items);
    forall e | e in A.Entries(items) ensures e in es {
      var k :| 0 <= k < |items| && A.EntryOf(items[k]) == e;
      assert es[k] == e;
    }
  }

  /** The archive's content ids are faithful: over windows of distinct records of one table they agree
      exactly when the hashed bytes do. */
  lemma ContentIdsStandForDigests(p: string, a: seq<A.Item>, q: string, b: seq<A.Item>)
    requires PoliciesApart(p, q) && S.DistinctIds(a) && S.DistinctIds(b) && OneTable(EntriesOf(a) + EntriesOf(b))
    ensures A.IdOf(p, a) == A.IdOf(q, b) <==> DigestText(p, EntriesOf(a)) == DigestText(q, EntriesOf(b))
  {
    hide DigestText, PoliciesApart, OneTable, S.DistinctIds;
    OneTableSameTextExactlyWhenSameWindow(p, EntriesOf(a), q, EntriesOf(b));
    SameEntries(a, b);
  }

  /** The later records still have the event ids and digests of the earlier ones. */
  predicate RecordsKeep(a: map<nat, A.Rec>, b: map<nat, A.Rec>) {
    forall id :: id in a ==> id in b && a[id].eventId == b[id].eventId && a[id].digest == b[id].digest
  }

  lemma ActKeepsRecords(s: A.State, pid: A.PackId, reply: A.Reply)
    requires pid in s.packs && pid in s.drives
    ensures RecordsKeep(s.recs, A.Act(s, pid, reply).recs)
  {
    hide A.Next, A.LinkedBy, A.InsertLinks;
  }

  lemma StepKeepsRecords(s: A.State, step: A.Step)
    ensures RecordsKeep(s.recs, A.Apply(s, step).recs)
  {
    hide A.Act, A.Window, A.IdOf;
    if step.Advance? && step.pid in s.packs && step.pid in s.drives { ActKeepsRecords(s, step.pid, step.reply); }
  }

  lemma {:induction false} RunKeepsRecords(s: A.State, steps: seq<A.Step>)
    ensures RecordsKeep(s.recs, A.Run(s, steps).recs)
    decreases |steps|
  {
    hide A.Apply;
    if steps != [] {
      StepKeepsRecords(s, steps[0]);
      RunKeepsRecords(A.Apply(s, steps[0]), steps[1..]);
    }
  }

  /** items are different records as the table holds them: what ClaimWindow selects and Recover reloads. */
  ghost predicate ReadFrom(recs: map<nat, A.Rec>, items: seq<A.Item>) {
    S.DistinctIds(items)
    && forall k :: 0 <= k < |items| ==> items[k].id in recs && items[k] == A.ItemOf(items[k].id, recs[items[k].id])
  }

  lemma ItemsAreRead(recs: map<nat, A.Rec>, ids: seq<nat>)
    requires forall k :: 0 <= k < |ids| ==> ids[k] in recs
    requires forall i, j :: 0 <= i < j < |ids| ==> ids[i] < ids[j]
    ensures ReadFrom(recs, A.ItemsOf(recs, ids))
  {
    S.ItemsAreDistinct(recs, ids);
  }

  lemma WindowsAreRead(recs: map<nat, A.Rec>, links: seq<A.Link>, batch: nat, first: nat, last: nat)
    ensures ReadFrom(recs, A.Window(recs, links, batch)) && ReadFrom(recs, A.Reload(recs, links, first, last))
  {
    hide A.IsLinked, ReadFrom, A.ItemsOf;
    var s := A.Eligible(recs, links);
    var t := set id | id in s && first <= id <= last;
    A.AscendingIn(s, batch);
    A.AscendingIn(t, |t|);
    ItemsAreRead(recs, Limit(Ascending(s), batch));
    ItemsAreRead(recs, Limit(Ascending(t), |t|));
  }

  /** Windows read at any two moments of any run have equal content ids exactly when their hashed bytes
      are equal. */
  lemma PackIdsStandForDigests(s: A.State, steps: seq<A.Step>, p: string, a: seq<A.Item>, q: string, b: seq<A.Item>)
    requires PoliciesApart(p, q) && ReadFrom(s.recs, a) && ReadFrom(A.Run(s, steps).recs, b)
    ensures A.IdOf(p, a) == A.IdOf(q, b) <==> DigestText(p, EntriesOf(a)) == DigestText(q, EntriesOf(b))
  {
    hide DigestText, PoliciesApart;
    RunKeepsRecords(s, steps);
    var es := EntriesOf(a) + EntriesOf(b);
    var recs := A.Run(s, steps).recs;
    forall i | 0 <= i < |es| ensures es[i].id in recs && es[i] == A.Entry(es[i].id, recs[es[i].id].eventId, recs[es[i].id].digest) {
      if i < |a| { assert es[i] == A.EntryOf(a[i]); } else { assert es[i] == A.EntryOf(b[i - |a|]); }
    }
    ContentIdsStandForDigests(p, a, q, b);
  }
}

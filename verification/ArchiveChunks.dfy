/** What an operator can check before the ticks start: which windows they will claim. */
module ArchiveChunks {
  import opened Base
  import opened Archive
  import opened ArchiveSafety
  import opened P = ArchiveProgress

  predicate AllIn(recs: map<nat, Rec>, ids: seq<nat>) { forall k :: 0 <= k < |ids| ==> ids[k] in recs }

  /** A quarantined pack has the content id of the first chunk of these records. */
  predicate FirstChunkTaken(s: State, ids: seq<nat>, size: nat, policy: string)
    requires AllIn(s.recs, ids)
  {
    var pid := IdOf(policy, ItemsOf(s.recs, Limit(ids, size)));
    pid in s.packs && s.packs[pid].state == QUARANTINED
  }

  /** Cut these records into chunks: no quarantined pack has the content id of any of the first n. */
  predicate ChunksFree(s: State, ids: seq<nat>, n: nat, size: nat, policy: string)
    requires AllIn(s.recs, ids)
    decreases n
  {
    n == 0 || ids == [] || (!FirstChunkTaken(s, ids, size, policy)
                            && ChunksFree(s, ids[|Limit(ids, size)|..], n - 1, size, policy))
  }

  /** The state the first tick's sweep leaves. */
  function Swept(s: State, pendings: seq<seq<PackId>>, policy: string, days: nat): State {
    if pendings == [] then s else Sweep(s, pendings[0], policy, days)
  }

  function Queue(s: State): (ids: seq<nat>)
    ensures AllIn(s.recs, ids)
  {
    var ids := Ascending(Left(s));
    assert forall k :: 0 <= k < |ids| ==> ids[k] in ids;
    ids
  }

  function Elements(ids: seq<nat>): set<nat> { set x | x in ids }

  lemma NoElements()
    ensures Elements([]) == {}
  {
  }

  lemma WithoutHead(s: set<nat>, m: nat, ids: seq<nat>)
    ensures s - Elements([m] + ids) == s - {m} - Elements(ids)
  {
  }

  lemma PastHead(m: nat, ids: seq<nat>, k: nat)
    requires 0 < k <= |ids| + 1
    ensures ([m] + ids)[..k] == [m] + ids[..k - 1] && ([m] + ids)[k..] == ids[k - 1..]
  {
  }

  lemma {:induction false} AscendingTail(s: set<nat>, k: nat)
    requires k <= |s|
    ensures Ascending(s - Elements(Ascending(s)[..k])) == Ascending(s)[k..]
    decreases k
  {
    hide Ascending, Elements;
    if k == 0 {
      NoElements();
      assert Ascending(s)[..0] == [] && s - {} == s;
    } else {
      var m := Least(s);
      var rest := Ascending(s - {m});
      AscendingUnfolds(s);
      PastHead(m, rest, k);
      WithoutHead(s, m, rest[..k - 1]);
      AscendingTail(s - {m}, k - 1);
    }
  }

  lemma IdsOfItems(recs: map<nat, Rec>, ids: seq<nat>)
    requires AllIn(recs, ids)
    ensures Ids(ItemsOf(recs, ids)) == Elements(ids)
  {
    var items := ItemsOf(recs, ids);
    forall x | x in Elements(ids) ensures x in Ids(items) {
      var k :| 0 <= k < |ids| && ids[k] == x;
      assert items[k].id == x;
    }
  }

  lemma WindowIsFirstChunk(s: State, size: nat)
    ensures Window(s.recs, s.links, size) == ItemsOf(s.recs, Limit(Queue(s), size))
    ensures Ids(Window(s.recs, s.links, size)) == Elements(Limit(Queue(s), size))
  {
    hide Ids, Elements, IsLinked, ItemsOf;
    IdsOfItems(s.recs, Limit(Queue(s), size));
  }

  lemma QueueAdvances(s: State, t: State, size: nat)
    requires Left(t) == Left(s) - Ids(Window(s.recs, s.links, size))
    ensures Queue(t) == Queue(s)[|Limit(Queue(s), size)|..]
  {
    hide Window, Left;
    WindowIsFirstChunk(s, size);
    AscendingTail(Left(s), |Limit(Queue(s), size)|);
  }

  /** Records keep what a content id covers, and the packs that come are not quarantined. */
  ghost predicate SameForChunks(s: State, t: State) {
    && SameRecords(s.recs, t.recs)
    && (forall q :: q in t.packs ==> (q in s.packs && t.packs[q] == s.packs[q]) || t.packs[q].state == VERIFIED)
    && (forall q :: q in s.packs ==> q in t.packs && t.packs[q] == s.packs[q])
  }

  lemma SameItems(a: map<nat, Rec>, b: map<nat, Rec>, ids: seq<nat>)
    requires AllIn(a, ids) && SameRecords(a, b)
    ensures AllIn(b, ids) && ItemsOf(a, ids) == ItemsOf(b, ids)
  {
    forall k | 0 <= k < |ids| ensures ItemOf(ids[k], a[ids[k]]) == ItemOf(ids[k], b[ids[k]]) {
      assert b[ids[k]].(archived := a[ids[k]].archived) == a[ids[k]];
    }
  }

  lemma {:induction false} SameChunks(s: State, t: State, ids: seq<nat>, n: nat, size: nat, policy: string)
    requires SameForChunks(s, t) && AllIn(s.recs, ids)
    ensures AllIn(t.recs, ids) && ChunksFree(s, ids, n, size, policy) == ChunksFree(t, ids, n, size, policy)
    decreases n
  {
    hide SameRecords, ItemsOf, IdOf;
    SameItems(s.recs, t.recs, ids);
    if n > 0 && ids != [] {
      SameItems(s.recs, t.recs, Limit(ids, size));
      SameChunks(s, t, ids[|Limit(ids, size)|..], n - 1, size, policy);
    }
  }

  lemma FreeIsFirstChunk(s: State, batch: nat, policy: string)
    ensures Free(s, batch, policy) <==> Queue(s) == [] || !FirstChunkTaken(s, Queue(s), Size(batch), policy)
  {
    hide Window, ItemsOf, IdOf, Left;
    WindowIsFirstChunk(s, Size(batch));
    assert |Queue(s)| == |Left(s)|;
  }

  lemma ClaimMovesOn(m: State, batch: nat, policy: string, days: nat)
    requires Inv(m) && QuietBut(m, []) && Free(m, batch, policy) && Queue(m) != []
    ensures var t := ClaimAndArchive(m, batch, policy, days);
            SameForChunks(m, t) && Left(t) == Left(m) - Ids(Window(m.recs, m.links, Size(batch)))
  {
    hide Inv, QuietBut, Window, IdOf, Ids, Eligible, ClaimAndArchive, SameRecords, Twin;
    assert |Queue(m)| == |Left(m)|;
    ClaimArchivesUnlessTwin(m, batch, policy, days);
  }

  lemma TickMovesOn(m: State, batch: nat, policy: string, days: nat, n: nat)
    requires Inv(m) && QuietBut(m, []) && Free(m, batch, policy) && Queue(m) != []
    ensures var t, ids := ClaimAndArchive(m, batch, policy, days), Queue(m);
            ChunksFree(t, Queue(t), n, Size(batch), policy)
            == ChunksFree(m, ids[|Limit(ids, Size(batch))|..], n, Size(batch), policy)
  {
    hide Inv, QuietBut, Window, Left, Size, Free, ChunksFree, ClaimAndArchive, SameForChunks, Ids, Queue;
    var t := ClaimAndArchive(m, batch, policy, days);
    ClaimMovesOn(m, batch, policy, days);
    QueueAdvances(m, t, Size(batch));
    SameChunks(m, t, Queue(t), n, Size(batch), policy);
  }

  /** No tick meets a quarantined twin exactly when, once the first tick has swept, no quarantined pack
      has the content id of any of the chunks the ticks will claim. */
  lemma {:induction false} UnobstructedExactlyWhen(s: State, pendings: seq<seq<PackId>>, batch: nat, policy: string,
                                                   days: nat)
    requires Startable(s, pendings)
    ensures var m := Swept(s, pendings, policy, days);
            Unobstructed(s, pendings, batch, policy, days)
            <==> ChunksFree(m, Queue(m), |pendings|, Size(batch), policy)
    decreases |pendings|
  {
    hide Inv, QuietBut, Sweep, Queue, Size, FirstChunkTaken, Free, ClaimAndArchive;
    if pendings != [] {
      var m := Swept(s, pendings, policy, days);
      SweepQuiets(s, pendings[0], policy, days);
      FreeIsFirstChunk(m, batch, policy);
      if Free(m, batch, policy) {
        var t := P.Tick(s, pendings[0], batch, policy, days);
        NextStartable(s, pendings, batch, policy, days);
        UnobstructedExactlyWhen(t, pendings[1..], batch, policy, days);
        if pendings[1..] != [] { SweepOfQuiet(t, pendings[1..][0], policy, days); }
        assert Swept(t, pendings[1..], policy, days) == t;
        if Queue(m) == [] {
          NothingToClaim(m, batch, policy, days);
        } else {
          TickMovesOn(m, batch, policy, days, |pendings| - 1);
        }
      }
    }
  }

  lemma NothingToClaim(m: State, batch: nat, policy: string, days: nat)
    requires Queue(m) == []
    ensures ClaimAndArchive(m, batch, policy, days) == m
  {
    hide IdOf, Left;
    WindowIsFirstChunk(m, Size(batch));
  }

  /** Given enough ticks, everything is archived exactly when, in the state the first sweep leaves, no
      quarantined pack has the content id of any of the first batch-sized chunks of the waiting records. */
  lemma EverythingIsArchivedExactlyWhen(s: State, pendings: seq<seq<PackId>>, batch: nat, policy: string, days: nat)
    requires Startable(s, pendings) && |Waiting(s, pendings, policy, days)| <= Capacity(|pendings|, batch)
    ensures var m := Swept(s, pendings, policy, days);
            Left(Ticks(s, pendings, batch, policy, days)) == {}
            <==> ChunksFree(m, Queue(m), |pendings|, Size(batch), policy)
  {
    hide *;
    EverythingIsArchived(s, pendings, batch, policy, days);
    UnobstructedExactlyWhen(s, pendings, batch, policy, days);
  }
}

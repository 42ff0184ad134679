/** How a drive ends, whatever the object store answers; and what the single statements around it write. */
module ArchiveOutcomes {
  import opened Base
  import opened Archive
  import opened ArchiveSafety
  import opened P = ArchiveProgress

  // ---- the manifest ----

  /** The manifest of a window: its id, policy and bounds, and one line per record in order, with the tenant behind
      its alias. */
  ghost predicate IsManifest(m: Manifest, pid: PackId, policy: string, items: seq<Item>, days: nat, now: nat) {
    && m.packId == pid && m.policy == policy && m.days == days && m.generatedAt == now && |m.lines| == |items|
    && (forall k :: 0 <= k < |items| ==>
          && m.lines[k].entry == Entry(items[k].id, items[k].eventId, items[k].digest)
          && m.lines[k].occurredAt == items[k].occurredAt
          && m.lines[k].alias == if items[k].tenant == "" then "unattributed" else "t-" + items[k].tenant)
    && (items != [] ==> m.first == items[0].id && m.last == items[|items| - 1].id)
    && (items == [] ==> m.first == 0 && m.last == 0)
  }

  lemma ManifestExactly(pid: PackId, policy: string, items: seq<Item>, days: nat, now: nat)
    ensures IsManifest(BuildManifest(pid, policy, items, days, now), pid, policy, items, days, now)
  {
  }

  // ---- MarkVerified ----

  /** Links, transition and flips: a LOCKED pack at this version with as many records as are given becomes VERIFIED,
      each record without a link gets one to it, with its digest, and exactly the records linked to it turn
      ARCHIVED; anything else changes nothing. */
  lemma VerifiesExactly(s: State, pid: PackId, items: seq<Item>, version: nat)
    requires pid in s.packs && OneLinkEach(s.links)
    ensures var p, t := s.packs[pid], MarkVerified(s, pid, items, version);
            if p.state == LOCKED && p.version == Some(version) && p.count == |items| then
              && t == s.(links := t.links, recs := t.recs, packs := s.packs[pid := p.(state := VERIFIED)])
              && s.links <= t.links && OneLinkEach(t.links)
              && (forall i :: 0 <= i < |items| ==> IsLinked(t.links, items[i].id))
              && (forall k :: |s.links| <= k < |t.links| ==> NewLink(t.links[k], pid, items, version))
              && t.recs.Keys == s.recs.Keys
              && (forall id :: id in s.recs ==>
                    t.recs[id] == if LinkedBy(t.links, pid, id) then s.recs[id].(archived := true) else s.recs[id])
            else t == s
  {
    InsertLinksAdds(s.links, pid, items, version);
  }

  // ---- a drive against any store ----

  /** What the store answers to the upload, to the read-back, and to an extension. */
  datatype World = World(upload: Reply, head: Reply, extend: Reply)

  function AnswerOf(w: World, pc: Pc): Reply {
    match pc
    case Uploading(_, _) => w.upload
    case Written(_, _, _, _) => w.head
    case Extending(_, _, _) => w.extend
    case _ => Done
  }

  function Go(s: State, pid: PackId, w: World): State
    requires Driving(s, pid)
  {
    Act(s, pid, AnswerOf(w, s.drives[pid].pc))
  }

  function DriveIn(s: State, pid: PackId, w: World, fuel: nat): State
    decreases fuel
  {
    if fuel == 0 || !Driving(s, pid) then s else DriveIn(Go(s, pid, w), pid, w, fuel - 1)
  }

  /** Pack, driver and store of a state, the rest as in s. */
  function With(s: State, pid: PackId, p: Pack, pc: Pc, objects: map<nat, Object>): State
    requires pid in s.drives
  {
    s.(packs := s.packs[pid := p], drives := s.drives[pid := s.drives[pid].(pc := pc)], objects := objects)
  }

  function Over(s: State, pid: PackId, p: Pack, objects: map<nat, Object>): State {
    s.(packs := s.packs[pid := p], drives := s.drives - {pid}, objects := objects)
  }

  /** One action of the driver of pid, from any pack, place and store; the rest is as in s. */
  lemma StepWith(s: State, pid: PackId, w: World, p: Pack, pc: Pc, o: map<nat, Object>, fuel: nat)
    requires Driving(s, pid) && !pc.Covered? && fuel >= 1
    ensures var e := Next(pid, s.drives[pid].(pc := pc), p, o, s.now, (a: nat, b: nat) => Reload(s.recs, s.links, a, b), AnswerOf(w, pc));
            DriveIn(With(s, pid, p, pc, o), pid, w, fuel)
            == if e.pc.Some? then DriveIn(With(s, pid, e.pack, e.pc.value, e.objects), pid, w, fuel - 1)
               else Over(s, pid, e.pack, e.objects)
  {
    hide Next, Reload, AnswerOf;
    var b := With(s, pid, p, pc, o);
    var e := Next(pid, s.drives[pid].(pc := pc), p, o, s.now, (a: nat, b: nat) => Reload(s.recs, s.links, a, b), AnswerOf(w, pc));
    var t := Go(b, pid, w);
    assert b.packs[pid := e.pack] == s.packs[pid := e.pack];
    if e.pc.Some? {
      assert t == With(s, pid, e.pack, e.pc.value, e.objects);
    } else {
      assert b.drives - {pid} == s.drives - {pid};
      assert t == Over(s, pid, e.pack, e.objects);
      assert DriveIn(t, pid, w, fuel - 1) == t;
    }
  }

  lemma StartIsWith(s: State, pid: PackId)
    requires Driving(s, pid)
    ensures With(s, pid, s.packs[pid], s.drives[pid].pc, s.objects) == s
  {
    assert s.packs[pid := s.packs[pid]] == s.packs && s.drives[pid := s.drives[pid]] == s.drives;
  }

  /** The row is read and MarkWriting done. */
  lemma StartsUploading(s: State, pid: PackId, w: World, p: Pack, items: seq<Item>, o: map<nat, Object>, fuel: nat)
    requires Driving(s, pid) && p.state in {PENDING, RETRYABLE} && fuel >= 2
    ensures DriveIn(With(s, pid, p, Ready(items), o), pid, w, fuel)
         == DriveIn(With(s, pid, p.(state := WRITING, attempts := p.attempts + 1),
                         Uploading(items, s.now + s.drives[pid].days * DAY), o), pid, w, fuel - 2)
  {
    hide DriveIn, With, Over;
    StepWith(s, pid, w, p, Ready(items), o, fuel);
    StepWith(s, pid, w, p, Starting(items, s.now + s.drives[pid].days * DAY), o, fuel - 1);
  }

  lemma FailsAs(s: State, pid: PackId, w: World, p: Pack, to: PackState, o: map<nat, Object>, fuel: nat)
    requires Driving(s, pid) && p.state in {PENDING, WRITING, RETRYABLE, LOCKED} && fuel >= 1
    ensures DriveIn(With(s, pid, p, Failing(to), o), pid, w, fuel) == Over(s, pid, p.(state := to), o)
  {
    hide DriveIn, With, Over;
    StepWith(s, pid, w, p, Failing(to), o, fuel);
  }

  predicate Arrives(w: World, o: map<nat, Object>) { w.upload.Stored? && w.upload.version !in o }

  /** What the driver of pid sends. */
  function Sent(s: State, pid: PackId, items: seq<Item>): Manifest
    requires pid in s.drives
  {
    BuildManifest(pid, s.drives[pid].policy, items, s.drives[pid].days, s.now)
  }

  /** The upload fails: the pack is RETRYABLE, with or without an object nobody refers to. */
  lemma UploadFails(s: State, pid: PackId, w: World, p: Pack, items: seq<Item>, retain: nat, o: map<nat, Object>, fuel: nat)
    requires Driving(s, pid) && p.state == WRITING && !Arrives(w, o) && fuel >= 2
    ensures exists x :: DriveIn(With(s, pid, p, Uploading(items, retain), o), pid, w, fuel) == Over(s, pid, p.(state := RETRYABLE), x)
  {
    hide DriveIn, With, Over, BuildManifest;
    StepWith(s, pid, w, p, Uploading(items, retain), o, fuel);
    var x := if w.upload.Lost? && w.upload.version !in o then o[w.upload.version := Object(pid, w.upload.blob, w.upload.lock)] else o;
    FailsAs(s, pid, w, p, RETRYABLE, x, fuel - 1);
  }

  /** The upload arrives, and MarkWritten records it with the hash of what was sent. */
  lemma UploadArrives(s: State, pid: PackId, w: World, p: Pack, items: seq<Item>, retain: nat, o: map<nat, Object>, fuel: nat)
    requires Driving(s, pid) && p.state == WRITING && Arrives(w, o) && fuel >= 2
    ensures var v, h := w.upload.version, Sha256(Json(Sent(s, pid, items)));
            DriveIn(With(s, pid, p, Uploading(items, retain), o), pid, w, fuel)
            == DriveIn(With(s, pid, p.(version := Some(v), digest := Some(h)), Written(items, retain, v, h),
                            o[v := Object(pid, w.upload.blob, w.upload.lock)]), pid, w, fuel - 2)
  {
    hide DriveIn, With, Over, BuildManifest;
    StepWith(s, pid, w, p, Uploading(items, retain), o, fuel);
    StepWith(s, pid, w, p, Uploaded(items, retain, w.upload.version, Sha256(Json(Sent(s, pid, items)))),
             o[w.upload.version := Object(pid, w.upload.blob, w.upload.lock)], fuel - 1);
  }

  /** The read-back fails, or disagrees with what was sent. */
  lemma ReadBackFails(s: State, pid: PackId, w: World, p: Pack, items: seq<Item>, retain: nat, v: nat, h: Hash,
                      o: map<nat, Object>, fuel: nat)
    requires Driving(s, pid) && p.state == WRITING && fuel >= 2
    requires v in o && (w.head == Down || Sha256(o[v].blob) != h)
    ensures DriveIn(With(s, pid, p, Written(items, retain, v, h), o), pid, w, fuel)
         == Over(s, pid, p.(state := if w.head == Down then RETRYABLE else QUARANTINED), o)
  {
    hide DriveIn, With, Over;
    StepWith(s, pid, w, p, Written(items, retain, v, h), o, fuel);
    FailsAs(s, pid, w, p, if w.head == Down then RETRYABLE else QUARANTINED, o, fuel - 1);
  }

  /** It agrees, and MarkLocked commits to the retention. */
  lemma ReadBackAgrees(s: State, pid: PackId, w: World, p: Pack, items: seq<Item>, retain: nat, v: nat, h: Hash,
                       o: map<nat, Object>, fuel: nat)
    requires Driving(s, pid) && p.state == WRITING && p.version == Some(v) && fuel >= 2
    requires v in o && w.head != Down && Sha256(o[v].blob) == h
    ensures DriveIn(With(s, pid, p, Written(items, retain, v, h), o), pid, w, fuel)
         == DriveIn(With(s, pid, p.(state := LOCKED, retention := Some(retain), committed := Some(retain)),
                         Holding(items, v, retain), o), pid, w, fuel - 2)
  {
    hide DriveIn, With, Over;
    StepWith(s, pid, w, p, Written(items, retain, v, h), o, fuel);
    StepWith(s, pid, w, p, Agreed(items, retain, v), o, fuel - 1);
  }

  /** The lock reaches the deadline, give or take a minute. */
  predicate Reaches(lock: Option<nat>, until: nat) { lock.Some? && lock.value + 60000 >= until }

  /** The store extends the lock far enough. */
  predicate Extends(w: World, until: nat) { w.extend.Granted? && w.extend.until + 60000 >= until }

  /** The lock is there or is extended, and MarkVerified is next. */
  lemma LockHolds(s: State, pid: PackId, w: World, p: Pack, items: seq<Item>, v: nat, until: nat, o: map<nat, Object>, fuel: nat)
    requires Driving(s, pid) && v in o && fuel >= 4 && (Reaches(o[v].lock, until) || Extends(w, until))
    ensures exists x, n: nat :: n >= 1 && DriveIn(With(s, pid, p, Holding(items, v, until), o), pid, w, fuel)
                                       == DriveIn(With(s, pid, p, Covered(items, v, until), x), pid, w, n)
  {
    hide DriveIn, With, Over;
    StepWith(s, pid, w, p, Holding(items, v, until), o, fuel);
    if !Reaches(o[v].lock, until) {
      var x := o[v := o[v].(lock := Some(w.extend.until))];
      StepWith(s, pid, w, p, Extending(items, v, until), o, fuel - 1);
      StepWith(s, pid, w, p, Rechecking(items, v, until), x, fuel - 2);
    }
  }

  /** It is not: the drive stops and the pack stays LOCKED. */
  lemma LockFails(s: State, pid: PackId, w: World, p: Pack, items: seq<Item>, v: nat, until: nat, o: map<nat, Object>, fuel: nat)
    requires Driving(s, pid) && v in o && fuel >= 3 && !Reaches(o[v].lock, until) && !Extends(w, until)
    ensures exists x :: DriveIn(With(s, pid, p, Holding(items, v, until), o), pid, w, fuel) == Over(s, pid, p, x)
  {
    hide DriveIn, With, Over;
    StepWith(s, pid, w, p, Holding(items, v, until), o, fuel);
    StepWith(s, pid, w, p, Extending(items, v, until), o, fuel - 1);
    if w.extend != Down {
      var x := if w.extend.Granted? then o[v := o[v].(lock := Raise(o[v].lock, w.extend.until))] else o;
      StepWith(s, pid, w, p, Rechecking(items, v, until), x, fuel - 2);
    }
  }

  /** MarkVerified, the last action. */
  lemma CoveredEnds(s: State, pid: PackId, w: World, p: Pack, items: seq<Item>, v: nat, until: nat, o: map<nat, Object>, fuel: nat)
    requires Driving(s, pid) && fuel >= 1
    ensures var b := With(s, pid, p, Covered(items, v, until), o);
            DriveIn(b, pid, w, fuel) == MarkVerified(b, pid, items, v).(drives := s.drives - {pid})
  {
    hide InsertLinks, FlipArchived;
    var b := With(s, pid, p, Covered(items, v, until), o);
    var t := Go(b, pid, w);
    assert b.drives - {pid} == s.drives - {pid};
    assert DriveIn(t, pid, w, fuel - 1) == t;
  }

  /** What becomes of a pack that a driver takes up, as the store answers. */
  function Fate(s: State, w: World, m: Manifest, until: nat): PackState {
    if !Arrives(w, s.objects) || w.head == Down then RETRYABLE
    else if w.upload.blob != Json(m) then QUARANTINED
    else if Reaches(w.upload.lock, until) || Extends(w, until) then VERIFIED
    else LOCKED
  }

  /** The pack as it is locked. */
  function Locked(p: Pack, w: World, m: Manifest, until: nat): Pack
    requires w.upload.Stored?
  {
    p.(state := LOCKED, attempts := p.attempts + 1, version := Some(w.upload.version), digest := Some(Sha256(Json(m))),
       retention := Some(until), committed := Some(until))
  }

  /** The drive is over and the pack has met its fate; other packs are untouched, and only a verified pack links or
      archives anything. */
  ghost predicate Ended(s: State, t: State, pid: PackId, w: World, items: seq<Item>, m: Manifest, until: nat)
    requires pid in s.packs
  {
    var fate := Fate(s, w, m, until);
    && pid in t.packs && pid !in t.drives && t.packs[pid].state == fate
    && (forall q :: q in s.packs && q != pid ==> q in t.packs && t.packs[q] == s.packs[q])
    && (fate in {LOCKED, VERIFIED} ==> t.packs[pid] == Locked(s.packs[pid], w, m, until).(state := fate))
    && (fate != VERIFIED ==> t.links == s.links && t.recs == s.recs)
    && (fate == VERIFIED ==> s.links <= t.links && forall i :: 0 <= i < |items| ==> IsLinked(t.links, items[i].id))
  }

  lemma OverEnds(s: State, pid: PackId, w: World, items: seq<Item>, m: Manifest, until: nat, p: Pack, o: map<nat, Object>)
    requires pid in s.packs && p.state == Fate(s, w, m, until) != VERIFIED
    requires p.state == LOCKED ==> p == Locked(s.packs[pid], w, m, until)
    ensures Ended(s, Over(s, pid, p, o), pid, w, items, m, until)
  {
  }

  lemma VerifiedEnds(s: State, pid: PackId, w: World, items: seq<Item>, m: Manifest, until: nat, o: map<nat, Object>)
    requires Driving(s, pid) && OneLinkEach(s.links) && s.packs[pid].count == |items| && w.upload.Stored?
    requires Fate(s, w, m, until) == VERIFIED
    ensures var b := With(s, pid, Locked(s.packs[pid], w, m, until), Covered(items, w.upload.version, until), o);
            Ended(s, MarkVerified(b, pid, items, w.upload.version).(drives := s.drives - {pid}), pid, w, items, m, until)
  {
    hide MarkVerified, IsLinked, LinkedBy;
    var b := With(s, pid, Locked(s.packs[pid], w, m, until), Covered(items, w.upload.version, until), o);
    VerifiesExactly(b, pid, items, w.upload.version);
  }

  /** A claimed or retryable pack, driven by one worker to the end of its drive: RETRYABLE when the upload or the
      read-back fails, QUARANTINED when the stored bytes are not the manifest that was sent, VERIFIED with all its
      records linked when the lock reaches the retention or is extended to it, and LOCKED otherwise. */
  lemma DriveEndsExactly(s: State, pid: PackId, w: World, items: seq<Item>)
    requires Inv(s) && Driving(s, pid) && s.drives[pid].pc == Ready(items) && s.packs[pid].state in {PENDING, RETRYABLE}
    requires s.packs[pid].count == |items|
    ensures Ended(s, DriveIn(s, pid, w, 10), pid, w, items, Sent(s, pid, items), s.now + s.drives[pid].days * 86400000)
  {
    hide Inv, DriveIn, MarkVerified, BuildManifest, With, Over, Ended, Fate, Locked;
    assert OneLinkEach(s.links) by { LinksAreSingle(s); }
    var p, until, m := s.packs[pid], s.now + s.drives[pid].days * DAY, Sent(s, pid, items);
    var writing := p.(state := WRITING, attempts := p.attempts + 1);
    StartIsWith(s, pid);
    StartsUploading(s, pid, w, p, items, s.objects, 10);
    if Arrives(w, s.objects) {
      UploadArrives(s, pid, w, writing, items, until, s.objects, 8);
      ArrivedEnds(s, pid, w, items, until, 6);
    } else {
      UploadFails(s, pid, w, writing, items, until, s.objects, 8);
      var x :| DriveIn(With(s, pid, writing, Uploading(items, until), s.objects), pid, w, 8) == Over(s, pid, writing.(state := RETRYABLE), x);
      assert Fate(s, w, m, until) == RETRYABLE by { NoArrivalRetries(s, w, m, until); }
      OverEnds(s, pid, w, items, m, until, writing.(state := RETRYABLE), x);
    }
  }

  lemma NoArrivalRetries(s: State, w: World, m: Manifest, until: nat)
    requires !Arrives(w, s.objects)
    ensures Fate(s, w, m, until) == RETRYABLE
  {
  }

  lemma LinksAreSingle(s: State)
    requires Inv(s)
    ensures OneLinkEach(s.links)
  {
  }

  /** From the recorded upload on. */
  lemma ArrivedEnds(s: State, pid: PackId, w: World, items: seq<Item>, until: nat, fuel: nat)
    requires OneLinkEach(s.links) && Driving(s, pid) && s.packs[pid].count == |items| && Arrives(w, s.objects) && fuel >= 6
    ensures var p, v, h := s.packs[pid], w.upload.version, Sha256(Json(Sent(s, pid, items)));
            var written := p.(state := WRITING, attempts := p.attempts + 1, version := Some(v), digest := Some(h));
            var o := s.objects[v := Object(pid, w.upload.blob, w.upload.lock)];
            Ended(s, DriveIn(With(s, pid, written, Written(items, until, v, h), o), pid, w, fuel), pid, w, items, Sent(s, pid, items), until)
  {
    hide DriveIn, MarkVerified, BuildManifest, With, Over, Ended;
    var p, v, m := s.packs[pid], w.upload.version, Sent(s, pid, items);
    var h := Sha256(Json(m));
    var o := s.objects[v := Object(pid, w.upload.blob, w.upload.lock)];
    var written := p.(state := WRITING, attempts := p.attempts + 1, version := Some(v), digest := Some(h));
    var locked := Locked(p, w, m, until);
    if w.head == Down || w.upload.blob != Json(m) {
      ReadBackFails(s, pid, w, written, items, until, v, h, o, fuel);
      var failed := written.(state := if w.head == Down then RETRYABLE else QUARANTINED);
      OverEnds(s, pid, w, items, m, until, failed, o);
    } else {
      ReadBackAgrees(s, pid, w, written, items, until, v, h, o, fuel);
      assert written.(state := LOCKED, retention := Some(until), committed := Some(until)) == locked;
      LockedEnds(s, pid, w, items, until, fuel - 2);
    }
  }

  /** From the locked pack on. */
  lemma LockedEnds(s: State, pid: PackId, w: World, items: seq<Item>, until: nat, fuel: nat)
    requires OneLinkEach(s.links) && Driving(s, pid) && s.packs[pid].count == |items| && Arrives(w, s.objects) && fuel >= 4
    requires w.head != Down && w.upload.blob == Json(Sent(s, pid, items))
    ensures var v, m := w.upload.version, Sent(s, pid, items);
            var o := s.objects[v := Object(pid, w.upload.blob, w.upload.lock)];
            Ended(s, DriveIn(With(s, pid, Locked(s.packs[pid], w, m, until), Holding(items, v, until), o), pid, w, fuel),
                  pid, w, items, m, until)
  {
    hide DriveIn, MarkVerified, BuildManifest, With, Over, Ended, Locked;
    var v, m := w.upload.version, Sent(s, pid, items);
    var o := s.objects[v := Object(pid, w.upload.blob, w.upload.lock)];
    var locked := Locked(s.packs[pid], w, m, until);
    if Reaches(w.upload.lock, until) || Extends(w, until) {
      LockHolds(s, pid, w, locked, items, v, until, o, fuel);
      var x, n: nat :| n >= 1 && DriveIn(With(s, pid, locked, Holding(items, v, until), o), pid, w, fuel)
                                 == DriveIn(With(s, pid, locked, Covered(items, v, until), x), pid, w, n);
      CoveredEnds(s, pid, w, locked, items, v, until, x, n);
      VerifiedEnds(s, pid, w, items, m, until, x);
    } else {
      LockFails(s, pid, w, locked, items, v, until, o, fuel);
      var x :| DriveIn(With(s, pid, locked, Holding(items, v, until), o), pid, w, fuel) == Over(s, pid, locked, x);
      assert locked.state == LOCKED by { LockedIsLocked(s.packs[pid], w, m, until); }
      OverEnds(s, pid, w, items, m, until, locked, x);
    }
  }

  lemma LockedIsLocked(p: Pack, w: World, m: Manifest, until: nat)
    requires w.upload.Stored?
    ensures Locked(p, w, m, until).state == LOCKED
  {
  }

  // ---- the other statements ----

  /** Records come once, unarchived; repairs only set whether they are linked to their source; both kinds of
      extension only move a deadline later. */
  lemma LedgerStepsExactly(s: State, id: nat, rec: Rec, linked: bool, pid: PackId, version: nat, until: nat)
    ensures Apply(s, AddRecord(id, rec)) == if id in s.recs then s else s.(recs := s.recs[id := rec.(archived := false)])
    ensures Apply(s, SetLinked(id, linked)) == if id in s.recs then s.(recs := s.recs[id := s.recs[id].(linked := linked)]) else s
    ensures var t := Apply(s, ExtendLedger(pid, until));
            if pid in s.packs && s.packs[pid].state in {LOCKED, VERIFIED} && s.packs[pid].retention.Some?
            then t == s.(packs := s.packs[pid := s.packs[pid].(retention := Some(Max(s.packs[pid].retention.value, until)))])
            else t == s
    ensures var t := Apply(s, ExtendObject(version, until));
            if version in s.objects then
              var o := s.objects[version];
              t == s.(objects := s.objects[version := o.(lock := Some(if o.lock.Some? then Max(o.lock.value, until) else until))])
            else t == s
  {
    if pid in s.packs && s.packs[pid].state in {LOCKED, VERIFIED} && s.packs[pid].retention.Some? {
      assert s.packs[pid := s.packs[pid]] == s.packs;
    }
  }
}

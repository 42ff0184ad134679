/** What every reachable state of the archive chain satisfies, whoever crashes and whenever. */
module ArchiveSafety {
  import opened Base
  import opened Archive

  // ---- invariant ----

  ghost predicate DistinctIds(items: seq<Item>) {
    forall i, j :: 0 <= i < j < |items| ==> items[i].id != items[j].id
  }

  /** items is the record set pid was derived from. */
  ghost predicate Names(pid: PackId, items: seq<Item>) {
    Entries(items) == pid.entries && DistinctIds(items)
  }

  /** The manifest lists exactly the pack's entries. */
  ghost predicate Lists(pid: PackId, m: Manifest) {
    m.packId == pid && (forall e :: e in pid.entries <==> exists k :: 0 <= k < |m.lines| && m.lines[k].entry == e)
  }

  ghost predicate ManifestHash(pid: PackId, h: Hash) {
    h.blob.Json? && Lists(pid, h.blob.manifest)
  }

  ghost predicate HasVersion(pid: PackId, v: Option<nat>, objects: map<nat, Object>) {
    v.Some? && v.value in objects && objects[v.value].key == pid
  }

  /** The locked version is in the store under this pack's key and its bytes hash to the ledger's
      digest, which is the hash of a manifest listing exactly the pack's records. */
  ghost predicate Sealed(pid: PackId, p: Pack, objects: map<nat, Object>) {
    && HasVersion(pid, p.version, objects)
    && p.digest.Some? && ManifestHash(pid, p.digest.value)
    && Sha256(objects[p.version.value].blob) == p.digest.value
    && p.retention.Some? && p.committed.Some? && p.committed.value <= p.retention.value
  }

  ghost predicate AllLinked(pid: PackId, links: seq<Link>) {
    forall e :: e in pid.entries ==> IsLinked(links, e.id)
  }

  ghost predicate PackOk(pid: PackId, p: Pack, objects: map<nat, Object>, links: seq<Link>) {
    && (p.state in {LOCKED, VERIFIED} ==> Sealed(pid, p, objects))
    && (p.state == VERIFIED ==>
          AllLinked(pid, links) && Covers(objects[p.version.value].lock, p.committed.value))
  }

  /** What a driver knows at each point: its local variables still describe the row, because the
      drive lock keeps every other driver away from it. */
  ghost predicate DriveOk(pid: PackId, pc: Pc, p: Pack, objects: map<nat, Object>) {
    match pc
    case Adopting => true
    case AdoptPending => p.state == PENDING
    case Reloading(_, _, _) => p.state in {WRITING, RETRYABLE, LOCKED}
    case Ready(items) => Names(pid, items)
    case Starting(items, _) => Names(pid, items) && p.state in {PENDING, RETRYABLE}
    case Uploading(items, _) => Names(pid, items) && p.state == WRITING
    case Uploaded(items, _, v, h) =>
      Names(pid, items) && p.state == WRITING && HasVersion(pid, Some(v), objects) && ManifestHash(pid, h)
    case Written(items, _, v, h) =>
      Names(pid, items) && p.state == WRITING && HasVersion(pid, Some(v), objects) && ManifestHash(pid, h)
      && p.version == Some(v) && p.digest == Some(h)
    case Agreed(items, _, v) =>
      Names(pid, items) && p.state == WRITING && HasVersion(pid, Some(v), objects) && p.version == Some(v)
      && p.digest.Some? && ManifestHash(pid, p.digest.value) && Sha256(objects[v].blob) == p.digest.value
    case Holding(items, v, until) => Held(pid, items, v, until, p, objects)
    case Extending(items, v, until) => Held(pid, items, v, until, p, objects)
    case Rechecking(items, v, until) => Held(pid, items, v, until, p, objects)
    case Covered(items, v, until) => Held(pid, items, v, until, p, objects) && Covers(objects[v].lock, until)
    case Failing(to) =>
      (to == RETRYABLE && p.state == WRITING) || (to == QUARANTINED && p.state in {WRITING, RETRYABLE, LOCKED})
  }

  ghost predicate Held(pid: PackId, items: seq<Item>, v: nat, until: nat, p: Pack, objects: map<nat, Object>) {
    Names(pid, items) && p.state == LOCKED && Sealed(pid, p, objects) && p.version == Some(v)
    && p.committed.value <= until
  }

  /** A link names a VERIFIED pack at that pack's version, for a record the pack id covers. */
  ghost predicate LinkOk(l: Link, packs: map<PackId, Pack>) {
    && l.pack in packs && packs[l.pack].state == VERIFIED && packs[l.pack].version == Some(l.version)
    && exists e :: e in l.pack.entries && e.id == l.record && e.digest == l.digest
  }

  ghost predicate OneLinkEach(links: seq<Link>) {
    forall i, j :: 0 <= i < j < |links| ==> links[i].record != links[j].record
  }

  /** A pack only covers existing records, as they are. */
  ghost predicate Real(pid: PackId, recs: map<nat, Rec>) {
    forall e :: e in pid.entries ==>
      e.id in recs && recs[e.id].eventId == e.eventId && recs[e.id].digest == e.digest
  }

  ghost predicate PacksOk(packs: map<PackId, Pack>, objects: map<nat, Object>, links: seq<Link>) {
    forall pid :: pid in packs ==> PackOk(pid, packs[pid], objects, links)
  }

  ghost predicate DrivesOk(drives: map<PackId, Drive>, packs: map<PackId, Pack>, objects: map<nat, Object>) {
    forall pid :: pid in drives ==> pid in packs && DriveOk(pid, drives[pid].pc, packs[pid], objects)
  }

  ghost predicate LinksOk(links: seq<Link>, packs: map<PackId, Pack>) {
    OneLinkEach(links) && forall k :: 0 <= k < |links| ==> LinkOk(links[k], packs)
  }

  ghost predicate PacksReal(packs: map<PackId, Pack>, recs: map<nat, Rec>) {
    forall pid :: pid in packs ==> Real(pid, recs)
  }

  ghost predicate ArchivedIffLinked(recs: map<nat, Rec>, links: seq<Link>) {
    forall id :: id in recs ==> (recs[id].archived <==> IsLinked(links, id))
  }

  ghost predicate ClaimsOk(claims: set<(PackId, seq<Item>)>, packs: map<PackId, Pack>) {
    forall c :: c in claims ==> c.0 in packs && Names(c.0, c.1)
  }

  ghost predicate Inv(s: State) {
    && PacksOk(s.packs, s.objects, s.links)
    && DrivesOk(s.drives, s.packs, s.objects)
    && LinksOk(s.links, s.packs)
    && PacksReal(s.packs, s.recs)
    && ArchivedIffLinked(s.recs, s.links)
    && ClaimsOk(s.claims, s.packs)
  }

  // ---- the store only grows ----

  /** Versions are immutable and locks are extend-only. */
  ghost predicate ObjectsGrow(a: map<nat, Object>, b: map<nat, Object>) {
    forall v :: v in a ==>
      && v in b && b[v].key == a[v].key && b[v].blob == a[v].blob
      && (a[v].lock.Some? ==> b[v].lock.Some? && a[v].lock.value <= b[v].lock.value)
  }

  lemma PackOkGrows(pid: PackId, p: Pack, a: map<nat, Object>, b: map<nat, Object>, la: seq<Link>, lb: seq<Link>)
    requires PackOk(pid, p, a, la) && ObjectsGrow(a, b) && la <= lb
    ensures PackOk(pid, p, b, lb)
  {
    forall e | p.state == VERIFIED && e in pid.entries ensures IsLinked(lb, e.id) {
      assert IsLinked(la, e.id);
      var k :| 0 <= k < |la| && la[k].record == e.id;
      assert lb[k].record == e.id;
    }
  }

  lemma DriveOkGrows(pid: PackId, pc: Pc, p: Pack, a: map<nat, Object>, b: map<nat, Object>)
    requires DriveOk(pid, pc, p, a) && ObjectsGrow(a, b)
    ensures DriveOk(pid, pc, p, b)
  {
  }

  // ---- one driver action ----

  /** The edges of the pack matrix. */
  predicate Edge(a: PackState, b: PackState) {
    match a
    case PENDING => b in {WRITING, RETRYABLE, QUARANTINED}
    case WRITING => b in {LOCKED, RETRYABLE, QUARANTINED}
    case RETRYABLE => b in {WRITING, QUARANTINED}
    case LOCKED => b in {VERIFIED, QUARANTINED}
    case _ => false
  }

  /** A row change along the matrix that never shortens a locked pack's retention. */
  ghost predicate Moves(a: Pack, b: Pack) {
    && (a.state == b.state || Edge(a.state, b.state))
    && b.count == a.count && b.first == a.first && b.last == a.last
    && (a.state in {LOCKED, VERIFIED, QUARANTINED} ==>
          b.version == a.version && b.digest == a.digest && b.committed == a.committed
          && (a.retention.Some? ==> b.retention.Some? && a.retention.value <= b.retention.value))
  }

  // ---- the single statements ----

  /** MarkWriting moves exactly the packs the matrix lets into WRITING, and once; it never spoils a pack. */
  lemma MarkWritingTakesItsEdge(pid: PackId, p: Pack, objects: map<nat, Object>, links: seq<Link>)
    requires PackOk(pid, p, objects, links)
    ensures var q := MarkWriting(p);
            && (q != p <==> Edge(p.state, WRITING)) && (q != p ==> q.state == WRITING && q.attempts == p.attempts + 1)
            && Moves(p, q) && PackOk(pid, q, objects, links) && MarkWriting(q) == q
  {
  }

  /** MarkWritten changes no state, never spoils a pack, and is what opens the way to LOCKED. */
  lemma MarkWrittenOpensTheLock(pid: PackId, p: Pack, v: nat, h: Hash, until: nat, objects: map<nat, Object>, links: seq<Link>)
    requires PackOk(pid, p, objects, links)
    ensures var q := MarkWritten(p, v, h);
            && q.state == p.state && Moves(p, q) && PackOk(pid, q, objects, links)
            && (MarkLocked(q, until).state == LOCKED && p.state != LOCKED <==> p.state == WRITING)
            && (p.state == WRITING ==> MarkLocked(q, until).version == Some(v) && MarkLocked(q, until).digest == Some(h))
  {
  }

  /** MarkLocked takes the edge to LOCKED, or nothing; the pack it leaves is sound exactly when the recorded
      version is stored under the pack's key and its bytes are a manifest of the pack with the recorded hash:
      the statement does not check that, the driver's Head before it does. */
  lemma MarkLockedIsSoundExactlyWhen(pid: PackId, p: Pack, until: nat, objects: map<nat, Object>, links: seq<Link>)
    requires p.state == WRITING && p.version.Some?
    ensures var q := MarkLocked(p, until);
            && q.state == LOCKED && Edge(p.state, q.state) && Moves(p, q) && q.retention == q.committed == Some(until)
            && (PackOk(pid, q, objects, links) <==>
                  HasVersion(pid, p.version, objects) && p.digest.Some? && ManifestHash(pid, p.digest.value)
                  && Sha256(objects[p.version.value].blob) == p.digest.value)
            && (forall later :: MarkLocked(q, later) == q)
  {
  }

  /** In order the three statements lock a claimed or retried pack with exactly what was uploaded; out of
      order the later ones do nothing. */
  lemma MarksInOrder(p: Pack, v: nat, h: Hash, until: nat)
    requires p.state in {PENDING, RETRYABLE}
    ensures var q := MarkLocked(MarkWritten(MarkWriting(p), v, h), until);
            && q.state == LOCKED && q.version == Some(v) && q.digest == Some(h) && q.committed == Some(until)
            && q.count == p.count && q.first == p.first && q.last == p.last && q.attempts == p.attempts + 1
    ensures MarkWritten(p, v, h) == p && MarkLocked(p, until) == p
  {
  }

  lemma ManifestListsItems(pid: PackId, policy: string, items: seq<Item>, days: nat, now: nat)
    requires Names(pid, items)
    ensures Lists(pid, BuildManifest(pid, policy, items, days, now))
  {
    var m := BuildManifest(pid, policy, items, days, now);
    forall e ensures e in pid.entries <==> exists k :: 0 <= k < |m.lines| && m.lines[k].entry == e {
      if e in Entries(items) {
        var k :| 0 <= k < |items| && EntryOf(items[k]) == e;
        assert m.lines[k].entry == e;
      }
    }
  }

  lemma UploadKeeps(pid: PackId, d: Drive, p: Pack, objects: map<nat, Object>, now: nat, reply: Reply)
    requires d.pc.Uploading? && DriveOk(pid, d.pc, p, objects)
    ensures var e := Upload(pid, d, p, objects, now, reply);
            && e.pack == p && ObjectsGrow(objects, e.objects)
            && e.pc.Some? && DriveOk(pid, e.pc.value, p, e.objects)
  {
    ManifestListsItems(pid, d.policy, d.pc.items, d.days, now);
  }

  /** A reload gives distinct records, whatever the window. */
  ghost predicate Reloads(reload: (nat, nat) -> seq<Item>) {
    forall a: nat, b: nat :: DistinctIds(reload(a, b))
  }

  lemma RecoveringKeeps(pid: PackId, d: Drive, p: Pack, objects: map<nat, Object>, now: nat,
                        reload: (nat, nat) -> seq<Item>, reply: Reply)
    requires DriveOk(pid, d.pc, p, objects) && Reloads(reload)
    requires p.state == LOCKED ==> Sealed(pid, p, objects)
    requires d.pc.Adopting? || d.pc.AdoptPending? || d.pc.Reloading? || d.pc.Ready? || d.pc.Failing?
    ensures var e := Next(pid, d, p, objects, now, reload, reply);
            ObjectsGrow(objects, e.objects) && (e.pc.Some? ==> DriveOk(pid, e.pc.value, e.pack, e.objects))
  {
  }

  lemma WritingKeeps(pid: PackId, d: Drive, p: Pack, objects: map<nat, Object>, now: nat,
                     reload: (nat, nat) -> seq<Item>, reply: Reply)
    requires DriveOk(pid, d.pc, p, objects) && Reloads(reload)
    requires p.state == LOCKED ==> Sealed(pid, p, objects)
    requires d.pc.Starting? || d.pc.Uploaded? || d.pc.Written? || d.pc.Agreed?
    ensures var e := Next(pid, d, p, objects, now, reload, reply);
            ObjectsGrow(objects, e.objects) && (e.pc.Some? ==> DriveOk(pid, e.pc.value, e.pack, e.objects))
  {
  }

  lemma HoldingKeeps(pid: PackId, d: Drive, p: Pack, objects: map<nat, Object>, now: nat,
                     reload: (nat, nat) -> seq<Item>, reply: Reply)
    requires DriveOk(pid, d.pc, p, objects) && Reloads(reload)
    requires p.state == LOCKED ==> Sealed(pid, p, objects)
    requires d.pc.Holding? || d.pc.Extending? || d.pc.Rechecking?
    ensures var e := Next(pid, d, p, objects, now, reload, reply);
            ObjectsGrow(objects, e.objects) && (e.pc.Some? ==> DriveOk(pid, e.pc.value, e.pack, e.objects))
  {
  }

  lemma NextKeepsDrive(pid: PackId, d: Drive, p: Pack, objects: map<nat, Object>, now: nat,
                       reload: (nat, nat) -> seq<Item>, reply: Reply)
    requires DriveOk(pid, d.pc, p, objects) && Reloads(reload)
    requires p.state == LOCKED ==> Sealed(pid, p, objects)
    requires !d.pc.Covered?
    ensures var e := Next(pid, d, p, objects, now, reload, reply);
            ObjectsGrow(objects, e.objects) && (e.pc.Some? ==> DriveOk(pid, e.pc.value, e.pack, e.objects))
  {
    match d.pc {
      case Uploading(_, _) => UploadKeeps(pid, d, p, objects, now, reply);
      case Starting(_, _) => WritingKeeps(pid, d, p, objects, now, reload, reply);
      case Uploaded(_, _, _, _) => WritingKeeps(pid, d, p, objects, now, reload, reply);
      case Written(_, _, _, _) => WritingKeeps(pid, d, p, objects, now, reload, reply);
      case Agreed(_, _, _) => WritingKeeps(pid, d, p, objects, now, reload, reply);
      case Holding(_, _, _) => HoldingKeeps(pid, d, p, objects, now, reload, reply);
      case Extending(_, _, _) => HoldingKeeps(pid, d, p, objects, now, reload, reply);
      case Rechecking(_, _, _) => HoldingKeeps(pid, d, p, objects, now, reload, reply);
      case _ => RecoveringKeeps(pid, d, p, objects, now, reload, reply);
    }
  }

  lemma NextKeepsPack(pid: PackId, d: Drive, p: Pack, objects: map<nat, Object>, now: nat,
                      reload: (nat, nat) -> seq<Item>, reply: Reply, links: seq<Link>)
    requires DriveOk(pid, d.pc, p, objects) && !d.pc.Covered? && Reloads(reload)
    requires PackOk(pid, p, objects, links)
    ensures var e := Next(pid, d, p, objects, now, reload, reply);
            && PackOk(pid, e.pack, e.objects, links)
            && Moves(p, e.pack)
            && (e.pack == p || (p.state != VERIFIED && e.pack.state != VERIFIED))
  {
    var e := Next(pid, d, p, objects, now, reload, reply);
    NextKeepsDrive(pid, d, p, objects, now, reload, reply);
    PackOkGrows(pid, p, objects, e.objects, links, links);
  }

  // ---- MarkVerified ----

  ghost predicate NewLink(l: Link, pid: PackId, items: seq<Item>, version: nat) {
    l.pack == pid && l.version == version && exists i :: 0 <= i < |items| && items[i].id == l.record && items[i].digest == l.digest
  }

  lemma {:induction false} InsertLinksAdds(links: seq<Link>, pid: PackId, items: seq<Item>, version: nat)
    requires OneLinkEach(links)
    ensures var t := InsertLinks(links, pid, items, version);
            && links <= t && OneLinkEach(t)
            && (forall k :: |links| <= k < |t| ==> NewLink(t[k], pid, items, version))
            && (forall i :: 0 <= i < |items| ==> IsLinked(t, items[i].id))
    decreases |items|
  {
    if items != [] {
      var n := |items| - 1;
      var init := items[..n];
      InsertLinksAdds(links, pid, init, version);
      var m, t := InsertLinks(links, pid, init, version), InsertLinks(links, pid, items, version);
      forall k | |links| <= k < |t| ensures NewLink(t[k], pid, items, version) {
        if k < |m| {
          assert NewLink(m[k], pid, init, version);
          var i :| 0 <= i < n && init[i].id == m[k].record && init[i].digest == m[k].digest;
          assert items[i] == init[i];
        } else {
          assert items[n].id == t[k].record;
        }
      }
      forall i | 0 <= i < |items| ensures IsLinked(t, items[i].id) {
        if i < n { assert items[i] == init[i]; LinkedGrows(m, t, items[i].id); }
        else if !IsLinked(m, items[n].id) { assert t[|m|].record == items[n].id; }
      }
    }
  }

  lemma LinkedGrows(a: seq<Link>, b: seq<Link>, id: nat)
    requires a <= b && IsLinked(a, id)
    ensures IsLinked(b, id)
  {
    var k :| 0 <= k < |a| && a[k].record == id;
    assert b[k].record == id;
  }

  lemma FlipKeepsArchived(recs: map<nat, Rec>, a: seq<Link>, b: seq<Link>, pid: PackId)
    requires ArchivedIffLinked(recs, a) && a <= b
    requires forall k :: |a| <= k < |b| ==> b[k].pack == pid
    ensures ArchivedIffLinked(FlipArchived(recs, b, pid), b)
  {
    var t := FlipArchived(recs, b, pid);
    forall id | id in t ensures t[id].archived <==> IsLinked(b, id) {
      if IsLinked(a, id) {
        LinkedGrows(a, b, id);
      } else if IsLinked(b, id) {
        var k :| 0 <= k < |b| && b[k].record == id;
        if k < |a| { assert a[k].record == id; }
        assert LinkedBy(b, pid, id);
      }
    }
  }

  /** A link's pack row is never written again in a way that breaks the link. */
  lemma LinksSurvive(links: seq<Link>, a: map<PackId, Pack>, b: map<PackId, Pack>)
    requires LinksOk(links, a)
    requires forall pid :: pid in a && a[pid].state == VERIFIED ==>
               pid in b && b[pid].state == VERIFIED && b[pid].version == a[pid].version
    ensures LinksOk(links, b)
  {
    forall k | 0 <= k < |links| ensures LinkOk(links[k], b) {
      assert LinkOk(links[k], a);
    }
  }

  lemma VerifyLinksOk(s: State, pid: PackId, items: seq<Item>, v: nat)
    requires LinksOk(s.links, s.packs) && pid in s.packs && Names(pid, items)
    requires s.packs[pid].state == LOCKED && s.packs[pid].version == Some(v) && s.packs[pid].count == |items|
    ensures var t := MarkVerified(s, pid, items, v);
            LinksOk(t.links, t.packs) && s.links <= t.links && AllLinked(pid, t.links)
  {
    var t := MarkVerified(s, pid, items, v);
    InsertLinksAdds(s.links, pid, items, v);
    LinksSurvive(s.links, s.packs, t.packs);
    forall k | 0 <= k < |t.links| ensures LinkOk(t.links[k], t.packs) {
      if k < |s.links| {
        assert t.links[k] == s.links[k];
      } else {
        assert NewLink(t.links[k], pid, items, v);
        var i :| 0 <= i < |items| && items[i].id == t.links[k].record && items[i].digest == t.links[k].digest;
        assert EntryOf(items[i]) in Entries(items);
      }
    }
    forall e | e in pid.entries ensures IsLinked(t.links, e.id) {
      var i :| 0 <= i < |items| && EntryOf(items[i]) == e;
      assert IsLinked(t.links, items[i].id);
    }
  }

  lemma VerifyKeepsInv(s: State, pid: PackId)
    requires Inv(s) && pid in s.packs && pid in s.drives && s.drives[pid].pc.Covered?
    ensures Inv(Act(s, pid, Done))
  {
    var pc, p := s.drives[pid].pc, s.packs[pid];
    var t := Act(s, pid, Done);
    assert DriveOk(pid, pc, p, s.objects);
    if p.count == |pc.items| {
      VerifyLinksOk(s, pid, pc.items, pc.version);
      InsertLinksAdds(s.links, pid, pc.items, pc.version);
      forall q | q in t.packs ensures PackOk(q, t.packs[q], t.objects, t.links) {
        PackOkGrows(q, s.packs[q], s.objects, t.objects, s.links, t.links);
      }
      FlipKeepsArchived(s.recs, s.links, t.links, pid);
      assert PacksReal(t.packs, t.recs) by {
        forall q | q in t.packs ensures Real(q, t.recs) { assert Real(q, s.recs); }
      }
    }
  }

  // ---- every step ----

  lemma ReloadIsDistinct(recs: map<nat, Rec>, links: seq<Link>)
    ensures Reloads((a: nat, b: nat) => Reload(recs, links, a, b))
  {
    forall a: nat, b: nat ensures DistinctIds(Reload(recs, links, a, b)) {
      ReloadDistinct(recs, links, a, b);
    }
  }

  lemma ReloadDistinct(recs: map<nat, Rec>, links: seq<Link>, a: nat, b: nat)
    ensures DistinctIds(Reload(recs, links, a, b))
  {
    var s := set id | id in Eligible(recs, links) && a <= id <= b;
    AscendingIn(s, |s|);
    ItemsAreDistinct(recs, Limit(Ascending(s), |s|));
  }

  lemma ItemsAreDistinct(recs: map<nat, Rec>, ids: seq<nat>)
    requires forall k :: 0 <= k < |ids| ==> ids[k] in recs
    requires forall i, j :: 0 <= i < j < |ids| ==> ids[i] < ids[j]
    ensures DistinctIds(ItemsOf(recs, ids))
  {
  }

  /** One pack row and its driver written, the store grown: everything else stays as it was. */
  lemma WriteKeepsInv(s: State, pid: PackId, p: Pack, objects: map<nat, Object>, drives: map<PackId, Drive>)
    requires Inv(s) && pid in s.packs && PackOk(pid, p, objects, s.links) && ObjectsGrow(s.objects, objects)
    requires p == s.packs[pid] || (s.packs[pid].state != VERIFIED && p.state != VERIFIED)
    requires forall q :: q in drives && q != pid ==> q in s.drives && drives[q] == s.drives[q]
    requires pid in drives ==> DriveOk(pid, drives[pid].pc, p, objects)
    ensures Inv(s.(packs := s.packs[pid := p], objects := objects, drives := drives))
  {
    var t := s.(packs := s.packs[pid := p], objects := objects, drives := drives);
    forall q | q in t.packs ensures PackOk(q, t.packs[q], t.objects, t.links) {
      if q != pid { PackOkGrows(q, s.packs[q], s.objects, objects, s.links, s.links); }
    }
    forall q | q in t.drives ensures q in t.packs && DriveOk(q, t.drives[q].pc, t.packs[q], t.objects) {
      if q != pid { DriveOkGrows(q, s.drives[q].pc, s.packs[q], s.objects, objects); }
    }
    LinksSurvive(s.links, s.packs, t.packs);
  }

  lemma AdvanceKeepsInv(s: State, pid: PackId, reply: Reply)
    requires Inv(s) && pid in s.packs && pid in s.drives
    ensures Inv(Act(s, pid, reply))
  {
    var d, p := s.drives[pid], s.packs[pid];
    if d.pc.Covered? {
      if reply == Down {
        assert Inv(s.(drives := s.drives - {pid}));
      } else {
        VerifyKeepsInv(s, pid);
        assert Act(s, pid, reply) == Act(s, pid, Done);
      }
    } else {
      var reload := (a: nat, b: nat) => Reload(s.recs, s.links, a, b);
      ReloadIsDistinct(s.recs, s.links);
      assert PackOk(pid, p, s.objects, s.links);
      NextKeepsDrive(pid, d, p, s.objects, s.now, reload, reply);
      NextKeepsPack(pid, d, p, s.objects, s.now, reload, reply, s.links);
      var e := Next(pid, d, p, s.objects, s.now, reload, reply);
      WriteKeepsInv(s, pid, e.pack, e.objects,
                    if e.pc.Some? then s.drives[pid := d.(pc := e.pc.value)] else s.drives - {pid});
    }
  }

  lemma WindowNames(recs: map<nat, Rec>, links: seq<Link>, batch: nat, policy: string)
    ensures var items := Window(recs, links, batch);
            Names(IdOf(policy, items), items) && Real(IdOf(policy, items), recs)
  {
    var s := Eligible(recs, links);
    AscendingIn(s, batch);
    ItemsAreDistinct(recs, Limit(Ascending(s), batch));
  }

  lemma ClaimKeepsInv(s: State, batch: nat, policy: string)
    requires Inv(s)
    ensures Inv(Claim(s, batch, policy))
  {
    var n := if batch == 0 then 100 else batch;
    var t := Claim(s, batch, policy);
    if t != s {
      WindowNames(s.recs, s.links, n, policy);
      LinksSurvive(s.links, s.packs, t.packs);
    }
  }

  lemma RecordKeepsInv(s: State, id: nat, r: Rec)
    requires Inv(s) && id !in s.recs
    ensures Inv(s.(recs := s.recs[id := r.(archived := false)]))
  {
    var t := s.(recs := s.recs[id := r.(archived := false)]);
    forall k | 0 <= k < |s.links| ensures s.links[k].record in s.recs {
      assert LinkOk(s.links[k], s.packs);
      assert Real(s.links[k].pack, s.recs);
    }
    forall pid | pid in t.packs ensures Real(pid, t.recs) { assert Real(pid, s.recs); }
  }

  lemma SetLinkedKeepsInv(s: State, id: nat, linked: bool)
    requires Inv(s) && id in s.recs
    ensures Inv(s.(recs := s.recs[id := s.recs[id].(linked := linked)]))
  {
    var t := s.(recs := s.recs[id := s.recs[id].(linked := linked)]);
    forall pid | pid in t.packs ensures Real(pid, t.recs) { assert Real(pid, s.recs); }
  }

  /** Both extensions: the ledger's and the store's. */
  lemma ExtensionsKeepInv(s: State, step: Step)
    requires Inv(s) && (step.ExtendLedger? || step.ExtendObject?)
    ensures Inv(Apply(s, step))
  {
    match step {
      case ExtendLedger(pid, until) =>
        if Apply(s, step) != s { ExtendLedgerKeepsInv(s, pid, until); }
      case ExtendObject(v, until) =>
        var t := Apply(s, step);
        assert ObjectsGrow(s.objects, t.objects);
        forall q | q in t.packs ensures PackOk(q, t.packs[q], t.objects, t.links) {
          PackOkGrows(q, s.packs[q], s.objects, t.objects, s.links, s.links);
        }
        forall q | q in t.drives ensures q in t.packs && DriveOk(q, t.drives[q].pc, t.packs[q], t.objects) {
          DriveOkGrows(q, s.drives[q].pc, s.packs[q], s.objects, t.objects);
        }
    }
  }

  lemma ExtendLedgerKeepsInv(s: State, pid: PackId, until: nat)
    requires Inv(s) && pid in s.packs && s.packs[pid].state in {LOCKED, VERIFIED}
    requires s.packs[pid].retention.Some? && s.packs[pid].retention.value < until
    ensures Inv(s.(packs := s.packs[pid := s.packs[pid].(retention := Some(until))]))
  {
    var t := s.(packs := s.packs[pid := s.packs[pid].(retention := Some(until))]);
    assert PackOk(pid, s.packs[pid], s.objects, s.links);
    LinksSurvive(s.links, s.packs, t.packs);
    forall q | q in t.drives ensures q in t.packs && DriveOk(q, t.drives[q].pc, t.packs[q], t.objects) {
      assert DriveOk(q, s.drives[q].pc, s.packs[q], s.objects);
    }
  }

  lemma LockKeepsInv(s: State, pid: PackId, d: Drive)
    requires Inv(s) && pid in s.packs && (d.pc.Adopting? || (d.pc.Ready? && Names(pid, d.pc.items)))
    ensures Inv(s.(drives := s.drives[pid := d]))
  {
  }

  lemma StepKeepsInv(s: State, step: Step)
    requires Inv(s)
    ensures Inv(Apply(s, step))
  {
    match step {
      case Tick(_) =>
      case AddRecord(id, r) => if id !in s.recs { RecordKeepsInv(s, id, r); }
      case SetLinked(id, linked) => if id in s.recs { SetLinkedKeepsInv(s, id, linked); }
      case ClaimWindow(batch, policy) => ClaimKeepsInv(s, batch, policy);
      case LockClaimed(pid, items, days) =>
        if (pid, items) in s.claims { LockKeepsInv(s, pid, Drive(pid.policy, days, Ready(items))); }
      case LockSwept(pid, policy, days) =>
        if pid in s.packs { LockKeepsInv(s, pid, Drive(policy, days, Adopting)); }
      case Advance(pid, reply) => if pid in s.packs && pid in s.drives { AdvanceKeepsInv(s, pid, reply); }
      case Crash(pid) =>
      case ExtendLedger(_, _) => ExtensionsKeepInv(s, step);
      case ExtendObject(_, _) => ExtensionsKeepInv(s, step);
    }
  }

  lemma {:induction false} RunKeepsInv(s: State, steps: seq<Step>)
    requires Inv(s)
    ensures Inv(Run(s, steps))
    decreases steps
  {
    if steps != [] {
      StepKeepsInv(s, steps[0]);
      RunKeepsInv(Apply(s, steps[0]), steps[1..]);
    }
  }

  lemma StartHolds()
    ensures Inv(START)
  {
  }

  // ---- the theorems ----

  /** In every reachable state, for every archive link: its pack is VERIFIED, the link carries that
      pack's object version, the stored bytes of that version hash to the pack's manifest digest, the
      manifest in those bytes lists the record with its digest, no other link has the record, and the
      record exists and reads ARCHIVED. */
  lemma LinksNameVerifiedManifests(steps: seq<Step>, k: nat)
    requires k < |Run(START, steps).links|
    ensures var t := Run(START, steps); var l := t.links[k];
            && l.pack in t.packs && t.packs[l.pack].state == VERIFIED && t.packs[l.pack].version == Some(l.version)
            && l.version in t.objects && t.objects[l.version].key == l.pack
            && t.packs[l.pack].digest == Some(Sha256(t.objects[l.version].blob))
            && t.objects[l.version].blob.Json?
            && (exists i :: 0 <= i < |t.objects[l.version].blob.manifest.lines|
                  && t.objects[l.version].blob.manifest.lines[i].entry.id == l.record
                  && t.objects[l.version].blob.manifest.lines[i].entry.digest == l.digest)
            && (forall j :: 0 <= j < |t.links| && t.links[j].record == l.record ==> j == k)
            && l.record in t.recs && t.recs[l.record].digest == l.digest && t.recs[l.record].archived
  {
    StartHolds();
    RunKeepsInv(START, steps);
    var t := Run(START, steps);
    var l := t.links[k];
    assert LinkOk(l, t.packs) && PackOk(l.pack, t.packs[l.pack], t.objects, t.links) && Real(l.pack, t.recs);
    assert IsLinked(t.links, l.record);
  }

  /** A record reads ARCHIVED exactly when some link has it. */
  lemma ArchivedExactlyWhenLinked(steps: seq<Step>, id: nat)
    requires id in Run(START, steps).recs
    ensures var t := Run(START, steps); t.recs[id].archived <==> IsLinked(t.links, id)
  {
    StartHolds();
    RunKeepsInv(START, steps);
  }

  /** Coverage: every record a VERIFIED pack covers is linked (by that pack or by an overlapping one),
      and its object lock reaches the retention recorded when it was locked, less a minute, forever. */
  lemma VerifiedPacksAreCovered(steps: seq<Step>, pid: PackId)
    requires pid in Run(START, steps).packs && Run(START, steps).packs[pid].state == VERIFIED
    ensures var t := Run(START, steps); var p := t.packs[pid];
            && (forall e :: e in pid.entries ==> e.id in t.recs && IsLinked(t.links, e.id) && t.recs[e.id].archived)
            && p.version.Some? && p.version.value in t.objects && p.committed.Some? && p.retention.Some?
            && p.committed.value <= p.retention.value
            && Covers(t.objects[p.version.value].lock, p.committed.value)
  {
    StartHolds();
    RunKeepsInv(START, steps);
    var t := Run(START, steps);
    assert PackOk(pid, t.packs[pid], t.objects, t.links) && Real(pid, t.recs);
  }

  /** Every pack row change of a drive-locked run is an edge of the matrix, although MarkFailed's own
      guard would also let LOCKED go to RETRYABLE; once locked, version, digest and commitment are
      fixed and retention only grows. */
  lemma ChangesFollowTheMatrix(s: State, step: Step, pid: PackId)
    requires Inv(s) && pid in s.packs
    ensures pid in Apply(s, step).packs && Moves(s.packs[pid], Apply(s, step).packs[pid])
  {
    hide Act, Claim, Inv;
    match step {
      case Advance(q, reply) => if q in s.packs && q in s.drives { AdvanceMoves(s, q, reply, pid); }
      case ClaimWindow(batch, policy) => ClaimMoves(s, batch, policy, pid);
      case _ =>
    }
  }

  lemma ClaimMoves(s: State, batch: nat, policy: string, pid: PackId)
    requires pid in s.packs
    ensures pid in Claim(s, batch, policy).packs && Claim(s, batch, policy).packs[pid] == s.packs[pid]
  {
  }

  lemma VerifyMoves(s: State, pid: PackId, items: seq<Item>, version: nat)
    requires pid in s.packs
    ensures MarkVerified(s, pid, items, version).packs.Keys == s.packs.Keys
    ensures Moves(s.packs[pid], MarkVerified(s, pid, items, version).packs[pid])
    ensures forall q :: q in s.packs && q != pid ==> MarkVerified(s, pid, items, version).packs[q] == s.packs[q]
  {
  }

  lemma AdvanceMoves(s: State, pid: PackId, reply: Reply, q: PackId)
    requires Inv(s) && pid in s.packs && pid in s.drives && q in s.packs
    ensures q in Act(s, pid, reply).packs && Moves(s.packs[q], Act(s, pid, reply).packs[q])
  {
    var d, p := s.drives[pid], s.packs[pid];
    if d.pc.Covered? {
      VerifyMoves(s, pid, d.pc.items, d.pc.version);
    } else {
      var reload := (a: nat, b: nat) => Reload(s.recs, s.links, a, b);
      ReloadIsDistinct(s.recs, s.links);
      assert PackOk(pid, p, s.objects, s.links);
      NextKeepsPack(pid, d, p, s.objects, s.now, reload, reply, s.links);
    }
  }

  /** VERIFIED and QUARANTINED are never left, over any continuation. */
  lemma {:induction false} TerminalStatesAreFinal(s: State, steps: seq<Step>, pid: PackId)
    requires Inv(s) && pid in s.packs && s.packs[pid].state in {VERIFIED, QUARANTINED}
    ensures pid in Run(s, steps).packs && Run(s, steps).packs[pid].state == s.packs[pid].state
    decreases steps
  {
    if steps != [] {
      ChangesFollowTheMatrix(s, steps[0], pid);
      StepKeepsInv(s, steps[0]);
      TerminalStatesAreFinal(Apply(s, steps[0]), steps[1..], pid);
    }
  }

  /** Once a pack was LOCKED its recorded retention never shrinks, whatever becomes of it. */
  lemma {:induction false} RetentionNeverShrinks(s: State, steps: seq<Step>, pid: PackId)
    requires Inv(s) && pid in s.packs && s.packs[pid].state in {LOCKED, VERIFIED, QUARANTINED}
    requires s.packs[pid].retention.Some?
    ensures pid in Run(s, steps).packs && Run(s, steps).packs[pid].retention.Some?
    ensures s.packs[pid].retention.value <= Run(s, steps).packs[pid].retention.value
    decreases steps
  {
    if steps != [] {
      ChangesFollowTheMatrix(s, steps[0], pid);
      StepKeepsInv(s, steps[0]);
      RetentionNeverShrinks(Apply(s, steps[0]), steps[1..], pid);
    }
  }

  /** MarkFailed's SQL alone leaves the matrix exactly when it makes a LOCKED pack RETRYABLE; that no driver
      does so is ChangesFollowTheMatrix. */
  lemma MarkFailedAloneBreaksTheMatrix(p: Pack, to: PackState)
    requires to in {RETRYABLE, QUARANTINED}
    ensures var q := MarkFailed(p, to);
            q.state != p.state && !Edge(p.state, q.state) <==> p.state == LOCKED && to == RETRYABLE
  {
  }
}

/** The WORM archive chain (internal/evidencepack): packs, index links, the object store, and the
    drivers that take a pack from claim to VERIFIED.  A driver holds the pack's drive lock; every
    store call, SQL statement and read it makes is one step, so it can crash, and everybody else can
    run, between any two of them. */
module Archive {
  import opened Base

  // ---- evidence records, packs, objects ----

  datatype Rec = Rec(eventId: string, digest: string, tenant: string, occurredAt: nat, linked: bool, archived: bool)

  /** A record as selected for a pack. */
  datatype Item = Item(id: nat, eventId: string, digest: string, tenant: string, occurredAt: nat)

  /** What the content digest of a pack covers, per record. */
  datatype Entry = Entry(id: nat, eventId: string, digest: string)

  /** The content-derived pack id: the hash idealized as its preimage (PackDigest relates the two). */
  datatype PackId = PackId(policy: string, entries: set<Entry>)

  datatype Line = Line(entry: Entry, alias: string, occurredAt: nat)
  datatype Manifest = Manifest(packId: PackId, policy: string, lines: seq<Line>, first: nat, last: nat,
                               generatedAt: nat, days: nat)
  datatype Blob = Json(manifest: Manifest) | Other(raw: string)

  /** SHA-256, idealized: distinct blobs have distinct hashes. */
  datatype Hash = Sha256(blob: Blob)

  datatype PackState = PENDING | WRITING | LOCKED | VERIFIED | RETRYABLE | QUARANTINED

  /** retention is the ledger's deadline; committed records its value at the moment of locking. */
  datatype Pack = Pack(state: PackState, version: Option<nat>, digest: Option<Hash>, retention: Option<nat>,
                       committed: Option<nat>, count: nat, first: nat, last: nat, attempts: nat)

  datatype Object = Object(key: PackId, blob: Blob, lock: Option<nat>)
  datatype Link = Link(pack: PackId, record: nat, version: nat, digest: string)

  // ---- drivers ----

  /** Where a driver is, with the local variables it will still use. */
  datatype Pc =
    | Adopting                                                        // Recover: read the row
    | AdoptPending                                                    // Recover: PENDING row to RETRYABLE
    | Reloading(first: nat, last: nat, count: nat)                    // Recover: reload the window
    | Ready(items: seq<Item>)                                         // archivePack: read the row
    | Starting(items: seq<Item>, retain: nat)                         // MarkWriting
    | Uploading(items: seq<Item>, retain: nat)                        // PutLocked
    | Uploaded(items: seq<Item>, retain: nat, version: nat, hash: Hash)  // MarkWritten
    | Written(items: seq<Item>, retain: nat, version: nat, hash: Hash)   // Head
    | Agreed(items: seq<Item>, retain: nat, version: nat)             // MarkLocked
    | Holding(items: seq<Item>, version: nat, until: nat)             // RetentionUntil
    | Extending(items: seq<Item>, version: nat, until: nat)           // ExtendRetention
    | Rechecking(items: seq<Item>, version: nat, until: nat)          // RetentionUntil again
    | Covered(items: seq<Item>, version: nat, until: nat)             // MarkVerified
    | Failing(to: PackState)                                          // MarkFailed, then give up

  datatype Drive = Drive(policy: string, days: nat, pc: Pc)

  /** What the outside world answers to a driver's next call: it works, it fails without effect, an
      upload is stored (perhaps not as sent) with or without the driver hearing of it, or a retention
      extension is granted up to some deadline. */
  datatype Reply = Done | Down | Stored(version: nat, blob: Blob, lock: Option<nat>)
                 | Lost(version: nat, blob: Blob, lock: Option<nat>) | Granted(until: nat)

  /** drives is keyed by pack: the drive lock admits one driver per pack. claims are the windows
      handed to the workers whose ClaimWindow created the pack row. */
  datatype State = State(now: nat, recs: map<nat, Rec>, packs: map<PackId, Pack>, links: seq<Link>,
                         objects: map<nat, Object>, drives: map<PackId, Drive>, claims: set<(PackId, seq<Item>)>)

  datatype Step =
    | Tick(ms: nat)
    | AddRecord(id: nat, rec: Rec)
    | SetLinked(id: nat, linked: bool)
    | ClaimWindow(batch: nat, policy: string)
    | LockClaimed(pid: PackId, items: seq<Item>, days: nat)
    | LockSwept(pid: PackId, policy: string, days: nat)
    | Advance(pid: PackId, reply: Reply)
    | Crash(pid: PackId)
    | ExtendLedger(pid: PackId, until: nat)
    | ExtendObject(version: nat, until: nat)

  const START := State(0, map[], map[], [], map[], map[], {})
  const DAY: nat := 24 * 3600 * 1000
  const MINUTE: nat := 60 * 1000

  // ---- windows and content ids ----

  predicate IsLinked(links: seq<Link>, id: nat) {
    exists k :: 0 <= k < |links| && links[k].record == id
  }

  /** The completeness scan: LINKED and without an archive link, wherever it is. */
  function Eligible(recs: map<nat, Rec>, links: seq<Link>): set<nat> {
    set id | id in recs && recs[id].linked && !IsLinked(links, id)
  }

  function ItemOf(id: nat, r: Rec): Item { Item(id, r.eventId, r.digest, r.tenant, r.occurredAt) }

  function ItemsOf(recs: map<nat, Rec>, ids: seq<nat>): seq<Item>
    requires forall k :: 0 <= k < |ids| ==> ids[k] in recs
  {
    seq(|ids|, k requires 0 <= k < |ids| => ItemOf(ids[k], recs[ids[k]]))
  }

  lemma AscendingIn(s: set<nat>, n: nat)
    ensures forall k :: 0 <= k < |Limit(Ascending(s), n)| ==> Limit(Ascending(s), n)[k] in s
  {
    forall k | 0 <= k < |Limit(Ascending(s), n)| ensures Limit(Ascending(s), n)[k] in s {
      assert Ascending(s)[k] in Ascending(s);
    }
  }

  function Window(recs: map<nat, Rec>, links: seq<Link>, batch: nat): seq<Item> {
    var s := Eligible(recs, links);
    AscendingIn(s, batch);
    ItemsOf(recs, Limit(Ascending(s), batch))
  }

  /** Recover's reload: the same filter inside the claimed bounds. */
  function Reload(recs: map<nat, Rec>, links: seq<Link>, first: nat, last: nat): seq<Item> {
    var s := set id | id in Eligible(recs, links) && first <= id <= last;
    AscendingIn(s, |s|);
    ItemsOf(recs, Limit(Ascending(s), |s|))
  }

  function EntryOf(i: Item): Entry { Entry(i.id, i.eventId, i.digest) }

  function Entries(items: seq<Item>): set<Entry> { set k | 0 <= k < |items| :: EntryOf(items[k]) }

  function IdOf(policy: string, items: seq<Item>): PackId { PackId(policy, Entries(items)) }

  function AliasTenant(tenant: string): string { if tenant == "" then "unattributed" else "t-" + tenant }

  function LineOf(i: Item): Line { Line(EntryOf(i), AliasTenant(i.tenant), i.occurredAt) }

  function BuildManifest(pid: PackId, policy: string, items: seq<Item>, days: nat, now: nat): Manifest {
    Manifest(pid, policy, seq(|items|, k requires 0 <= k < |items| => LineOf(items[k])),
             if items == [] then 0 else items[0].id, if items == [] then 0 else items[|items| - 1].id, now, days)
  }

  // ---- one driver action ----

  /** What one action does to the driver's pack, the store, and the driver; None ends the drive. */
  datatype Effect = Effect(pack: Pack, objects: map<nat, Object>, pc: Option<Pc>)

  predicate Covers(lock: Option<nat>, until: nat) { lock.Some? && lock.value + MINUTE >= until }

  function Raise(lock: Option<nat>, until: nat): Option<nat> {
    if lock.Some? && lock.value >= until then lock else Some(until)
  }

  function MarkWriting(p: Pack): Pack {
    if p.state in {PENDING, RETRYABLE} then p.(state := WRITING, attempts := p.attempts + 1) else p
  }

  function MarkWritten(p: Pack, version: nat, digest: Hash): Pack {
    if p.state == WRITING then p.(version := Some(version), digest := Some(digest)) else p
  }

  function MarkLocked(p: Pack, until: nat): Pack {
    if p.state == WRITING && p.version.Some? then p.(state := LOCKED, retention := Some(until), committed := Some(until))
    else p
  }

  function MarkFailed(p: Pack, to: PackState): Pack {
    if p.state in {PENDING, WRITING, RETRYABLE, LOCKED} then p.(state := to) else p
  }

  /** archivePack's switch on the row it read. */
  function Dispatch(p: Pack, items: seq<Item>, retain: nat): Option<Pc> {
    match p.state
    case PENDING => Some(Starting(items, retain))
    case RETRYABLE => Some(Starting(items, retain))
    case WRITING => Some(Uploading(items, retain))
    case LOCKED =>
      if p.retention.Some? && p.version.Some? then Some(Holding(items, p.version.value, p.retention.value)) else None
    case _ => None
  }

  function Upload(pid: PackId, d: Drive, p: Pack, objects: map<nat, Object>, now: nat, reply: Reply): Effect
    requires d.pc.Uploading?
  {
    var hash := Sha256(Json(BuildManifest(pid, d.policy, d.pc.items, d.days, now)));
    match reply
    case Stored(v, blob, lock) =>
      if v in objects then Effect(p, objects, Some(Failing(RETRYABLE)))
      else Effect(p, objects[v := Object(pid, blob, lock)], Some(Uploaded(d.pc.items, d.pc.retain, v, hash)))
    case Lost(v, blob, lock) =>
      Effect(p, if v in objects then objects else objects[v := Object(pid, blob, lock)], Some(Failing(RETRYABLE)))
    case _ => Effect(p, objects, Some(Failing(RETRYABLE)))
  }

  /** The next action of the driver of pid (all but MarkVerified). reload is what a reload of the
      window would return. A failing database call ends the drive. */
  function Next(pid: PackId, d: Drive, p: Pack, objects: map<nat, Object>, now: nat,
                reload: (nat, nat) -> seq<Item>, reply: Reply): Effect
  {
    var stop := Effect(p, objects, None);
    match d.pc
    case Uploading(_, _) => Upload(pid, d, p, objects, now, reply)
    case Written(items, retain, v, hash) =>
      if reply == Down || v !in objects then Effect(p, objects, Some(Failing(RETRYABLE)))
      else if Sha256(objects[v].blob) != hash then Effect(p, objects, Some(Failing(QUARANTINED)))
      else Effect(p, objects, Some(Agreed(items, retain, v)))
    case Extending(items, v, until) =>
      if reply == Down || v !in objects then stop
      else Effect(p, if reply.Granted? then objects[v := objects[v].(lock := Raise(objects[v].lock, reply.until))]
                     else objects, Some(Rechecking(items, v, until)))
    case Adopting =>
      if reply == Down then stop else
      if p.state in {VERIFIED, QUARANTINED} then stop
      else if p.state == PENDING then Effect(p, objects, Some(AdoptPending))
      else Effect(p, objects, Some(Reloading(p.first, p.last, p.count)))
    case AdoptPending =>
      if reply == Down then stop else
      if p.state in {PENDING, WRITING, RETRYABLE, LOCKED}
      then Effect(MarkFailed(p, RETRYABLE), objects, Some(Adopting)) else stop
    case Reloading(first, last, count) =>
      if reply == Down then stop else
      var items := reload(first, last);
      if |items| != count || IdOf(d.policy, items) != pid then Effect(p, objects, Some(Failing(QUARANTINED)))
      else Effect(p, objects, Some(Ready(items)))
    case Ready(items) => if reply == Down then stop else Effect(p, objects, Dispatch(p, items, now + d.days * DAY))
    case Starting(items, retain) =>
      if reply == Down then stop else
      if p.state in {PENDING, RETRYABLE}
      then Effect(MarkWriting(p), objects, Some(Uploading(items, retain)))
      else stop
    case Uploaded(items, retain, v, hash) =>
      if reply == Down then stop else
      if p.state == WRITING
      then Effect(MarkWritten(p, v, hash), objects, Some(Written(items, retain, v, hash)))
      else stop
    case Agreed(items, retain, v) =>
      if reply == Down then stop else
      if p.state == WRITING && p.version.Some?
      then Effect(MarkLocked(p, retain), objects, Some(Holding(items, v, retain)))
      else stop
    case Holding(items, v, until) =>
      if reply == Down then stop else
      if v !in objects then stop
      else if Covers(objects[v].lock, until) then Effect(p, objects, Some(Covered(items, v, until)))
      else Effect(p, objects, Some(Extending(items, v, until)))
    case Rechecking(items, v, until) =>
      if reply == Down then stop else
      if v in objects && Covers(objects[v].lock, until) then Effect(p, objects, Some(Covered(items, v, until)))
      else stop
    case Failing(to) => if reply == Down then stop else Effect(MarkFailed(p, to), objects, None)
    case Covered(_, _, _) => stop
  }

  // ---- MarkVerified ----

  /** INSERT ... ON CONFLICT (record_id) DO NOTHING, one row per record. */
  function InsertLinks(links: seq<Link>, pid: PackId, items: seq<Item>, version: nat): seq<Link> {
    if items == [] then links
    else
      var before := InsertLinks(links, pid, items[..|items| - 1], version);
      var i := items[|items| - 1];
      if IsLinked(before, i.id) then before else before + [Link(pid, i.id, version, i.digest)]
  }

  predicate LinkedBy(links: seq<Link>, pid: PackId, id: nat) {
    exists k :: 0 <= k < |links| && links[k].record == id && links[k].pack == pid
  }

  function FlipArchived(recs: map<nat, Rec>, links: seq<Link>, pid: PackId): map<nat, Rec> {
    map id | id in recs :: if LinkedBy(links, pid, id) then recs[id].(archived := true) else recs[id]
  }

  /** The links, the transition and the worm_status flip land together or not at all. */
  function MarkVerified(s: State, pid: PackId, items: seq<Item>, version: nat): State
    requires pid in s.packs
  {
    var p := s.packs[pid];
    if p.state != LOCKED || p.version != Some(version) || p.count != |items| then s
    else
      var links := InsertLinks(s.links, pid, items, version);
      s.(links := links, packs := s.packs[pid := p.(state := VERIFIED)], recs := FlipArchived(s.recs, links, pid))
  }

  // ---- steps ----

  function Claim(s: State, batch: nat, policy: string): State {
    var items := Window(s.recs, s.links, if batch == 0 then 100 else batch);
    if items == [] then s
    else
      var pid := IdOf(policy, items);
      if pid in s.packs then s
      else s.(packs := s.packs[pid := Pack(PENDING, None, None, None, None, |items|,
                                           items[0].id, items[|items| - 1].id, 0)],
              claims := s.claims + {(pid, items)})
  }

  function Act(s: State, pid: PackId, reply: Reply): State
    requires pid in s.packs && pid in s.drives
  {
    var d, p := s.drives[pid], s.packs[pid];
    if d.pc.Covered? then
      var t := if reply == Down then s else MarkVerified(s, pid, d.pc.items, d.pc.version);
      t.(drives := t.drives - {pid})
    else
      var e := Next(pid, d, p, s.objects, s.now, (a: nat, b: nat) => Reload(s.recs, s.links, a, b), reply);
      s.(packs := s.packs[pid := e.pack], objects := e.objects,
         drives := if e.pc.Some? then s.drives[pid := d.(pc := e.pc.value)] else s.drives - {pid})
  }

  /** A refused step changes nothing. */
  function Apply(s: State, step: Step): State {
    match step
    case Tick(ms) => s.(now := s.now + ms)
    case AddRecord(id, r) =>
      if id in s.recs then s else s.(recs := s.recs[id := r.(archived := false)])
    case SetLinked(id, linked) =>
      if id in s.recs then s.(recs := s.recs[id := s.recs[id].(linked := linked)]) else s
    case ClaimWindow(batch, policy) => Claim(s, batch, policy)
    case LockClaimed(pid, items, days) =>
      if (pid, items) in s.claims && pid !in s.drives
      then s.(drives := s.drives[pid := Drive(pid.policy, days, Ready(items))]) else s
    case LockSwept(pid, policy, days) =>
      if pid in s.packs && pid !in s.drives
      then s.(drives := s.drives[pid := Drive(policy, days, Adopting)]) else s
    case Advance(pid, reply) => if pid in s.packs && pid in s.drives then Act(s, pid, reply) else s
    case Crash(pid) => s.(drives := s.drives - {pid})
    case ExtendLedger(pid, until) =>
      if pid in s.packs && s.packs[pid].state in {LOCKED, VERIFIED} && s.packs[pid].retention.Some?
         && s.packs[pid].retention.value < until
      then s.(packs := s.packs[pid := s.packs[pid].(retention := Some(until))]) else s
    case ExtendObject(v, until) =>
      if v in s.objects then s.(objects := s.objects[v := s.objects[v].(lock := Raise(s.objects[v].lock, until))]) else s
  }

  function Run(s: State, steps: seq<Step>): State
    decreases steps
  {
    if steps == [] then s else Run(Apply(s, steps[0]), steps[1..])
  }
}

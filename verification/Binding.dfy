/** The binding store (internal/binding/store.go): its table, idempotency ledger, change records and
    outbox, written by concurrent transactions.  Every statement group between which another
    transaction can commit is one step; an open transaction is where its command has got to. */
module Binding {
  import opened Base
  import opened Scopes

  datatype Life = DRAFT | PUBLISHED | SUSPENDED | DEPRECATED | RETIRED

  /** The content columns, frozen by a trigger once inserted; scope is in canonical form. */
  datatype Content = Content(capability: nat, provider: nat, snapshot: nat, profile: string,
                             environment: string, scope: Scope, priority: nat)

  datatype Row = Row(key: string, content: Content, state: Life, revision: nat, active: bool)

  /** An outbox row: the aggregate, its revision, and the state in its payload. */
  datatype Event = Event(key: string, revision: nat, state: Life)

  datatype Operation = CREATE | PUBLISH | SUSPEND | RESUME | DEPRECATE | RETIRE

  /** A change record. */
  datatype Change = Change(key: string, operation: Operation, revision: nat, actor: string)

  /** expected is the revision the caller has seen; idem is "" when no idempotency key is sent. */
  datatype PublishReq = PublishReq(key: string, expected: nat, content: Content, approval: string,
                                   reason: string, actor: string, idem: string)

  /** What a publish intends: the fields under the request fingerprint. */
  datatype Intent = Intent(key: string, content: Content)

  datatype Applied = Applied(key: string, revision: nat, intent: Intent)

  datatype Tx =
    | Queued(req: PublishReq)                                              // waits for its slot
    | Cleared(req: PublishReq)                                             // holds it: UPDATE next
    | Drafted(req: PublishReq)                                             // holds it: INSERT next
    | Returning(key: string, expected: nat, actor: string, content: Content)   // Resume, waits for the slot
    | Returned(key: string, expected: nat, actor: string, content: Content)    // Resume, holds it: UPDATE next
    | Blind(key: string, expected: nat, actor: string)                     // Resume that found no active row

  datatype State = State(rows: seq<Row>, events: seq<Event>, changes: seq<Change>,
                         ledger: map<string, Applied>, txs: map<nat, Tx>)

  datatype Step =
    | Create(key: string, content: Content, actor: string)
    | BeginPublish(tx: nat, req: PublishReq)
    | BeginResume(tx: nat, key: string, expected: nat, actor: string)
    | TakeSlot(tx: nat)
    | Supersede(tx: nat)
    | InsertFirst(tx: nat)
    | WriteResume(tx: nat)
    | Shift(key: string, expected: nat, from: Life, to: Life, actor: string)
    | Rollback(tx: nat)

  const START := State([], [], [], map[], map[])

  /** ValidTransitions. */
  predicate Legal(from: Life, to: Life) {
    match from
    case DRAFT => to == PUBLISHED
    case PUBLISHED => to in {SUSPENDED, DEPRECATED}
    case SUSPENDED => to in {PUBLISHED, RETIRED}
    case DEPRECATED => to == RETIRED
    case RETIRED => false
  }

  function OperationOf(to: Life): Operation {
    match to
    case SUSPENDED => SUSPEND
    case PUBLISHED => RESUME
    case DEPRECATED => DEPRECATE
    case _ => RETIRE
  }

  predicate Gate(req: PublishReq) { req.approval != "" && req.reason != "" && req.actor != "" }

  // ---- reading the table ----

  /** SELECT ... WHERE binding_key = key AND is_active; |rows| when there is none. */
  function ActiveOf(rows: seq<Row>, key: string): (i: nat)
    ensures i <= |rows| && (i < |rows| ==> rows[i].key == key && rows[i].active)
    decreases |rows|
  {
    if rows == [] then 0
    else
      var i := ActiveOf(rows[..|rows| - 1], key);
      if i < |rows| - 1 then i
      else if rows[|rows| - 1].key == key && rows[|rows| - 1].active then |rows| - 1
      else |rows|
  }

  /** ORDER BY revision DESC LIMIT 1; |rows| when the key is unknown. */
  function LatestOf(rows: seq<Row>, key: string): (i: nat)
    ensures i <= |rows| && (i < |rows| ==> rows[i].key == key)
    decreases |rows|
  {
    if rows == [] then 0
    else
      var n := |rows| - 1;
      var i := LatestOf(rows[..n], key);
      if rows[n].key != key then (if i < n then i else |rows|)
      else if i == n || rows[n].revision > rows[i].revision then n
      else i
  }

  predicate Live(r: Row) { r.active && r.state == PUBLISHED }

  function SlotOf(c: Content): (string, nat) { (c.environment, c.priority) }

  /** A row the overlap guard looks at, and refuses. */
  ghost predicate Clashes(r: Row, key: string, c: Content) {
    Live(r) && r.key != key && SlotOf(r.content) == SlotOf(c) && Overlaps(c.scope, r.content.scope)
  }

  ghost predicate NoClash(rows: seq<Row>, key: string, c: Content) {
    forall i :: 0 <= i < |rows| ==> !Clashes(rows[i], key, c)
  }

  /** The (environment, priority) whose advisory lock a transaction holds until it ends. */
  function Held(tx: Tx): Option<(string, nat)> {
    match tx
    case Cleared(req) => Some(SlotOf(req.content))
    case Drafted(req) => Some(SlotOf(req.content))
    case Returned(_, _, _, content) => Some(SlotOf(content))
    case _ => None
  }

  predicate SlotFree(txs: map<nat, Tx>, c: Content) {
    forall t :: t in txs ==> Held(txs[t]) != Some(SlotOf(c))
  }

  /** The two unique constraints an inserted or revived row can hit. */
  predicate Taken(rows: seq<Row>, key: string, revision: nat) {
    exists i :: 0 <= i < |rows| && rows[i].key == key && rows[i].revision == revision
  }

  predicate Twin(r: Row, c: Content) { Live(r) && SlotOf(r.content) == SlotOf(c) && r.content.scope == c.scope }

  predicate TwinLive(rows: seq<Row>, c: Content) { exists i :: 0 <= i < |rows| && Twin(rows[i], c) }

  // ---- writing ----

  function Deactivate(rows: seq<Row>, i: nat): seq<Row>
    requires i <= |rows|
  {
    if i == |rows| then rows else rows[i := rows[i].(active := false)]
  }

  /** The INSERT and everything after it, or a rolled-back transaction when a unique constraint or
      the ledger's primary key objects.  prior is the row superseded, if any. */
  ghost function Publish(s: State, tx: nat, req: PublishReq, prior: nat): State
    requires prior <= |s.rows|
  {
    var rows, revision := Deactivate(s.rows, prior), req.expected + 1;
    if Taken(rows, req.key, revision) || TwinLive(rows, req.content) || ActiveOf(rows, req.key) < |rows|
       || (req.idem != "" && req.idem in s.ledger)
    then s.(txs := s.txs - {tx})
    else State(rows + [Row(req.key, req.content, PUBLISHED, revision, true)],
               s.events + [Event(req.key, revision, PUBLISHED)],
               s.changes + [Change(req.key, PUBLISH, revision, req.actor)],
               if req.idem == "" then s.ledger
               else s.ledger[req.idem := Applied(req.key, revision, Intent(req.key, req.content))],
               s.txs - {tx})
  }

  /** The row the guarded UPDATE of a lifecycle change finds. */
  predicate Hits(r: Row, expected: nat, from: Life) { r.active && r.revision == expected && r.state == from }

  /** UPDATE ... SET state, revision + 1, its change record and its event; a miss changes nothing. */
  ghost function Move(s: State, key: string, expected: nat, from: Life, to: Life, actor: string): State {
    var i := ActiveOf(s.rows, key);
    if i == |s.rows| || !Hits(s.rows[i], expected, from) || Taken(s.rows, key, expected + 1)
       || (to == PUBLISHED && TwinLive(s.rows, s.rows[i].content))
    then s
    else s.(rows := s.rows[i := s.rows[i].(state := to, revision := expected + 1)],
            events := s.events + [Event(key, expected + 1, to)],
            changes := s.changes + [Change(key, OperationOf(to), expected + 1, actor)])
  }

  // ---- steps ----

  ghost function Begin(s: State, tx: nat, req: PublishReq): State {
    if tx in s.txs || !Gate(req) || (req.idem != "" && req.idem in s.ledger) then s
    else s.(txs := s.txs[tx := Queued(req)])
  }

  ghost function StartResume(s: State, tx: nat, key: string, expected: nat, actor: string): State {
    var i := ActiveOf(s.rows, key);
    if tx in s.txs || actor == "" then s
    else if i == |s.rows| then s.(txs := s.txs[tx := Blind(key, expected, actor)])
    else if s.rows[i].revision != expected then s
    else s.(txs := s.txs[tx := Returning(key, expected, actor, s.rows[i].content)])
  }

  function KeyOf(tx: Tx): string {
    match tx
    case Queued(req) => req.key
    case Cleared(req) => req.key
    case Drafted(req) => req.key
    case Returning(key, _, _, _) => key
    case Returned(key, _, _, _) => key
    case Blind(key, _, _) => key
  }

  /** overlapGuard: waits for the lock, then rejects on an overlapping live sibling. */
  ghost function Guard(s: State, tx: nat): State {
    if tx !in s.txs || !(s.txs[tx].Queued? || s.txs[tx].Returning?) then s
    else
      var t := s.txs[tx];
      var c := if t.Queued? then t.req.content else t.content;
      if !SlotFree(s.txs, c) then s
      else if !NoClash(s.rows, KeyOf(t), c) then s.(txs := s.txs - {tx})
      else s.(txs := s.txs[tx := if t.Queued? then Cleared(t.req) else Returned(t.key, t.expected, t.actor, t.content)])
  }

  /** Publish's UPDATE and, when it misses, the arbitration against the latest row. */
  ghost function Arbitrate(s: State, tx: nat): State {
    if tx !in s.txs || !s.txs[tx].Cleared? then s
    else
      var req := s.txs[tx].req;
      var i, l := ActiveOf(s.rows, req.key), LatestOf(s.rows, req.key);
      if i < |s.rows| && Hits(s.rows[i], req.expected, PUBLISHED) then Publish(s, tx, req, i)
      else if l < |s.rows| && s.rows[l].revision == req.expected && !s.rows[l].active && s.rows[l].state == DRAFT
      then s.(txs := s.txs[tx := Drafted(req)])
      else s.(txs := s.txs - {tx})
  }

  /** A refused step changes nothing but the set of open transactions. */
  ghost function Apply(s: State, step: Step): State {
    match step
    case Create(key, c, actor) =>
      if key == "" || c.environment == "" || actor == "" || Taken(s.rows, key, 1) then s
      else s.(rows := s.rows + [Row(key, c, DRAFT, 1, false)], changes := s.changes + [Change(key, CREATE, 1, actor)])
    case BeginPublish(tx, req) => Begin(s, tx, req)
    case BeginResume(tx, key, expected, actor) => StartResume(s, tx, key, expected, actor)
    case TakeSlot(tx) => Guard(s, tx)
    case Supersede(tx) => Arbitrate(s, tx)
    case InsertFirst(tx) =>
      if tx !in s.txs || !s.txs[tx].Drafted? then s else Publish(s, tx, s.txs[tx].req, |s.rows|)
    case WriteResume(tx) =>
      if tx !in s.txs || !(s.txs[tx].Returned? || s.txs[tx].Blind?) then s
      else
        var t := s.txs[tx];
        var m := Move(s, t.key, t.expected, SUSPENDED, PUBLISHED, t.actor);
        m.(txs := m.txs - {tx})
    case Shift(key, expected, from, to, actor) =>
      if !Legal(from, to) || to == PUBLISHED || actor == "" then s else Move(s, key, expected, from, to, actor)
    case Rollback(tx) => s.(txs := s.txs - {tx})
  }

  ghost function Run(s: State, steps: seq<Step>): State
    decreases steps
  {
    if steps == [] then s else Run(Apply(s, steps[0]), steps[1..])
  }

  lemma {:induction false} RunConcat(s: State, a: seq<Step>, b: seq<Step>)
    ensures Run(s, a + b) == Run(Run(s, a), b)
    decreases a
  {
    if a == [] {
      assert a + b == b;
    } else {
      assert (a + b)[0] == a[0] && (a + b)[1..] == a[1..] + b;
      RunConcat(Apply(s, a[0]), a[1..], b);
    }
  }

  lemma RunOne(s: State, step: Step)
    ensures Run(s, [step]) == Apply(s, step)
  {
    assert Run(Apply(s, step), [step][1..]) == Apply(s, step);
  }
}

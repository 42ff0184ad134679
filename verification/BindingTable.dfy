/** What every run of the binding store keeps about its table and its event stream, whatever the
    interleaving: one active row per key, at the latest revision, and one event per revision. */
module BindingTable {
  import opened Base
  import opened Scopes
  import opened Binding

  // ---- reading the table ----

  ghost predicate HasActive(rows: seq<Row>, key: string) {
    exists i :: 0 <= i < |rows| && rows[i].key == key && rows[i].active
  }

  lemma {:induction false} ActiveOfFinds(rows: seq<Row>, key: string)
    ensures ActiveOf(rows, key) < |rows| <==> HasActive(rows, key)
    decreases |rows|
  {
    if rows != [] {
      var init := rows[..|rows| - 1];
      ActiveOfFinds(init, key);
      if i :| 0 <= i < |rows| && rows[i].key == key && rows[i].active && i < |init| {
        assert init[i].key == key && init[i].active;
      }
    }
  }

  lemma {:induction false} LatestOfFinds(rows: seq<Row>, key: string)
    ensures forall j :: 0 <= j < |rows| && rows[j].key == key ==>
              LatestOf(rows, key) < |rows| && rows[j].revision <= rows[LatestOf(rows, key)].revision
    decreases |rows|
  {
    if rows != [] {
      var n := |rows| - 1;
      LatestOfFinds(rows[..n], key);
      forall j | 0 <= j < |rows| && rows[j].key == key
        ensures LatestOf(rows, key) < |rows| && rows[j].revision <= rows[LatestOf(rows, key)].revision
      {
        if j < n { assert rows[..n][j] == rows[j]; }
      }
    }
  }

  // ---- the table ----

  ghost predicate RowOk(r: Row) {
    && r.revision >= 1
    && (r.state == DRAFT <==> r.revision == 1)
    && (r.active ==> r.revision >= 2)
    && (!r.active ==> r.state in {DRAFT, PUBLISHED})
  }

  /** Of two rows: revisions differ, and an active row is ahead. */
  ghost predicate Ranked(a: Row, b: Row) {
    a.key == b.key ==> a.revision != b.revision && (a.active ==> b.revision < a.revision)
  }

  ghost predicate AllRanked(rows: seq<Row>) {
    forall i, j :: 0 <= i < |rows| && 0 <= j < |rows| && i != j ==> Ranked(rows[i], rows[j])
  }

  /** A binding past its draft has an active row; every binding still has its draft. */
  ghost predicate Led(r: Row, rows: seq<Row>) {
    (r.revision >= 2 ==> HasActive(rows, r.key)) && Taken(rows, r.key, 1)
  }

  ghost predicate TableOk(rows: seq<Row>) {
    && (forall i :: 0 <= i < |rows| ==> RowOk(rows[i]) && Led(rows[i], rows))
    && AllRanked(rows)
  }

  ghost predicate DraftsOk(rows: seq<Row>, txs: map<nat, Tx>) {
    forall t :: t in txs && txs[t].Drafted? ==> txs[t].req.expected == 1 && Taken(rows, txs[t].req.key, 1)
  }

  /** Row a became row b. */
  ghost predicate RowMoves(a: Row, b: Row) {
    || b == a
    || (Live(a) && b == a.(active := false))
    || (a.active && Legal(a.state, b.state) && b == a.(state := b.state, revision := a.revision + 1))
  }

  ghost predicate Moves(a: seq<Row>, b: seq<Row>) {
    |a| <= |b| && forall i :: 0 <= i < |a| ==> RowMoves(a[i], b[i])
  }

  lemma OneActive(rows: seq<Row>, i: nat)
    requires AllRanked(rows) && i < |rows| && rows[i].active
    ensures ActiveOf(rows, rows[i].key) == i
  {
    ActiveOfFinds(rows, rows[i].key);
  }

  // ---- the three writes ----

  lemma DraftKeepsTable(rows: seq<Row>, key: string, c: Content)
    requires TableOk(rows) && !Taken(rows, key, 1)
    ensures TableOk(rows + [Row(key, c, DRAFT, 1, false)])
  {
    var t := rows + [Row(key, c, DRAFT, 1, false)];
    forall i | 0 <= i < |rows| ensures rows[i].key != key { assert Led(rows[i], rows); }
    forall i | 0 <= i < |t| ensures RowOk(t[i]) && Led(t[i], t) {
      if i < |rows| {
        assert RowOk(rows[i]) && Led(rows[i], rows);
        AppendKeepsLed(rows[i], rows, t);
      } else {
        assert t[i].key == key && t[i].revision == 1;
      }
    }
    forall i, j | 0 <= i < |t| && 0 <= j < |t| && i != j ensures Ranked(t[i], t[j]) {
      if i < |rows| && j < |rows| { assert Ranked(rows[i], rows[j]); }
    }
  }

  lemma AppendKeepsLed(r: Row, rows: seq<Row>, t: seq<Row>)
    requires Led(r, rows) && rows <= t
    ensures Led(r, t)
  {
    if r.revision >= 2 {
      var i :| 0 <= i < |rows| && rows[i].key == r.key && rows[i].active;
      assert t[i].key == r.key && t[i].active;
    }
    var k :| 0 <= k < |rows| && rows[k].key == r.key && rows[k].revision == 1;
    assert t[k].key == r.key && t[k].revision == 1;
  }

  /** Nothing is published yet, or the row at prior is the live one being superseded. */
  ghost predicate Publishable(rows: seq<Row>, key: string, expected: nat, prior: nat) {
    || (prior < |rows| && rows[prior].key == key && Hits(rows[prior], expected, PUBLISHED))
    || (prior == |rows| && expected == 1 && !HasActive(rows, key) && Taken(rows, key, 1))
  }

  /** Every other row of a publishable binding is at or below the expected revision. */
  lemma PublishIsAhead(rows: seq<Row>, key: string, expected: nat, prior: nat, j: nat)
    requires TableOk(rows) && Publishable(rows, key, expected, prior) && j < |rows| && rows[j].key == key
    ensures rows[j].revision <= expected && (j != prior ==> !rows[j].active)
  {
    assert RowOk(rows[j]) && Led(rows[j], rows);
    if prior < |rows| && j != prior { assert Ranked(rows[prior], rows[j]) && Ranked(rows[j], rows[prior]); }
  }

  lemma PublishKeepsTable(rows: seq<Row>, key: string, c: Content, expected: nat, prior: nat)
    requires TableOk(rows) && Publishable(rows, key, expected, prior)
    ensures TableOk(Deactivate(rows, prior) + [Row(key, c, PUBLISHED, expected + 1, true)])
  {
    hide RowOk, Led, AllRanked;
    var t := Deactivate(rows, prior) + [Row(key, c, PUBLISHED, expected + 1, true)];
    PublishKeepsRanks(rows, key, c, expected, prior);
    NewRowLed(rows, key, c, expected, prior);
    forall i | 0 <= i < |rows| ensures RowOk(t[i]) && Led(t[i], t) {
      PublishKeepsLed(rows, key, c, expected, prior, i);
    }
  }

  lemma PublishKeepsRanks(rows: seq<Row>, key: string, c: Content, expected: nat, prior: nat)
    requires TableOk(rows) && Publishable(rows, key, expected, prior)
    ensures AllRanked(Deactivate(rows, prior) + [Row(key, c, PUBLISHED, expected + 1, true)])
  {
    hide RowOk, Led;
    var n, t := |rows|, Deactivate(rows, prior) + [Row(key, c, PUBLISHED, expected + 1, true)];
    forall i, j | 0 <= i < |t| && 0 <= j < |t| && i != j ensures Ranked(t[i], t[j]) {
      if i < n && j < n {
        assert Ranked(rows[i], rows[j]);
      } else if t[i].key == t[j].key {
        PublishIsAhead(rows, key, expected, prior, if i < n then i else j);
      }
    }
  }

  lemma BaseOf(rows: seq<Row>, key: string, expected: nat, prior: nat)
    requires TableOk(rows) && Publishable(rows, key, expected, prior)
    ensures Taken(rows, key, 1) && prior <= |rows| && expected >= 1
    ensures prior < |rows| ==> rows[prior].key == key && Live(rows[prior]) && RowOk(rows[prior])
  {
    if prior < |rows| { assert Led(rows[prior], rows) && RowOk(rows[prior]); }
  }

  lemma BaseStays(rows: seq<Row>, key: string, k: string, c: Content, revision: nat, prior: nat)
    requires prior <= |rows| && (prior < |rows| ==> rows[prior].active && RowOk(rows[prior]))
    requires Taken(rows, k, 1)
    ensures Taken(Deactivate(rows, prior) + [Row(key, c, PUBLISHED, revision, true)], k, 1)
  {
    var t := Deactivate(rows, prior) + [Row(key, c, PUBLISHED, revision, true)];
    var i :| 0 <= i < |rows| && rows[i].key == k && rows[i].revision == 1;
    assert t[i].key == k && t[i].revision == 1;
  }

  lemma NewRowLed(rows: seq<Row>, key: string, c: Content, expected: nat, prior: nat)
    requires TableOk(rows) && Publishable(rows, key, expected, prior)
    ensures var r := Row(key, c, PUBLISHED, expected + 1, true);
            RowOk(r) && Led(r, Deactivate(rows, prior) + [r])
  {
    BaseOf(rows, key, expected, prior);
    BaseStays(rows, key, key, c, expected + 1, prior);
    var t := Deactivate(rows, prior) + [Row(key, c, PUBLISHED, expected + 1, true)];
    assert t[|rows|].active && t[|rows|].key == key;
  }

  lemma PublishKeepsLed(rows: seq<Row>, key: string, c: Content, expected: nat, prior: nat, i: nat)
    requires TableOk(rows) && Publishable(rows, key, expected, prior) && i < |rows|
    ensures var t := Deactivate(rows, prior) + [Row(key, c, PUBLISHED, expected + 1, true)];
            RowOk(t[i]) && Led(t[i], t)
  {
    var t := Deactivate(rows, prior) + [Row(key, c, PUBLISHED, expected + 1, true)];
    assert RowOk(rows[i]) && Led(rows[i], rows);
    BaseOf(rows, key, expected, prior);
    BaseStays(rows, key, rows[i].key, c, expected + 1, prior);
    if rows[i].revision >= 2 {
      if rows[i].key == key {
        assert t[|rows|].active && t[|rows|].key == key;
      } else {
        var k :| 0 <= k < |rows| && rows[k].key == rows[i].key && rows[k].active;
        assert t[k].key == rows[i].key && t[k].active;
      }
    }
  }

  lemma MoveKeepsLed(rows: seq<Row>, i: nat, to: Life, j: nat)
    requires TableOk(rows) && i < |rows| && rows[i].active && to != DRAFT && j < |rows|
    ensures var t := rows[i := rows[i].(state := to, revision := rows[i].revision + 1)]; RowOk(t[j]) && Led(t[j], t)
  {
    hide AllRanked;
    var t := rows[i := rows[i].(state := to, revision := rows[i].revision + 1)];
    assert RowOk(rows[i]) && RowOk(rows[j]) && Led(rows[j], rows);
    var k :| 0 <= k < |rows| && rows[k].key == rows[j].key && rows[k].revision == 1;
    assert RowOk(rows[k]) && t[k] == rows[k];
    if t[j].revision >= 2 {
      var a :| 0 <= a < |rows| && rows[a].key == rows[j].key && rows[a].active;
      assert t[a].key == rows[j].key && t[a].active;
    }
  }

  lemma MoveKeepsTable(rows: seq<Row>, i: nat, to: Life)
    requires TableOk(rows) && i < |rows| && rows[i].active && to != DRAFT
    ensures TableOk(rows[i := rows[i].(state := to, revision := rows[i].revision + 1)])
  {
    hide RowOk, Led;
    var t := rows[i := rows[i].(state := to, revision := rows[i].revision + 1)];
    forall j | 0 <= j < |t| ensures RowOk(t[j]) && Led(t[j], t) { MoveKeepsLed(rows, i, to, j); }
    forall j, k | 0 <= j < |t| && 0 <= k < |t| && j != k ensures Ranked(t[j], t[k]) {
      assert Ranked(rows[j], rows[k]) && Ranked(rows[k], rows[j]);
    }
  }

  // ---- steps ----

  /** What a step did to the table, the stream and the trail. */
  datatype Outcome =
    | Refused                                            // nothing
    | Created(key: string, content: Content, actor: string)
    | Superseded(req: PublishReq, prior: nat)            // a publish; prior == |rows| the first time
    | Shifted(row: nat, to: Life, actor: string)

  ghost predicate Did(s: State, t: State, o: Outcome) {
    match o
    case Refused => t.rows == s.rows && t.events == s.events && t.changes == s.changes && t.ledger == s.ledger
    case Created(key, c, actor) =>
      && !Taken(s.rows, key, 1) && t.events == s.events && t.ledger == s.ledger
      && t.rows == s.rows + [Row(key, c, DRAFT, 1, false)]
      && t.changes == s.changes + [Change(key, CREATE, 1, actor)]
    case Superseded(req, prior) =>
      && Publishable(s.rows, req.key, req.expected, prior) && (req.idem != "" ==> req.idem !in s.ledger)
      && t.rows == Deactivate(s.rows, prior) + [Row(req.key, req.content, PUBLISHED, req.expected + 1, true)]
      && t.events == s.events + [Event(req.key, req.expected + 1, PUBLISHED)]
      && t.changes == s.changes + [Change(req.key, PUBLISH, req.expected + 1, req.actor)]
      && t.ledger == (if req.idem == "" then s.ledger
                      else s.ledger[req.idem := Applied(req.key, req.expected + 1, Intent(req.key, req.content))])
    case Shifted(i, to, actor) =>
      && i < |s.rows| && s.rows[i].active && Legal(s.rows[i].state, to) && to != DRAFT
      && t.rows == s.rows[i := s.rows[i].(state := to, revision := s.rows[i].revision + 1)]
      && t.events == s.events + [Event(s.rows[i].key, s.rows[i].revision + 1, to)]
      && t.changes == s.changes + [Change(s.rows[i].key, OperationOf(to), s.rows[i].revision + 1, actor)]
      && t.ledger == s.ledger
  }

  lemma PublishDid(s: State, tx: nat, req: PublishReq, prior: nat) returns (o: Outcome)
    requires Publishable(s.rows, req.key, req.expected, prior)
    ensures Did(s, Publish(s, tx, req, prior), o) && o in {Refused, Superseded(req, prior)}
  {
    o := if |Publish(s, tx, req, prior).rows| == |s.rows| then Refused else Superseded(req, prior);
  }

  lemma MoveDid(s: State, key: string, expected: nat, from: Life, to: Life, actor: string) returns (o: Outcome)
    requires Legal(from, to)
    ensures Did(s, Move(s, key, expected, from, to, actor), o)
    ensures o == Refused || o == Shifted(ActiveOf(s.rows, key), to, actor)
  {
    var t := Move(s, key, expected, from, to, actor);
    o := if |t.events| == |s.events| then Refused else Shifted(ActiveOf(s.rows, key), to, actor);
  }

  lemma ArbitrateDid(s: State, tx: nat) returns (o: Outcome)
    ensures Did(s, Arbitrate(s, tx), o)
  {
    hide Publish;
    o := Refused;
    if tx in s.txs && s.txs[tx].Cleared? {
      var req := s.txs[tx].req;
      var i := ActiveOf(s.rows, req.key);
      if i < |s.rows| && Hits(s.rows[i], req.expected, PUBLISHED) {
        o := PublishDid(s, tx, req, i);
      }
    }
  }

  /** A first publish whose draft row has meanwhile been published is refused by the constraints. */
  lemma InsertFirstDid(s: State, tx: nat) returns (o: Outcome)
    requires TableOk(s.rows) && tx in s.txs && s.txs[tx].Drafted? && s.txs[tx].req.expected == 1
    requires Taken(s.rows, s.txs[tx].req.key, 1)
    ensures Did(s, Publish(s, tx, s.txs[tx].req, |s.rows|), o)
    ensures o in {Refused, Superseded(s.txs[tx].req, |s.rows|)}
  {
    var req := s.txs[tx].req;
    ActiveOfFinds(s.rows, req.key);
    if HasActive(s.rows, req.key) {
      o := Refused;
    } else {
      o := PublishDid(s, tx, req, |s.rows|);
    }
  }

  lemma StepDid(s: State, step: Step) returns (o: Outcome)
    requires TableOk(s.rows) && DraftsOk(s.rows, s.txs)
    ensures Did(s, Apply(s, step), o)
  {
    hide Publish, Move, Arbitrate, Begin, StartResume, Guard;
    o := Refused;
    match step {
      case Create(key, c, actor) =>
        if key != "" && c.environment != "" && actor != "" && !Taken(s.rows, key, 1) { o := Created(key, c, actor); }
      case Supersede(tx) => o := ArbitrateDid(s, tx);
      case InsertFirst(tx) =>
        if tx in s.txs && s.txs[tx].Drafted? { o := InsertFirstDid(s, tx); }
      case WriteResume(tx) =>
        if tx in s.txs && (s.txs[tx].Returned? || s.txs[tx].Blind?) {
          o := MoveDid(s, s.txs[tx].key, s.txs[tx].expected, SUSPENDED, PUBLISHED, s.txs[tx].actor);
        }
      case Shift(key, expected, from, to, actor) =>
        if Legal(from, to) && to != PUBLISHED && actor != "" { o := MoveDid(s, key, expected, from, to, actor); }
      case _ => OpeningWritesNothing(s, step);
    }
  }

  /** Opening, queueing and rolling back write no table; in particular a publish whose idempotency key
      is already in the ledger writes nothing at all. */
  lemma OpeningWritesNothing(s: State, step: Step)
    requires step.BeginPublish? || step.BeginResume? || step.TakeSlot? || step.Rollback?
    ensures Did(s, Apply(s, step), Refused)
    ensures step.BeginPublish? && step.req.idem != "" && step.req.idem in s.ledger ==> Apply(s, step) == s
  {
  }

  lemma DidKeepsTable(s: State, t: State, o: Outcome)
    requires TableOk(s.rows) && Did(s, t, o)
    ensures TableOk(t.rows)
  {
    hide TableOk;
    match o {
      case Refused =>
      case Created(key, c, _) => DraftKeepsTable(s.rows, key, c);
      case Superseded(req, prior) => PublishKeepsTable(s.rows, req.key, req.content, req.expected, prior);
      case Shifted(i, to, _) => MoveKeepsTable(s.rows, i, to);
    }
  }

  /** Every row keeps its key and content and moves along the lifecycle matrix. */
  lemma DidMoves(s: State, t: State, o: Outcome)
    requires Did(s, t, o)
    ensures Moves(s.rows, t.rows)
  {
  }

  lemma DraftTakenStays(s: State, t: State, o: Outcome, key: string)
    requires TableOk(s.rows) && Did(s, t, o) && Taken(s.rows, key, 1)
    ensures Taken(t.rows, key, 1)
  {
    DidMoves(s, t, o);
    var i :| 0 <= i < |s.rows| && s.rows[i].key == key && s.rows[i].revision == 1;
    assert RowOk(s.rows[i]) && RowMoves(s.rows[i], t.rows[i]);
  }

  lemma WritesKeepTxs(s: State, key: string, expected: nat, from: Life, to: Life, actor: string)
    ensures Move(s, key, expected, from, to, actor).txs == s.txs
  {
  }

  lemma PublishTxs(s: State, tx: nat, req: PublishReq, prior: nat)
    requires prior <= |s.rows|
    ensures Publish(s, tx, req, prior).txs == s.txs - {tx}
  {
  }

  lemma ArbitrateFindsDraft(s: State, tx: nat)
    requires TableOk(s.rows) && tx in Arbitrate(s, tx).txs && Arbitrate(s, tx).txs[tx].Drafted? && s.txs[tx].Cleared?
    ensures var req := Arbitrate(s, tx).txs[tx].req; req.expected == 1 && Taken(s.rows, req.key, 1)
  {
    hide Publish;
    var req := s.txs[tx].req;
    var i, l := ActiveOf(s.rows, req.key), LatestOf(s.rows, req.key);
    if i < |s.rows| && Hits(s.rows[i], req.expected, PUBLISHED) {
      PublishTxs(s, tx, req, i);
    } else {
      assert RowOk(s.rows[l]);
    }
  }

  /** A transaction reaches Drafted only by finding its binding's draft row. */
  lemma NewDraftsAreDrafts(s: State, step: Step, u: nat)
    requires TableOk(s.rows) && u in Apply(s, step).txs && Apply(s, step).txs[u].Drafted?
    requires u !in s.txs || s.txs[u] != Apply(s, step).txs[u]
    ensures Apply(s, step).txs[u].req.expected == 1 && Taken(s.rows, Apply(s, step).txs[u].req.key, 1)
  {
    hide TableOk, Move, Publish, Arbitrate, Taken;
    match step {
      case WriteResume(tx) =>
        if tx in s.txs && (s.txs[tx].Returned? || s.txs[tx].Blind?) {
          WritesKeepTxs(s, s.txs[tx].key, s.txs[tx].expected, SUSPENDED, PUBLISHED, s.txs[tx].actor);
        }
      case Shift(key, expected, from, to, actor) => WritesKeepTxs(s, key, expected, from, to, actor);
      case InsertFirst(tx) => if tx in s.txs && s.txs[tx].Drafted? { PublishTxs(s, tx, s.txs[tx].req, |s.rows|); }
      case Supersede(tx) => OnlyItsOwn(s, tx, u); ArbitrateFindsDraft(s, tx);
      case _ =>
    }
  }

  lemma OnlyItsOwn(s: State, tx: nat, u: nat)
    requires u in Arbitrate(s, tx).txs && (u !in s.txs || s.txs[u] != Arbitrate(s, tx).txs[u])
    ensures u == tx && tx in s.txs && s.txs[tx].Cleared?
  {
  }

  lemma StepKeepsDrafts(s: State, step: Step, o: Outcome)
    requires TableOk(s.rows) && DraftsOk(s.rows, s.txs) && Did(s, Apply(s, step), o)
    ensures DraftsOk(Apply(s, step).rows, Apply(s, step).txs)
  {
    hide TableOk, Apply, Did, Taken;
    var t := Apply(s, step);
    forall u | u in t.txs && t.txs[u].Drafted?
      ensures t.txs[u].req.expected == 1 && Taken(t.rows, t.txs[u].req.key, 1)
    {
      if u !in s.txs || s.txs[u] != t.txs[u] { NewDraftsAreDrafts(s, step, u); }
      DraftTakenStays(s, t, o, t.txs[u].req.key);
    }
  }

  // ---- the event stream ----

  /** The outbox rows of one binding, in order. */
  function Of(events: seq<Event>, key: string): seq<Event>
    decreases |events|
  {
    if events == [] then []
    else
      var n := |events| - 1;
      if events[n].key == key then Of(events[..n], key) + [events[n]] else Of(events[..n], key)
  }

  lemma OfAppend(events: seq<Event>, e: Event, key: string)
    ensures Of(events + [e], key) == if e.key == key then Of(events, key) + [e] else Of(events, key)
  {
    assert (events + [e])[..|events|] == events;
  }

  /** The active row of the binding is at this revision in this state. */
  ghost predicate AtTip(rows: seq<Row>, key: string, revision: nat, state: Life) {
    exists i :: 0 <= i < |rows| && rows[i] == Row(key, rows[i].content, state, revision, true)
  }

  /** The stream counts 2, 3, ... without a gap and ends at the active row. */
  ghost predicate Counts(es: seq<Event>) { forall k :: 0 <= k < |es| ==> es[k].revision == k + 2 }

  ghost predicate StreamOk(rows: seq<Row>, es: seq<Event>, key: string) {
    && Counts(es)
    && (es == [] ==> !HasActive(rows, key))
    && (es != [] ==> AtTip(rows, key, |es| + 1, es[|es| - 1].state))
  }

  ghost predicate StreamsOk(rows: seq<Row>, events: seq<Event>) {
    forall key :: StreamOk(rows, Of(events, key), key)
  }

  lemma CreatedKeepsStream(rows: seq<Row>, es: seq<Event>, key: string, r: Row)
    requires StreamOk(rows, es, key) && !r.active
    ensures StreamOk(rows + [r], es, key)
  {
    var t := rows + [r];
    if es != [] {
      var i :| 0 <= i < |rows| && rows[i] == Row(key, rows[i].content, es[|es| - 1].state, |es| + 1, true);
      assert t[i] == rows[i];
    }
  }

  /** Writes to other bindings' rows leave a stream as it was. */
  lemma OthersKeepStream(rows: seq<Row>, t: seq<Row>, es: seq<Event>, key: string)
    requires StreamOk(rows, es, key) && |rows| <= |t|
    requires forall i :: 0 <= i < |rows| && rows[i].key == key ==> t[i] == rows[i]
    requires forall i :: 0 <= i < |rows| && t[i].key == key ==> t[i] == rows[i]
    requires forall i :: |rows| <= i < |t| ==> t[i].key != key
    ensures StreamOk(t, es, key)
  {
    if es != [] {
      var i :| 0 <= i < |rows| && rows[i] == Row(key, rows[i].content, es[|es| - 1].state, |es| + 1, true);
      assert t[i] == rows[i];
    }
  }

  lemma TipIsActive(rows: seq<Row>, es: seq<Event>, i: nat)
    requires AllRanked(rows) && i < |rows| && rows[i].active && StreamOk(rows, es, rows[i].key)
    ensures es != [] && rows[i].revision == |es| + 1
  {
    assert HasActive(rows, rows[i].key);
    var k :| 0 <= k < |rows| && rows[k] == Row(rows[i].key, rows[k].content, es[|es| - 1].state, |es| + 1, true);
    OneActive(rows, i);
    OneActive(rows, k);
  }

  lemma SupersededKeepsStream(s: State, t: State, req: PublishReq, prior: nat, key: string)
    requires TableOk(s.rows) && StreamsOk(s.rows, s.events) && Did(s, t, Superseded(req, prior))
    ensures StreamOk(t.rows, Of(t.events, key), key)
  {
    hide TableOk;
    var es, e := Of(s.events, key), Event(req.key, req.expected + 1, PUBLISHED);
    OfAppend(s.events, e, key);
    assert StreamOk(s.rows, es, key);
    if key != req.key {
      OthersKeepStream(s.rows, t.rows, es, key);
    } else {
      FirstOrNext(s, req, prior);
      assert t.rows[|s.rows|] == Row(key, req.content, PUBLISHED, |es| + 2, true);
    }
  }

  lemma FirstOrNext(s: State, req: PublishReq, prior: nat)
    requires TableOk(s.rows) && StreamsOk(s.rows, s.events) && Publishable(s.rows, req.key, req.expected, prior)
    ensures req.expected == |Of(s.events, req.key)| + 1
  {
    var es := Of(s.events, req.key);
    assert StreamOk(s.rows, es, req.key);
    if prior < |s.rows| {
      TipIsActive(s.rows, es, prior);
    }
  }

  lemma ShiftedKeepsStream(s: State, t: State, i: nat, to: Life, actor: string, key: string)
    requires TableOk(s.rows) && StreamsOk(s.rows, s.events) && Did(s, t, Shifted(i, to, actor))
    ensures StreamOk(t.rows, Of(t.events, key), key)
  {
    hide TableOk;
    var es, r := Of(s.events, key), s.rows[i];
    OfAppend(s.events, Event(r.key, r.revision + 1, to), key);
    assert StreamOk(s.rows, es, key);
    if key != r.key {
      OthersKeepStream(s.rows, t.rows, es, key);
    } else {
      assert AllRanked(s.rows) by { TableRanked(s.rows); }
      TipIsActive(s.rows, es, i);
      assert t.rows[i] == Row(key, r.content, to, |es| + 2, true);
    }
  }

  lemma TableRanked(rows: seq<Row>)
    requires TableOk(rows)
    ensures AllRanked(rows)
  {
  }

  lemma DidKeepsStreams(s: State, t: State, o: Outcome)
    requires TableOk(s.rows) && StreamsOk(s.rows, s.events) && Did(s, t, o)
    ensures StreamsOk(t.rows, t.events)
  {
    forall key ensures StreamOk(t.rows, Of(t.events, key), key) {
      assert StreamOk(s.rows, Of(s.events, key), key);
      match o {
        case Refused =>
        case Created(k, c, _) => CreatedKeepsStream(s.rows, Of(s.events, key), key, Row(k, c, DRAFT, 1, false));
        case Superseded(req, prior) => SupersededKeepsStream(s, t, req, prior, key);
        case Shifted(i, to, actor) => ShiftedKeepsStream(s, t, i, to, actor, key);
      }
    }
  }

  // ---- runs ----

  ghost predicate Inv(s: State) {
    TableOk(s.rows) && DraftsOk(s.rows, s.txs) && StreamsOk(s.rows, s.events)
  }

  lemma StartHolds()
    ensures Inv(START)
  {
    forall key ensures StreamOk(START.rows, Of(START.events, key), key) { }
  }

  lemma StepKeepsInv(s: State, step: Step)
    requires Inv(s)
    ensures Inv(Apply(s, step))
  {
    hide TableOk, DraftsOk, StreamsOk, Apply, Did;
    var o := StepDid(s, step);
    DidKeepsTable(s, Apply(s, step), o);
    StepKeepsDrafts(s, step, o);
    DidKeepsStreams(s, Apply(s, step), o);
  }

  lemma {:induction false} RunKeepsInv(s: State, steps: seq<Step>)
    requires Inv(s)
    ensures Inv(Run(s, steps))
    decreases steps
  {
    if steps != [] {
      StepKeepsInv(s, steps[0]);
      RunKeepsInv(Apply(s, steps[0]), steps[1..]);
    }
  }
}

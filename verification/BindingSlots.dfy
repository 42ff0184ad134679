/** Slot arbitration: while overlap checks run under the slot's lock held to commit, no two live
    bindings of one (environment, priority) ever match a common request. */
module BindingSlots {
  import opened Base
  import opened Scopes
  import opened Binding
  import opened BindingTable
  import L = BindingLife

  // ---- invariant ----

  ghost predicate SlotsOk(rows: seq<Row>) {
    forall i :: 0 <= i < |rows| && Live(rows[i]) ==> NoClash(rows, rows[i].key, rows[i].content)
  }

  ghost predicate Reached(rows: seq<Row>, key: string, revision: nat) {
    exists i :: 0 <= i < |rows| && rows[i].key == key && rows[i].revision >= revision
  }

  predicate IsActiveAt(r: Row, key: string, revision: nat) { r.key == key && r.revision == revision && r.active }

  /** If the binding is still where Resume read it, its content is what Resume read. */
  ghost predicate Pinned(rows: seq<Row>, key: string, revision: nat, c: Content) {
    && (forall i :: 0 <= i < |rows| && IsActiveAt(rows[i], key, revision) ==> rows[i].content == c)
    && Reached(rows, key, revision)
  }

  ghost predicate TxOk(tx: Tx, rows: seq<Row>) {
    match tx
    case Queued(_) => true
    case Cleared(req) => NoClash(rows, req.key, req.content)
    case Drafted(req) => NoClash(rows, req.key, req.content)
    case Returning(key, expected, _, c) => Pinned(rows, key, expected, c)
    case Returned(key, expected, _, c) => Pinned(rows, key, expected, c) && NoClash(rows, key, c)
    case Blind(_, _, _) => true
  }

  ghost predicate TxsOk(txs: map<nat, Tx>, rows: seq<Row>) { forall t :: t in txs ==> TxOk(txs[t], rows) }

  /** One holder per slot. */
  ghost predicate LocksOk(txs: map<nat, Tx>) {
    forall t, u :: t in txs && u in txs && t != u && Held(txs[t]).Some? ==> Held(txs[t]) != Held(txs[u])
  }

  ghost predicate Safe(s: State) { SlotsOk(s.rows) && TxsOk(s.txs, s.rows) && LocksOk(s.txs) }

  // ---- the live set grows by one entrant at a time ----

  ghost predicate WasLive(r: Row, rows: seq<Row>, i: nat) {
    i < |rows| && Live(rows[i]) && rows[i].key == r.key && rows[i].content == r.content
  }

  /** Every live row of t was live in rows, except perhaps rows of binding k with content c. */
  ghost predicate Enters(rows: seq<Row>, t: seq<Row>, k: string, c: Content) {
    forall i :: 0 <= i < |t| && Live(t[i]) ==> WasLive(t[i], rows, i) || (t[i].key == k && t[i].content == c)
  }

  ghost predicate NobodyEnters(rows: seq<Row>, t: seq<Row>) {
    forall i :: 0 <= i < |t| && Live(t[i]) ==> WasLive(t[i], rows, i)
  }

  lemma NoClashAfter(rows: seq<Row>, t: seq<Row>, k: string, c: Content, key: string, d: Content)
    requires Enters(rows, t, k, c) && NoClash(rows, key, d)
    requires SlotOf(c) != SlotOf(d) || key == k || !Overlaps(d.scope, c.scope)
    ensures NoClash(t, key, d)
  {
    forall i | 0 <= i < |t| ensures !Clashes(t[i], key, d) {
      if WasLive(t[i], rows, i) { assert !Clashes(rows[i], key, d); }
    }
  }

  lemma NoClashWithout(rows: seq<Row>, t: seq<Row>, key: string, d: Content)
    requires NobodyEnters(rows, t) && NoClash(rows, key, d)
    ensures NoClash(t, key, d)
  {
    forall i | 0 <= i < |t| ensures !Clashes(t[i], key, d) {
      if WasLive(t[i], rows, i) { assert !Clashes(rows[i], key, d); }
    }
  }

  lemma SlotsWithout(rows: seq<Row>, t: seq<Row>)
    requires SlotsOk(rows) && NobodyEnters(rows, t)
    ensures SlotsOk(t)
  {
    forall i | 0 <= i < |t| && Live(t[i]) ensures NoClash(t, t[i].key, t[i].content) {
      NoClashWithout(rows, t, rows[i].key, rows[i].content);
    }
  }

  /** A checked entrant keeps the slots disjoint. */
  lemma SlotsAfter(rows: seq<Row>, t: seq<Row>, k: string, c: Content)
    requires SlotsOk(rows) && Enters(rows, t, k, c) && NoClash(rows, k, c)
    ensures SlotsOk(t)
  {
    hide Overlaps;
    forall i | 0 <= i < |t| && Live(t[i]) ensures NoClash(t, t[i].key, t[i].content) {
      if !WasLive(t[i], rows, i) || t[i].key == k {
        NoClashAfter(rows, t, k, c, k, t[i].content);
      } else {
        forall j | 0 <= j < |t| ensures !Clashes(t[j], t[i].key, t[i].content) {
          OverlapsIsSymmetric(c.scope, rows[i].content.scope);
          assert !Clashes(rows[i], k, c);
          if WasLive(t[j], rows, j) { assert !Clashes(rows[j], rows[i].key, rows[i].content); }
        }
      }
    }
  }

  // ---- revisions already seen never come back ----

  lemma NewRowsAreAhead(s: State, t: State, o: Outcome, i: nat, j: nat)
    requires TableOk(s.rows) && Did(s, t, o) && i < |t.rows| && t.rows[i].active && j < |s.rows|
    requires t.rows[i].key == s.rows[j].key && !(i < |s.rows| && t.rows[i] == s.rows[i])
    ensures s.rows[j].revision < t.rows[i].revision
  {
    hide Led, RowOk;
    match o {
      case Refused =>
      case Created(_, _, _) =>
      case Superseded(req, prior) => if i == |s.rows| { PublishIsAhead(s.rows, req.key, req.expected, prior, j); }
      case Shifted(r, _, _) => if j != r { assert Ranked(s.rows[r], s.rows[j]); }
    }
  }

  lemma PinnedStays(s: State, t: State, o: Outcome, key: string, revision: nat, c: Content)
    requires TableOk(s.rows) && Did(s, t, o) && Pinned(s.rows, key, revision, c)
    ensures Pinned(t.rows, key, revision, c)
  {
    hide TableOk, Did;
    DidMoves(s, t, o);
    var j :| 0 <= j < |s.rows| && s.rows[j].key == key && s.rows[j].revision >= revision;
    assert RowMoves(s.rows[j], t.rows[j]);
    forall i | 0 <= i < |t.rows| && IsActiveAt(t.rows[i], key, revision) ensures t.rows[i].content == c {
      if !(i < |s.rows| && t.rows[i] == s.rows[i]) {
        NewRowsAreAhead(s, t, o, i, j);
      } else {
        assert IsActiveAt(s.rows[i], key, revision);
      }
    }
  }

  // ---- the transactions' own moves ----

  lemma ReadPins(rows: seq<Row>, key: string)
    requires TableOk(rows) && ActiveOf(rows, key) < |rows|
    ensures var r := rows[ActiveOf(rows, key)]; Pinned(rows, key, r.revision, r.content)
  {
    TableRanked(rows);
    var a := ActiveOf(rows, key);
    forall i | 0 <= i < |rows| && IsActiveAt(rows[i], key, rows[a].revision) ensures rows[i].content == rows[a].content {
      OneActive(rows, i);
    }
    assert rows[a].key == key;
  }

  /** What opening, guarding and arbitrating put into the transaction table is fit to be there. */
  lemma NewTxIsOk(s: State, step: Step, u: nat)
    requires TableOk(s.rows) && TxsOk(s.txs, s.rows)
    requires step.BeginPublish? || step.BeginResume? || step.TakeSlot?
    requires u in Apply(s, step).txs
    ensures TxOk(Apply(s, step).txs[u], s.rows)
  {
    hide TableOk, NoClash, Pinned, SlotFree;
    if u in s.txs { assert TxOk(s.txs[u], s.rows); }
    match step {
      case BeginResume(tx, key, _, _) =>
        var i := ActiveOf(s.rows, key);
        if i < |s.rows| { ReadPins(s.rows, key); }
      case _ =>
    }
  }

  lemma GuardKeepsLocks(s: State, tx: nat)
    requires LocksOk(s.txs)
    ensures LocksOk(Guard(s, tx).txs)
  {
    hide NoClash;
  }

  lemma StepKeepsLocks(s: State, step: Step)
    requires LocksOk(s.txs)
    ensures LocksOk(Apply(s, step).txs)
  {
    hide Publish, Move, Guard;
    match step {
      case TakeSlot(tx) => GuardKeepsLocks(s, tx);
      case Supersede(tx) =>
        if tx in s.txs && s.txs[tx].Cleared? {
          var i := ActiveOf(s.rows, s.txs[tx].req.key);
          if i < |s.rows| { PublishTxs(s, tx, s.txs[tx].req, i); }
        }
      case InsertFirst(tx) => if tx in s.txs && s.txs[tx].Drafted? { PublishTxs(s, tx, s.txs[tx].req, |s.rows|); }
      case WriteResume(tx) =>
        if tx in s.txs && (s.txs[tx].Returned? || s.txs[tx].Blind?) {
          WritesKeepTxs(s, s.txs[tx].key, s.txs[tx].expected, SUSPENDED, PUBLISHED, s.txs[tx].actor);
        }
      case Shift(key, expected, from, to, actor) => WritesKeepTxs(s, key, expected, from, to, actor);
      case _ =>
    }
  }

  // ---- writes ----

  function ContentOf(tx: Tx): Content
    requires Held(tx).Some?
  {
    if tx.Returned? then tx.content else tx.req.content
  }

  /** The transaction's overlap check, if it has made one, also covers binding k with content c. */
  ghost predicate Tolerates(tx: Tx, k: string, c: Content) {
    Held(tx) == Some(SlotOf(c)) && KeyOf(tx) != k ==> !Overlaps(ContentOf(tx).scope, c.scope)
  }

  /** A transaction that tolerates the entrant stays fit. */
  lemma TxStaysOk(s: State, t: State, o: Outcome, tx: Tx, k: string, c: Content)
    requires TableOk(s.rows) && Did(s, t, o) && TxOk(tx, s.rows)
    requires NobodyEnters(s.rows, t.rows) || (Enters(s.rows, t.rows, k, c) && Tolerates(tx, k, c))
    ensures TxOk(tx, t.rows)
  {
    hide TableOk, Did, NoClash, Pinned, Enters, NobodyEnters;
    if tx.Returning? || tx.Returned? { PinnedStays(s, t, o, tx.key, tx.expected, tx.content); }
    if Held(tx).Some? {
      var key, d := KeyOf(tx), ContentOf(tx);
      if NobodyEnters(s.rows, t.rows) {
        NoClashWithout(s.rows, t.rows, key, d);
      } else {
        NoClashAfter(s.rows, t.rows, k, c, key, d);
      }
    }
  }

  /** Everybody else's transactions are the old ones. */
  ghost predicate Remain(txs: map<nat, Tx>, t: map<nat, Tx>, tx: nat) {
    forall u :: u in t && u != tx ==> u in txs && t[u] == txs[u]
  }

  /** tx lets binding k enter with content c, which clashes with no live row and which every other
      transaction's check covers. */
  lemma EntryKeepsSafe(s: State, t: State, o: Outcome, tx: nat, k: string, c: Content)
    requires Inv(s) && Safe(s) && Did(s, t, o) && LocksOk(t.txs)
    requires NoClash(s.rows, k, c) && (forall u :: u in s.txs && u != tx ==> Tolerates(s.txs[u], k, c))
    requires Enters(s.rows, t.rows, k, c) && Remain(s.txs, t.txs, tx) && tx !in t.txs
    ensures Safe(t)
  {
    hide Did, Enters, NoClash, TxOk, Tolerates;
    assert TableOk(s.rows) by { L.InvTable(s); }
    SlotsAfter(s.rows, t.rows, k, c);
    forall u | u in t.txs ensures TxOk(t.txs[u], t.rows) { TxStaysOk(s, t, o, s.txs[u], k, c); }
  }

  /** Whoever holds c's slot is alone in it, so every other check covers c. */
  lemma HolderIsTolerated(txs: map<nat, Tx>, tx: nat, k: string, c: Content)
    requires LocksOk(txs) && tx in txs && Held(txs[tx]) == Some(SlotOf(c))
    ensures forall u :: u in txs && u != tx ==> Tolerates(txs[u], k, c)
  {
  }

  /** Nobody enters the live set and the only transaction that may have changed is fit. */
  lemma QuietKeepsSafe(s: State, t: State, o: Outcome, tx: nat)
    requires Inv(s) && Safe(s) && Did(s, t, o) && LocksOk(t.txs)
    requires NobodyEnters(s.rows, t.rows) && Remain(s.txs, t.txs, tx)
    requires tx in t.txs ==> TxOk(t.txs[tx], s.rows)
    ensures Safe(t)
  {
    hide Did, NobodyEnters, TxOk;
    assert TableOk(s.rows) by { L.InvTable(s); }
    SlotsWithout(s.rows, t.rows);
    var any := Content(0, 0, 0, "", "", Scope([], [], [], []), 0);
    forall u | u in t.txs ensures TxOk(t.txs[u], t.rows) {
      TxStaysOk(s, t, o, t.txs[u], "", any);
    }
  }

  lemma SupersededEnters(s: State, t: State, req: PublishReq, prior: nat)
    requires Did(s, t, Superseded(req, prior))
    ensures Enters(s.rows, t.rows, req.key, req.content)
  {
  }

  lemma RefusedEnters(s: State, t: State, o: Outcome)
    requires Did(s, t, o) && !o.Superseded? && (o.Shifted? ==> o.to != PUBLISHED)
    ensures NobodyEnters(s.rows, t.rows)
  {
  }

  lemma PublishKeepsSafe(s: State, tx: nat, prior: nat)
    requires Inv(s) && Safe(s) && tx in s.txs && (s.txs[tx].Cleared? || s.txs[tx].Drafted?)
    requires prior <= |s.rows|
    requires var o := Superseded(s.txs[tx].req, prior);
             Did(s, Publish(s, tx, s.txs[tx].req, prior), Refused) || Did(s, Publish(s, tx, s.txs[tx].req, prior), o)
    ensures Safe(Publish(s, tx, s.txs[tx].req, prior))
  {
    hide Inv, Did, Publish, NoClash;
    var req := s.txs[tx].req;
    var t := Publish(s, tx, req, prior);
    PublishTxs(s, tx, req, prior);
    assert TxOk(s.txs[tx], s.rows);
    if Did(s, t, Refused) {
      RefusedEnters(s, t, Refused);
      QuietKeepsSafe(s, t, Refused, tx);
    } else {
      SupersededEnters(s, t, req, prior);
      HolderIsTolerated(s.txs, tx, req.key, req.content);
      EntryKeepsSafe(s, t, Superseded(req, prior), tx, req.key, req.content);
    }
  }

  lemma SupersedeKeepsSafe(s: State, tx: nat)
    requires Inv(s) && Safe(s)
    ensures Safe(Apply(s, Supersede(tx)))
  {
    hide Inv, Safe, Publish, Did;
    if tx in s.txs && s.txs[tx].Cleared? {
      var req := s.txs[tx].req;
      var i := ActiveOf(s.rows, req.key);
      if i < |s.rows| && Hits(s.rows[i], req.expected, PUBLISHED) {
        var o := PublishDid(s, tx, req, i);
        PublishKeepsSafe(s, tx, i);
      } else {
        ArbitrationKeepsSafe(s, tx);
      }
    }
  }

  lemma ArbitrationKeepsSafe(s: State, tx: nat)
    requires Inv(s) && Safe(s) && tx in s.txs && s.txs[tx].Cleared?
    requires var req := s.txs[tx].req; var i := ActiveOf(s.rows, req.key);
             !(i < |s.rows| && Hits(s.rows[i], req.expected, PUBLISHED))
    ensures Safe(Arbitrate(s, tx))
  {
    hide Inv, NoClash, Publish, TableOk;
    var t := Arbitrate(s, tx);
    assert TxOk(s.txs[tx], s.rows);
    StepKeepsLocks(s, Supersede(tx));
    assert Apply(s, Supersede(tx)) == t;
    RefusedEnters(s, t, Refused);
    QuietKeepsSafe(s, t, Refused, tx);
  }

  lemma InsertKeepsSafe(s: State, tx: nat)
    requires Inv(s) && Safe(s)
    ensures Safe(Apply(s, InsertFirst(tx)))
  {
    hide Safe, Publish, Did, StreamsOk, TableOk;
    if tx in s.txs && s.txs[tx].Drafted? {
      var o := InsertFirstDid(s, tx);
      PublishKeepsSafe(s, tx, |s.rows|);
    }
  }

  // ---- resume ----

  lemma MoveEnters(s: State, t: State, o: Outcome, key: string, expected: nat, actor: string)
    requires t == Move(s, key, expected, SUSPENDED, PUBLISHED, actor) && Did(s, t, o)
    ensures NobodyEnters(s.rows, t.rows)
            || (var i := ActiveOf(s.rows, key);
                i < |s.rows| && Hits(s.rows[i], expected, SUSPENDED) && Enters(s.rows, t.rows, key, s.rows[i].content))
  {
    hide Did, TwinLive, Taken;
  }

  lemma GuardedResumeKeepsSafe(s: State, tx: nat)
    requires Inv(s) && Safe(s) && tx in s.txs && s.txs[tx].Returned?
    ensures Safe(Apply(s, WriteResume(tx)))
  {
    hide Inv, Did, Move, NobodyEnters, Enters, NoClash;
    var x, t := s.txs[tx], Apply(s, WriteResume(tx));
    var m := Move(s, x.key, x.expected, SUSPENDED, PUBLISHED, x.actor);
    var o := MoveDid(s, x.key, x.expected, SUSPENDED, PUBLISHED, x.actor);
    assert TxOk(x, s.rows);
    StepKeepsLocks(s, WriteResume(tx));
    WritesKeepTxs(s, x.key, x.expected, SUSPENDED, PUBLISHED, x.actor);
    DidIgnoresTxs(s, m, t, o);
    MoveEnters(s, m, o, x.key, x.expected, x.actor);
    if NobodyEnters(s.rows, m.rows) {
      QuietKeepsSafe(s, t, o, tx);
    } else {
      assert IsActiveAt(s.rows[ActiveOf(s.rows, x.key)], x.key, x.expected);
      HolderIsTolerated(s.txs, tx, x.key, x.content);
      EntryKeepsSafe(s, t, o, tx, x.key, x.content);
    }
  }

  lemma DidIgnoresTxs(s: State, m: State, t: State, o: Outcome)
    requires Did(s, m, o) && t == m.(txs := t.txs)
    ensures Did(s, t, o)
  {
  }

  // ---- the resume that skips the guard ----

  /** What an unguarded Resume, which saw no active row and so took no lock and made no check, would now
      revive: the active row it hits, unless a live twin stops it. */
  ghost predicate Revives(s: State, tx: nat) {
    && tx in s.txs && s.txs[tx].Blind?
    && var i := ActiveOf(s.rows, s.txs[tx].key);
       i < |s.rows| && Hits(s.rows[i], s.txs[tx].expected, SUSPENDED) && !TwinLive(s.rows, s.rows[i].content)
  }

  /** Some other transaction holds the slot after an overlap check that does not cover (k, c). */
  ghost predicate Undercuts(txs: map<nat, Tx>, tx: nat, k: string, c: Content) {
    exists u :: u in txs && u != tx && !Tolerates(txs[u], k, c)
  }

  /** The revived row clashes with a live sibling, or with what a transaction past its check is about to
      make live. */
  ghost predicate BlindBreaks(s: State, tx: nat) {
    && Revives(s, tx)
    && var k := s.txs[tx].key; var c := s.rows[ActiveOf(s.rows, k)].content;
       !NoClash(s.rows, k, c) || Undercuts(s.txs, tx, k, c)
  }

  lemma ActiveIsLatest(rows: seq<Row>, i: nat)
    requires TableOk(rows) && i < |rows| && rows[i].active
    ensures !Taken(rows, rows[i].key, rows[i].revision + 1)
  {
    TableRanked(rows);
    forall j | 0 <= j < |rows| && rows[j].key == rows[i].key ensures rows[j].revision != rows[i].revision + 1 {
      if j != i { assert Ranked(rows[i], rows[j]); }
    }
  }

  lemma BlindMoves(s: State, tx: nat) returns (t: State, i: nat)
    requires Inv(s) && Revives(s, tx)
    ensures t == Apply(s, WriteResume(tx)) && i == ActiveOf(s.rows, s.txs[tx].key) && i < |s.rows| && s.rows[i].key == s.txs[tx].key
    ensures t.txs == s.txs - {tx}
    ensures t.rows == s.rows[i := s.rows[i].(state := PUBLISHED, revision := s.rows[i].revision + 1)] && Live(t.rows[i])
  {
    hide TwinLive, Taken, TableOk;
    var x := s.txs[tx];
    t, i := Apply(s, WriteResume(tx)), ActiveOf(s.rows, x.key);
    assert TableOk(s.rows) by { L.InvTable(s); }
    ActiveIsLatest(s.rows, i);
  }

  lemma BlindHitBreaksSafe(s: State, tx: nat)
    requires Inv(s) && BlindBreaks(s, tx)
    ensures !Safe(Apply(s, WriteResume(tx)))
  {
    hide Overlaps, Inv, TwinLive, Apply;
    var t, i := BlindMoves(s, tx);
    var k, c := s.txs[tx].key, s.rows[i].content;
    if !NoClash(s.rows, k, c) {
      BlindHitBreaksSlots(s, tx);
    } else {
      var u :| u in s.txs && u != tx && !Tolerates(s.txs[u], k, c);
      assert Clashes(t.rows[i], KeyOf(s.txs[u]), ContentOf(s.txs[u]));
      assert !TxOk(t.txs[u], t.rows);
    }
  }

  lemma BlindHitBreaksSlots(s: State, tx: nat)
    requires Inv(s) && Revives(s, tx) && !NoClash(s.rows, s.txs[tx].key, s.rows[ActiveOf(s.rows, s.txs[tx].key)].content)
    ensures !SlotsOk(Apply(s, WriteResume(tx)).rows)
  {
    hide Overlaps, Inv, TwinLive, Apply;
    var t, i := BlindMoves(s, tx);
    var j :| 0 <= j < |s.rows| && Clashes(s.rows[j], s.txs[tx].key, s.rows[i].content);
    assert t.rows[j] == s.rows[j] && Clashes(t.rows[j], t.rows[i].key, t.rows[i].content);
  }

  lemma BlindMissKeepsSafe(s: State, tx: nat)
    requires Inv(s) && Safe(s) && tx in s.txs && s.txs[tx].Blind? && !BlindBreaks(s, tx)
    ensures Safe(Apply(s, WriteResume(tx)))
  {
    hide Inv, Did, NobodyEnters, Enters, NoClash, Tolerates;
    var x, t := s.txs[tx], Apply(s, WriteResume(tx));
    StepKeepsLocks(s, WriteResume(tx));
    if Revives(s, tx) {
      var c := s.rows[ActiveOf(s.rows, x.key)].content;
      var m := Move(s, x.key, x.expected, SUSPENDED, PUBLISHED, x.actor);
      var o := MoveDid(s, x.key, x.expected, SUSPENDED, PUBLISHED, x.actor);
      DidIgnoresTxs(s, m, t, o);
      MoveEnters(s, m, o, x.key, x.expected, x.actor);
      if NobodyEnters(s.rows, m.rows) {
        QuietKeepsSafe(s, t, o, tx);
      } else {
        EntryKeepsSafe(s, t, o, tx, x.key, c);
      }
    } else {
      NoRevivalDoesNothing(s, tx);
      RefusedEnters(s, t, Refused);
      QuietKeepsSafe(s, t, Refused, tx);
    }
  }

  lemma NoRevivalDoesNothing(s: State, tx: nat)
    requires tx in s.txs && s.txs[tx].Blind? && !Revives(s, tx)
    ensures Apply(s, WriteResume(tx)) == s.(txs := s.txs - {tx}) && Did(s, Apply(s, WriteResume(tx)), Refused)
  {
  }

  /** From a safe state the unguarded UPDATE leads to a safe one exactly when it breaks nothing. */
  lemma BlindResumeBreaksExactly(s: State, tx: nat)
    requires Inv(s) && Safe(s) && tx in s.txs && s.txs[tx].Blind?
    ensures Safe(Apply(s, WriteResume(tx))) <==> !BlindBreaks(s, tx)
  {
    if BlindBreaks(s, tx) { BlindHitBreaksSafe(s, tx); } else { BlindMissKeepsSafe(s, tx); }
  }

  lemma ResumeKeepsSafe(s: State, tx: nat)
    requires Inv(s) && Safe(s) && !BlindBreaks(s, tx)
    ensures Safe(Apply(s, WriteResume(tx)))
  {
    hide Inv, Move, NoClash, TableOk, BlindBreaks;
    if tx in s.txs && s.txs[tx].Returned? {
      GuardedResumeKeepsSafe(s, tx);
    } else if tx in s.txs && s.txs[tx].Blind? {
      BlindMissKeepsSafe(s, tx);
    }
  }

  // ---- every step ----

  lemma ShiftKeepsSafe(s: State, step: Step)
    requires Inv(s) && Safe(s) && (step.Shift? || step.Create? || step.Rollback?)
    ensures Safe(Apply(s, step))
  {
    hide Inv, Move, Did, NobodyEnters, NoClash, TxOk;
    var t := Apply(s, step);
    var o := QuietOutcome(s, step);
    StepKeepsLocks(s, step);
    RefusedEnters(s, t, o);
    if step.Shift? { WritesKeepTxs(s, step.key, step.expected, step.from, step.to, step.actor); }
    var u := if step.Rollback? then step.tx else 0;
    QuietKeepsSafe(s, t, o, u);
  }

  lemma QuietOutcome(s: State, step: Step) returns (o: Outcome)
    requires Inv(s) && (step.Shift? || step.Create? || step.Rollback?)
    ensures Did(s, Apply(s, step), o) && !o.Superseded? && (o.Shifted? ==> o.to != PUBLISHED)
  {
    hide Move;
    match step {
      case Create(key, c, actor) => o := if Apply(s, step) == s then Refused else Created(key, c, actor);
      case Shift(key, expected, from, to, actor) =>
        if Legal(from, to) && to != PUBLISHED && actor != "" {
          o := MoveDid(s, key, expected, from, to, actor);
        } else {
          o := Refused;
        }
      case _ => o := Refused;
    }
  }

  lemma OpeningKeepsSafe(s: State, step: Step)
    requires Inv(s) && Safe(s)
    requires step.BeginPublish? || step.BeginResume? || step.TakeSlot?
    ensures Safe(Apply(s, step))
  {
    hide Inv, Apply, TxOk, SlotsOk;
    var t := Apply(s, step);
    OpeningWritesNothing(s, step);
    StepKeepsLocks(s, step);
    assert TableOk(s.rows) by { L.InvTable(s); }
    forall u | u in t.txs ensures TxOk(t.txs[u], t.rows) { NewTxIsOk(s, step, u); }
  }

  /** The one step that can break safety. */
  ghost predicate Breaks(s: State, step: Step) { step.WriteResume? && BlindBreaks(s, step.tx) }

  /** A step from a safe state leads to a safe state exactly when it is not a breaking unguarded UPDATE. */
  lemma StepIsSafeExactlyWhen(s: State, step: Step)
    requires Inv(s) && Safe(s)
    ensures Safe(Apply(s, step)) <==> !Breaks(s, step)
  {
    hide Inv, Safe, Apply, BlindBreaks;
    match step {
      case Supersede(tx) => SupersedeKeepsSafe(s, tx);
      case InsertFirst(tx) => InsertKeepsSafe(s, tx);
      case WriteResume(tx) => if BlindBreaks(s, tx) { BlindHitBreaksSafe(s, tx); } else { ResumeKeepsSafe(s, tx); }
      case Shift(_, _, _, _, _) => ShiftKeepsSafe(s, step);
      case Create(_, _, _) => ShiftKeepsSafe(s, step);
      case Rollback(_) => ShiftKeepsSafe(s, step);
      case _ => OpeningKeepsSafe(s, step);
    }
  }

  // ---- runs ----

  /** No unguarded UPDATE of the run breaks anything. */
  ghost predicate Unbroken(s: State, steps: seq<Step>)
    decreases steps
  {
    steps == [] || (!Breaks(s, steps[0]) && Unbroken(Apply(s, steps[0]), steps[1..]))
  }

  ghost predicate AlwaysSafe(s: State, steps: seq<Step>)
    decreases steps
  {
    Safe(s) && (steps == [] || AlwaysSafe(Apply(s, steps[0]), steps[1..]))
  }

  /** A run from a safe state is safe throughout exactly when it is unbroken. */
  lemma {:induction false} RunIsSafeExactlyWhen(s: State, steps: seq<Step>)
    requires Inv(s) && Safe(s)
    ensures AlwaysSafe(s, steps) <==> Unbroken(s, steps)
    decreases steps
  {
    hide Inv, Safe, Breaks, Apply;
    if steps != [] {
      StepKeepsInv(s, steps[0]);
      StepIsSafeExactlyWhen(s, steps[0]);
      if Breaks(s, steps[0]) {
        assert !AlwaysSafe(Apply(s, steps[0]), steps[1..]) by { UnsafeIsNotAlwaysSafe(Apply(s, steps[0]), steps[1..]); }
      } else {
        RunIsSafeExactlyWhen(Apply(s, steps[0]), steps[1..]);
      }
    }
  }

  lemma UnsafeIsNotAlwaysSafe(s: State, steps: seq<Step>)
    requires !Safe(s)
    ensures !AlwaysSafe(s, steps)
  {
  }

  lemma {:induction false} RunKeepsSafe(s: State, steps: seq<Step>)
    requires Inv(s) && Safe(s) && Unbroken(s, steps)
    ensures Inv(Run(s, steps)) && Safe(Run(s, steps))
    decreases steps
  {
    hide Inv, Safe, Breaks, Apply;
    if steps != [] {
      StepKeepsInv(s, steps[0]);
      StepIsSafeExactlyWhen(s, steps[0]);
      RunKeepsSafe(Apply(s, steps[0]), steps[1..]);
    }
  }

  /** Two live bindings that some request both matches. */
  ghost predicate Ambiguous(a: Row, b: Row, q: Query) {
    && Live(a) && Live(b) && a.key != b.key && SlotOf(a.content) == SlotOf(b.content)
    && Matches(a.content.scope, q) && Matches(b.content.scope, q)
  }

  ghost predicate AllDisjoint(rows: seq<Row>) {
    forall i, j, q :: 0 <= i < |rows| && 0 <= j < |rows| ==> !Ambiguous(rows[i], rows[j], q)
  }

  lemma SlotsOkMeansDisjoint(rows: seq<Row>)
    ensures SlotsOk(rows) <==> AllDisjoint(rows)
  {
    hide Overlaps, Matches;
    if SlotsOk(rows) {
      forall i, j, q | 0 <= i < |rows| && 0 <= j < |rows| ensures !Ambiguous(rows[i], rows[j], q) {
        OverlapMeansCommonRequest(rows[i].content.scope, rows[j].content.scope);
        assert Ambiguous(rows[i], rows[j], q) ==> MatchesBoth(rows[i].content.scope, rows[j].content.scope, q);
      }
    }
    if AllDisjoint(rows) {
      forall i | 0 <= i < |rows| && Live(rows[i]) ensures NoClash(rows, rows[i].key, rows[i].content) {
        forall j | 0 <= j < |rows| ensures !Clashes(rows[j], rows[i].key, rows[i].content) {
          OverlapMeansCommonRequest(rows[i].content.scope, rows[j].content.scope);
          if q :| MatchesBoth(rows[i].content.scope, rows[j].content.scope, q) {
            assert !Ambiguous(rows[i], rows[j], q);
          }
        }
      }
    }
  }

  /** Under any interleaving in which no unguarded UPDATE breaks anything, no request is ever matched by
      two live bindings of one slot. */
  lemma NoRequestMatchesTwoLiveBindings(steps: seq<Step>)
    requires Unbroken(START, steps)
    ensures AllDisjoint(Run(START, steps).rows)
  {
    StartHolds();
    assert Safe(START);
    RunKeepsSafe(START, steps);
    SlotsOkMeansDisjoint(Run(START, steps).rows);
  }

  // ---- what a caller can do about it ----

  /** Nobody resumes a revision that does not exist yet. */
  ghost predicate Informed(s: State, step: Step) {
    step.BeginResume? ==> step.expected <= L.Latest(s.rows, step.key)
  }

  ghost predicate AllInformed(s: State, steps: seq<Step>)
    decreases steps
  {
    steps == [] || (Informed(s, steps[0]) && AllInformed(Apply(s, steps[0]), steps[1..]))
  }

  /** An unguarded Resume of a revision no active row ever has. */
  ghost predicate Harmless(tx: Tx) { tx.Blind? ==> tx.expected <= 1 }

  ghost predicate AllHarmless(txs: map<nat, Tx>) { forall t :: t in txs ==> Harmless(txs[t]) }

  lemma BlindIsEarly(rows: seq<Row>, key: string)
    requires TableOk(rows) && ActiveOf(rows, key) == |rows|
    ensures L.Latest(rows, key) <= 1
  {
    ActiveOfFinds(rows, key);
    L.LatestOfDraft(rows, key);
  }

  lemma StepKeepsHarmless(s: State, step: Step)
    requires Inv(s) && AllHarmless(s.txs) && Informed(s, step)
    ensures AllHarmless(Apply(s, step).txs)
  {
    hide TableOk, NoClash, SlotFree, L.Latest, Publish, Move, StreamsOk;
    match step {
      case BeginResume(tx, key, _, _) => if ActiveOf(s.rows, key) == |s.rows| { BlindIsEarly(s.rows, key); }
      case Supersede(tx) =>
        if tx in s.txs && s.txs[tx].Cleared? {
          var i := ActiveOf(s.rows, s.txs[tx].req.key);
          if i < |s.rows| { PublishTxs(s, tx, s.txs[tx].req, i); }
        }
      case InsertFirst(tx) => if tx in s.txs && s.txs[tx].Drafted? { PublishTxs(s, tx, s.txs[tx].req, |s.rows|); }
      case WriteResume(tx) =>
        if tx in s.txs && (s.txs[tx].Returned? || s.txs[tx].Blind?) {
          WritesKeepTxs(s, s.txs[tx].key, s.txs[tx].expected, SUSPENDED, PUBLISHED, s.txs[tx].actor);
        }
      case Shift(key, expected, from, to, actor) => WritesKeepTxs(s, key, expected, from, to, actor);
      case _ =>
    }
  }

  lemma HarmlessNeverBreaks(s: State, step: Step)
    requires TableOk(s.rows) && AllHarmless(s.txs)
    ensures !Breaks(s, step)
  {
    forall i | 0 <= i < |s.rows| && s.rows[i].active ensures s.rows[i].revision >= 2 { assert RowOk(s.rows[i]); }
  }

  /** Runs in which nobody resumes a revision before it exists are unbroken. */
  lemma {:induction false} InformedRunsAreUnbroken(s: State, steps: seq<Step>)
    requires Inv(s) && AllHarmless(s.txs) && AllInformed(s, steps)
    ensures Unbroken(s, steps)
    decreases steps
  {
    hide Inv, AllHarmless, Informed, Breaks, Apply;
    if steps != [] {
      assert TableOk(s.rows) by { L.InvTable(s); }
      HarmlessNeverBreaks(s, steps[0]);
      StepKeepsHarmless(s, steps[0]);
      StepKeepsInv(s, steps[0]);
      InformedRunsAreUnbroken(Apply(s, steps[0]), steps[1..]);
    }
  }
}

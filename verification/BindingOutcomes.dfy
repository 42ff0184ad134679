/** When the commands of the binding store succeed, and what they then leave, for a command that no other
    transaction gets in the way of. */
module BindingOutcomes {
  import opened Base
  import opened Scopes
  import opened Binding
  import opened BindingTable
  import S = BindingSlots

  // ---- conditions, in the table's own terms ----

  predicate IsActive(r: Row, key: string, revision: nat, state: Life) {
    r.key == key && r.active && r.revision == revision && r.state == state
  }

  /** Row i is the binding's active row, at this revision and in this state. */
  predicate ActiveAt(rows: seq<Row>, i: nat, key: string, revision: nat, state: Life) {
    i < |rows| && IsActive(rows[i], key, revision, state)
  }

  ghost predicate SomeActive(rows: seq<Row>, key: string, revision: nat, state: Life) {
    exists i: nat :: ActiveAt(rows, i, key, revision, state)
  }

  ghost predicate IsDraftAt(rows: seq<Row>, i: nat, key: string, revision: nat) {
    && i < |rows| && rows[i].key == key && rows[i].revision == revision && rows[i].state == DRAFT
    && forall j :: 0 <= j < |rows| && rows[j].key == key ==> !rows[j].active && rows[j].revision <= revision
  }

  /** Nothing is active and the latest row is the draft at this revision. */
  ghost predicate OnlyDraft(rows: seq<Row>, key: string, revision: nat) { exists i: nat :: IsDraftAt(rows, i, key, revision) }

  /** A live binding of the same slot that some request matches together with this scope. */
  ghost predicate Rivals(r: Row, key: string, c: Content) {
    && r.active && r.state == PUBLISHED && r.key != key
    && r.content.environment == c.environment && r.content.priority == c.priority
    && exists q :: MatchesBoth(c.scope, r.content.scope, q)
  }

  ghost predicate Unrivalled(rows: seq<Row>, key: string, c: Content) {
    forall i :: 0 <= i < |rows| ==> !Rivals(rows[i], key, c)
  }

  /** Approved, explained and signed; its idempotency key is new; no live sibling is in its way; and the caller
      has seen the live revision, or the draft of a binding that was never published. */
  ghost predicate MayPublish(s: State, req: PublishReq) {
    && req.approval != "" && req.reason != "" && req.actor != ""
    && (req.idem != "" ==> req.idem !in s.ledger)
    && Unrivalled(s.rows, req.key, req.content)
    && (SomeActive(s.rows, req.key, req.expected, PUBLISHED) || OnlyDraft(s.rows, req.key, req.expected))
  }

  /** What a publish leaves. */
  ghost predicate Published(s: State, t: State, req: PublishReq) {
    && |t.rows| == |s.rows| + 1
    && (forall i :: 0 <= i < |s.rows| ==>
          t.rows[i] == if s.rows[i].key == req.key && s.rows[i].active then s.rows[i].(active := false) else s.rows[i])
    && t.rows[|s.rows|] == Row(req.key, req.content, PUBLISHED, req.expected + 1, true)
    && t.events == s.events + [Event(req.key, req.expected + 1, PUBLISHED)]
    && t.changes == s.changes + [Change(req.key, PUBLISH, req.expected + 1, req.actor)]
    && t.ledger == (if req.idem == "" then s.ledger
                    else s.ledger[req.idem := Applied(req.key, req.expected + 1, Intent(req.key, req.content))])
    && t.txs == s.txs
  }

  /** Row i takes a new state and the next revision. */
  ghost predicate Moved(s: State, t: State, i: nat, to: Life, operation: Operation, actor: string) {
    && i < |s.rows| && t.rows == s.rows[i := s.rows[i].(state := to, revision := s.rows[i].revision + 1)]
    && t.events == s.events + [Event(s.rows[i].key, s.rows[i].revision + 1, to)]
    && t.changes == s.changes + [Change(s.rows[i].key, operation, s.rows[i].revision + 1, actor)]
    && t.ledger == s.ledger && t.txs == s.txs
  }

  // ---- what the statements' own conditions come to ----

  lemma ClashesIsRivals(r: Row, key: string, c: Content)
    ensures Clashes(r, key, c) <==> Rivals(r, key, c)
  {
    hide Overlaps, MatchesBoth;
    OverlapMeansCommonRequest(c.scope, r.content.scope);
  }

  lemma NoClashIsUnrivalled(rows: seq<Row>, key: string, c: Content)
    ensures NoClash(rows, key, c) <==> Unrivalled(rows, key, c)
  {
    hide Clashes, Rivals;
    forall i | 0 <= i < |rows| ensures Clashes(rows[i], key, c) <==> Rivals(rows[i], key, c) {
      ClashesIsRivals(rows[i], key, c);
    }
  }

  lemma TwinsClash(r: Row, key: string, c: Content)
    requires Twin(r, c) && r.key != key
    ensures Clashes(r, key, c)
  {
    SameScopeOverlaps(c.scope);
  }

  lemma SameScopeOverlaps(scope: Scope)
    ensures Overlaps(scope, scope)
  {
    DimOverlapsItself(scope.tenants);
    DimOverlapsItself(scope.regions);
    DimOverlapsItself(scope.factories);
    DimOverlapsItself(scope.agents);
  }

  lemma DimOverlapsItself(dim: seq<string>)
    ensures OverlapDim(dim, dim)
  {
    if dim != [] { assert dim[0] in dim; }
  }

  lemma OneActiveRow(rows: seq<Row>, key: string, i: nat)
    requires TableOk(rows) && i < |rows| && rows[i].key == key && rows[i].active
    ensures ActiveOf(rows, key) == i
    ensures forall j :: 0 <= j < |rows| && rows[j].key == key && rows[j].active ==> j == i
  {
    TableRanked(rows);
    OneActive(rows, i);
    forall j | 0 <= j < |rows| && rows[j].key == key && rows[j].active ensures j == i { OneActive(rows, j); }
  }

  lemma ActiveHits(rows: seq<Row>, key: string, expected: nat, from: Life)
    requires TableOk(rows)
    ensures var i := ActiveOf(rows, key);
            SomeActive(rows, key, expected, from) <==> ActiveAt(rows, i, key, expected, from)
  {
    if i: nat :| ActiveAt(rows, i, key, expected, from) { OneActiveRow(rows, key, i); }
  }

  lemma DraftIsFound(rows: seq<Row>, key: string, expected: nat)
    requires TableOk(rows)
    ensures var l := LatestOf(rows, key);
            OnlyDraft(rows, key, expected)
            <==> l < |rows| && rows[l].revision == expected && !rows[l].active && rows[l].state == DRAFT
    ensures OnlyDraft(rows, key, expected) ==> ActiveOf(rows, key) == |rows|
  {
    ActiveOfFinds(rows, key);
    LatestOfFinds(rows, key);
    TableRanked(rows);
    var i, l := ActiveOf(rows, key), LatestOf(rows, key);
    assert forall k :: 0 <= k < |rows| ==> RowOk(rows[k]);
    if d: nat :| IsDraftAt(rows, d, key, expected) {
      assert Ranked(rows[d], rows[l]) || d == l;
    }
    if l < |rows| && rows[l].revision == expected && !rows[l].active && rows[l].state == DRAFT {
      assert IsDraftAt(rows, l, key, expected);
    }
  }

  // ---- publish ----

  /** The four steps of a publish. */
  function Publishing(tx: nat, req: PublishReq): seq<Step> {
    [BeginPublish(tx, req), TakeSlot(tx), Supersede(tx), InsertFirst(tx)]
  }

  lemma FourSteps(s: State, a: Step, b: Step, c: Step, d: Step)
    ensures Run(s, [a, b, c, d]) == Apply(Apply(Apply(Apply(s, a), b), c), d)
  {
    hide Apply;
    RunConcat(s, [a, b], [c, d]);
    TwoSteps(s, a, b);
    TwoSteps(Apply(Apply(s, a), b), c, d);
    assert [a, b, c, d] == [a, b] + [c, d];
  }

  lemma TwoSteps(s: State, a: Step, b: Step)
    ensures Run(s, [a, b]) == Apply(Apply(s, a), b)
  {
    hide Apply;
    RunConcat(s, [a], [b]);
    RunOne(s, a);
    RunOne(Apply(s, a), b);
    assert [a, b] == [a] + [b];
  }

  lemma NothingTaken(rows: seq<Row>, key: string, expected: nat, prior: nat)
    requires TableOk(rows) && Publishable(rows, key, expected, prior) && prior <= |rows|
    ensures !Taken(Deactivate(rows, prior), key, expected + 1) && ActiveOf(Deactivate(rows, prior), key) == |rows|
  {
    var t := Deactivate(rows, prior);
    forall j | 0 <= j < |rows| && rows[j].key == key ensures rows[j].revision <= expected && (j != prior ==> !rows[j].active) {
      PublishIsAhead(rows, key, expected, prior, j);
    }
    ActiveOfFinds(t, key);
  }

  lemma NoTwinLeft(rows: seq<Row>, key: string, c: Content, expected: nat, prior: nat)
    requires TableOk(rows) && Publishable(rows, key, expected, prior) && prior <= |rows| && NoClash(rows, key, c)
    ensures !TwinLive(Deactivate(rows, prior), c)
  {
    hide Overlaps;
    var t := Deactivate(rows, prior);
    forall j | 0 <= j < |t| ensures !Twin(t[j], c) {
      if rows[j].key == key {
        PublishIsAhead(rows, key, expected, prior, j);
      } else if Twin(rows[j], c) {
        TwinsClash(rows[j], key, c);
      }
    }
  }

  /** The insert goes through when the row it builds on is there, nothing clashes, and the key is new. */
  lemma InsertCommits(s: State, tx: nat, req: PublishReq, prior: nat)
    requires TableOk(s.rows) && Publishable(s.rows, req.key, req.expected, prior) && prior <= |s.rows|
    requires NoClash(s.rows, req.key, req.content) && (req.idem != "" ==> req.idem !in s.ledger)
    ensures Published(s.(txs := s.txs - {tx}), Publish(s, tx, req, prior), req)
  {
    hide TableOk, NoClash, Taken, TwinLive;
    NothingTaken(s.rows, req.key, req.expected, prior);
    NoTwinLeft(s.rows, req.key, req.content, req.expected, prior);
    forall i | 0 <= i < |s.rows| && s.rows[i].key == req.key && i != prior ensures !s.rows[i].active {
      PublishIsAhead(s.rows, req.key, req.expected, prior, i);
    }
    if prior < |s.rows| { assert s.rows[prior].active; }
  }

  lemma QueuedIsCleared(s: State, tx: nat, req: PublishReq)
    requires tx !in s.txs && SlotFree(s.txs, req.content)
    ensures var q := s.(txs := s.txs[tx := Queued(req)]);
            Apply(q, TakeSlot(tx)) == if NoClash(s.rows, req.key, req.content) then s.(txs := s.txs[tx := Cleared(req)]) else s
  {
    hide NoClash;
    var q := s.(txs := s.txs[tx := Queued(req)]);
    assert SlotFree(q.txs, req.content);
    assert q.txs[tx := Cleared(req)] == s.txs[tx := Cleared(req)];
    assert q.txs - {tx} == s.txs;
  }

  lemma GoneStays(s: State, tx: nat)
    requires tx !in s.txs
    ensures Apply(s, TakeSlot(tx)) == s && Apply(s, Supersede(tx)) == s && Apply(s, InsertFirst(tx)) == s
  {
  }

  lemma ClearedFinishes(s: State, tx: nat, req: PublishReq)
    requires TableOk(s.rows) && tx !in s.txs && NoClash(s.rows, req.key, req.content)
    requires req.idem != "" ==> req.idem !in s.ledger
    ensures var c := s.(txs := s.txs[tx := Cleared(req)]); var t := Apply(Apply(c, Supersede(tx)), InsertFirst(tx));
            if SomeActive(s.rows, req.key, req.expected, PUBLISHED) || OnlyDraft(s.rows, req.key, req.expected)
            then Published(s, t, req) else t == s
  {
    hide TableOk, NoClash, Publish, SomeActive, OnlyDraft, Published;
    var c := s.(txs := s.txs[tx := Cleared(req)]);
    var i := ActiveOf(s.rows, req.key);
    ActiveHits(s.rows, req.key, req.expected, PUBLISHED);
    DraftIsFound(s.rows, req.key, req.expected);
    assert c.txs - {tx} == s.txs;
    if SomeActive(s.rows, req.key, req.expected, PUBLISHED) {
      InsertCommits(c, tx, req, i);
      PublishTxs(c, tx, req, i);
      assert c.(txs := c.txs - {tx}) == s;
      GoneStays(Apply(c, Supersede(tx)), tx);
    } else if OnlyDraft(s.rows, req.key, req.expected) {
      DraftInserts(s, tx, req);
    } else {
      assert Apply(c, Supersede(tx)) == c.(txs := c.txs - {tx});
      GoneStays(s, tx);
    }
  }

  lemma DraftInserts(s: State, tx: nat, req: PublishReq)
    requires TableOk(s.rows) && tx !in s.txs && NoClash(s.rows, req.key, req.content)
    requires (req.idem != "" ==> req.idem !in s.ledger) && OnlyDraft(s.rows, req.key, req.expected)
    ensures var c := s.(txs := s.txs[tx := Cleared(req)]);
            Published(s, Apply(Apply(c, Supersede(tx)), InsertFirst(tx)), req)
  {
    hide NoClash, Publish, Published;
    var c := s.(txs := s.txs[tx := Cleared(req)]);
    DraftIsFound(s.rows, req.key, req.expected);
    DraftIsPublishable(s.rows, req.key, req.expected);
    var d := Apply(c, Supersede(tx));
    assert d == c.(txs := c.txs[tx := Drafted(req)]);
    InsertCommits(d, tx, req, |s.rows|);
    assert d.txs - {tx} == s.txs;
    assert d.(txs := d.txs - {tx}) == s;
  }

  lemma DraftIsPublishable(rows: seq<Row>, key: string, expected: nat)
    requires TableOk(rows) && OnlyDraft(rows, key, expected)
    ensures Publishable(rows, key, expected, |rows|)
  {
    var i: nat :| IsDraftAt(rows, i, key, expected);
    assert RowOk(rows[i]) && Led(rows[i], rows);
  }

  /** A publish that nobody gets in the way of, whatever its content, actor and idempotency key: its four steps
      leave the new live revision, the former one inactive, one event, one change record and the ledger
      entry, if and only if it may publish; otherwise they change nothing. */
  lemma PublishSucceedsExactly(s: State, tx: nat, req: PublishReq)
    requires Inv(s) && tx !in s.txs && SlotFree(s.txs, req.content)
    ensures var t := Run(s, Publishing(tx, req)); if MayPublish(s, req) then Published(s, t, req) else t == s
  {
    hide Inv, NoClash, SlotFree, Run, Unrivalled, SomeActive, OnlyDraft, Published;
    assert TableOk(s.rows) by { InvTable(s); }
    FourSteps(s, BeginPublish(tx, req), TakeSlot(tx), Supersede(tx), InsertFirst(tx));
    NoClashIsUnrivalled(s.rows, req.key, req.content);
    if req.approval == "" || req.reason == "" || req.actor == "" || (req.idem != "" && req.idem in s.ledger) {
      GoneStays(s, tx);
    } else {
      assert Apply(s, BeginPublish(tx, req)) == s.(txs := s.txs[tx := Queued(req)]);
      QueuedIsCleared(s, tx, req);
      if NoClash(s.rows, req.key, req.content) { ClearedFinishes(s, tx, req); } else { GoneStays(s, tx); }
    }
  }

  lemma InvTable(s: State)
    requires Inv(s)
    ensures TableOk(s.rows)
  {
  }

  /** While somebody else holds the slot a queued publish or resume stays queued and nothing changes. */
  lemma WaitsForItsSlot(s: State, tx: nat, holder: nat)
    requires tx in s.txs && (s.txs[tx].Queued? || s.txs[tx].Returning?) && holder in s.txs
    requires var c := if s.txs[tx].Queued? then s.txs[tx].req.content else s.txs[tx].content;
             Held(s.txs[holder]) == Some((c.environment, c.priority))
    ensures Apply(s, TakeSlot(tx)) == s
  {
    hide NoClash;
  }

  // ---- lifecycle changes ----

  lemma NextIsFree(rows: seq<Row>, key: string, i: nat)
    requires TableOk(rows) && i < |rows| && rows[i].key == key && rows[i].active
    ensures !Taken(rows, key, rows[i].revision + 1)
  {
    TableRanked(rows);
    S.ActiveIsLatest(rows, i);
  }

  /** Suspend, deprecate and retire move the active row if and only if the matrix allows it, somebody signs, and
      the caller has seen the active row's revision and state; otherwise they change nothing. */
  lemma ShiftSucceedsExactly(s: State, key: string, expected: nat, from: Life, to: Life, actor: string)
    requires Inv(s)
    ensures var t := Apply(s, Shift(key, expected, from, to, actor));
            var may := (from, to) in {(PUBLISHED, SUSPENDED), (PUBLISHED, DEPRECATED), (SUSPENDED, RETIRED), (DEPRECATED, RETIRED)}
                       && actor != "" && SomeActive(s.rows, key, expected, from);
            var operation := if to == SUSPENDED then SUSPEND else if to == DEPRECATED then DEPRECATE else RETIRE;
            && (may ==> exists i :: ActiveAt(s.rows, i, key, expected, from) && Moved(s, t, i, to, operation, actor))
            && (!may ==> t == s)
  {
    hide TableOk, Taken, SomeActive;
    var i := ActiveOf(s.rows, key);
    ActiveHits(s.rows, key, expected, from);
    if SomeActive(s.rows, key, expected, from) { NextIsFree(s.rows, key, i); }
  }

  /** Of the content of the binding's active row. */
  ghost predicate ActiveUnrivalled(rows: seq<Row>, key: string) {
    forall i :: 0 <= i < |rows| && rows[i].key == key && rows[i].active ==> Unrivalled(rows, key, rows[i].content)
  }

  function Resuming(tx: nat, key: string, expected: nat, actor: string): seq<Step> {
    [BeginResume(tx, key, expected, actor), TakeSlot(tx), WriteResume(tx)]
  }

  lemma ThreeSteps(s: State, a: Step, b: Step, c: Step)
    ensures Run(s, [a, b, c]) == Apply(Apply(Apply(s, a), b), c)
  {
    hide Apply;
    RunConcat(s, [a, b], [c]);
    TwoSteps(s, a, b);
    RunOne(Apply(Apply(s, a), b), c);
    assert [a, b, c] == [a, b] + [c];
  }

  lemma ReturningIsReturned(s: State, tx: nat, key: string, expected: nat, actor: string, c: Content)
    requires tx !in s.txs && SlotFree(s.txs, c)
    ensures var q := s.(txs := s.txs[tx := Returning(key, expected, actor, c)]);
            Apply(q, TakeSlot(tx)) == if NoClash(s.rows, key, c) then s.(txs := s.txs[tx := Returned(key, expected, actor, c)]) else s
  {
    hide NoClash;
    var q := s.(txs := s.txs[tx := Returning(key, expected, actor, c)]);
    assert SlotFree(q.txs, c);
    assert q.txs[tx := Returned(key, expected, actor, c)] == s.txs[tx := Returned(key, expected, actor, c)];
    assert q.txs - {tx} == s.txs;
  }

  lemma SuspendedHasNoTwin(rows: seq<Row>, i: nat)
    requires TableOk(rows) && i < |rows| && rows[i].active && rows[i].state == SUSPENDED
    requires NoClash(rows, rows[i].key, rows[i].content)
    ensures !TwinLive(rows, rows[i].content)
  {
    hide Overlaps;
    forall j | 0 <= j < |rows| ensures !Twin(rows[j], rows[i].content) {
      if rows[j].key == rows[i].key {
        if rows[j].active { OneActiveRow(rows, rows[i].key, i); }
      } else if Twin(rows[j], rows[i].content) {
        TwinsClash(rows[j], rows[i].key, rows[i].content);
      }
    }
  }

  lemma ReturnedFinishes(s: State, tx: nat, i: nat, expected: nat, actor: string)
    requires TableOk(s.rows) && tx !in s.txs && i < |s.rows| && s.rows[i].active && s.rows[i].revision == expected
    requires NoClash(s.rows, s.rows[i].key, s.rows[i].content)
    ensures var key, c := s.rows[i].key, s.rows[i].content;
            var t := Apply(s.(txs := s.txs[tx := Returned(key, expected, actor, c)]), WriteResume(tx));
            if s.rows[i].state == SUSPENDED then Moved(s, t, i, PUBLISHED, RESUME, actor) else t == s
  {
    hide TableOk, Taken, TwinLive, NoClash;
    var key, c := s.rows[i].key, s.rows[i].content;
    OneActiveRow(s.rows, key, i);
    NextIsFree(s.rows, key, i);
    if s.rows[i].state == SUSPENDED { SuspendedHasNoTwin(s.rows, i); }
    assert s.txs[tx := Returned(key, expected, actor, c)] - {tx} == s.txs;
  }

  /** A resume that nobody gets in the way of makes the suspended row live again if and only if somebody signs,
      the caller has seen its revision, and no live sibling is in its way; otherwise it changes nothing. */
  lemma ResumeSucceedsExactly(s: State, tx: nat, key: string, expected: nat, actor: string)
    requires Inv(s) && tx !in s.txs
    requires forall i :: 0 <= i < |s.rows| && s.rows[i].key == key && s.rows[i].active ==> SlotFree(s.txs, s.rows[i].content)
    ensures var t := Run(s, Resuming(tx, key, expected, actor));
            var may := actor != "" && SomeActive(s.rows, key, expected, SUSPENDED) && ActiveUnrivalled(s.rows, key);
            && (may ==> exists i :: ActiveAt(s.rows, i, key, expected, SUSPENDED) && Moved(s, t, i, PUBLISHED, RESUME, actor))
            && (!may ==> t == s)
  {
    hide Inv, Run, NoClash, Unrivalled, SlotFree, Moved, Apply;
    assert TableOk(s.rows) by { InvTable(s); }
    ThreeSteps(s, BeginResume(tx, key, expected, actor), TakeSlot(tx), WriteResume(tx));
    ActiveHits(s.rows, key, expected, SUSPENDED);
    ActiveOfFinds(s.rows, key);
    ResumeOpens(s, tx, key, expected, actor);
    var i := ActiveOf(s.rows, key);
    if actor != "" && i < |s.rows| {
      OneActiveRow(s.rows, key, i);
      NoClashIsUnrivalled(s.rows, key, s.rows[i].content);
      if s.rows[i].revision == expected {
        ReturningIsReturned(s, tx, key, expected, actor, s.rows[i].content);
        if NoClash(s.rows, key, s.rows[i].content) { ReturnedFinishes(s, tx, i, expected, actor); }
      }
    }
  }

  /** What the first read of a resume leads to; without an active row, or without a signature, nowhere. */
  lemma ResumeOpens(s: State, tx: nat, key: string, expected: nat, actor: string)
    requires tx !in s.txs
    ensures var i, b := ActiveOf(s.rows, key), Apply(s, BeginResume(tx, key, expected, actor));
            if actor == "" || i == |s.rows| || s.rows[i].revision != expected
            then Apply(Apply(b, TakeSlot(tx)), WriteResume(tx)) == s
            else b == s.(txs := s.txs[tx := Returning(key, expected, actor, s.rows[i].content)])
    ensures Apply(s, WriteResume(tx)) == s
  {
    if actor != "" && ActiveOf(s.rows, key) == |s.rows| { BlindMisses(s, tx, key, expected, actor); }
  }

  lemma BlindMisses(s: State, tx: nat, key: string, expected: nat, actor: string)
    requires tx !in s.txs && ActiveOf(s.rows, key) == |s.rows| && actor != ""
    ensures Apply(Apply(Apply(s, BeginResume(tx, key, expected, actor)), TakeSlot(tx)), WriteResume(tx)) == s
  {
    var b := Apply(s, BeginResume(tx, key, expected, actor));
    assert b == s.(txs := s.txs[tx := Blind(key, expected, actor)]);
    assert b.txs - {tx} == s.txs;
  }

  /** A draft goes in if and only if it names its binding, its environment and who creates it, and the binding is
      new; otherwise nothing changes. */
  lemma CreateSucceedsExactly(s: State, key: string, c: Content, actor: string)
    requires Inv(s)
    ensures var t := Apply(s, Create(key, c, actor));
            if key != "" && c.environment != "" && actor != "" && forall i :: 0 <= i < |s.rows| ==> s.rows[i].key != key
            then t == s.(rows := s.rows + [Row(key, c, DRAFT, 1, false)], changes := s.changes + [Change(key, CREATE, 1, actor)])
            else t == s
  {
    if i :| 0 <= i < |s.rows| && s.rows[i].key == key { assert Led(s.rows[i], s.rows); }
  }

  // ---- the gate, over every run ----

  predicate Signed(req: PublishReq) { req.approval != "" && req.reason != "" && req.actor != "" }

  /** The publish an open transaction is in. */
  function RequestOf(tx: Tx): Option<PublishReq> {
    match tx
    case Queued(req) => Some(req)
    case Cleared(req) => Some(req)
    case Drafted(req) => Some(req)
    case _ => None
  }

  ghost predicate AllSigned(txs: map<nat, Tx>) {
    forall t :: t in txs && RequestOf(txs[t]).Some? ==> Signed(RequestOf(txs[t]).value)
  }

  lemma StepKeepsSigned(s: State, step: Step)
    requires AllSigned(s.txs)
    ensures AllSigned(Apply(s, step).txs)
  {
    hide Publish, Move, NoClash, SlotFree, TwinLive, Taken;
    match step {
      case Supersede(tx) =>
        if tx in s.txs && s.txs[tx].Cleared? {
          var i := ActiveOf(s.rows, s.txs[tx].req.key);
          if i < |s.rows| { PublishTxs(s, tx, s.txs[tx].req, i); }
        }
      case InsertFirst(tx) => if tx in s.txs && s.txs[tx].Drafted? { PublishTxs(s, tx, s.txs[tx].req, |s.rows|); }
      case WriteResume(tx) =>
        if tx in s.txs && (s.txs[tx].Returned? || s.txs[tx].Blind?) {
          WritesKeepTxs(s, s.txs[tx].key, s.txs[tx].expected, SUSPENDED, PUBLISHED, s.txs[tx].actor);
        }
      case Shift(key, expected, from, to, actor) => WritesKeepTxs(s, key, expected, from, to, actor);
      case _ =>
    }
  }

  lemma {:induction false} RunKeepsSigned(s: State, steps: seq<Step>)
    requires AllSigned(s.txs)
    ensures AllSigned(Run(s, steps).txs)
    decreases steps
  {
    hide Apply, AllSigned;
    if steps != [] {
      StepKeepsSigned(s, steps[0]);
      RunKeepsSigned(Apply(s, steps[0]), steps[1..]);
    }
  }

  /** A step that inserts a PUBLISHED row finishes an open publish. */
  lemma InsertsComeFromPublishes(s: State, step: Step)
    requires |Apply(s, step).rows| > |s.rows| && Apply(s, step).rows[|s.rows|].state == PUBLISHED
    ensures step.Supersede? || step.InsertFirst?
    ensures step.tx in s.txs && RequestOf(s.txs[step.tx]).Some?
    ensures var req := RequestOf(s.txs[step.tx]).value;
            && Apply(s, step).rows[|s.rows|].key == req.key
            && Apply(s, step).changes == s.changes + [Change(req.key, PUBLISH, req.expected + 1, req.actor)]
  {
    hide NoClash, SlotFree, TwinLive, Taken;
  }

  /** Over every run no revision is ever published without an approval, a reason and an actor, and its change
      record names that actor. */
  lemma NothingUnsignedIsPublished(steps: seq<Step>, step: Step)
    requires var s := Run(START, steps);
             |Apply(s, step).rows| > |s.rows| && Apply(s, step).rows[|s.rows|].state == PUBLISHED
    ensures var s := Run(START, steps);
            && (step.Supersede? || step.InsertFirst?) && step.tx in s.txs && RequestOf(s.txs[step.tx]).Some?
            && var req := RequestOf(s.txs[step.tx]).value;
               && req.approval != "" && req.reason != "" && req.actor != ""
               && Apply(s, step).changes == s.changes + [Change(req.key, PUBLISH, req.expected + 1, req.actor)]
  {
    hide Run, Apply;
    RunKeepsSigned(START, steps);
    InsertsComeFromPublishes(Run(START, steps), step);
  }
}

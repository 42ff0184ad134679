/** Concrete runs of the binding store: an uncontended first publish, and the run in which a resume
    skips arbitration and two live bindings of one slot come to match the same request. */
module BindingRuns {
  import opened Base
  import opened Scopes
  import opened Binding
  import opened BindingTable
  import opened BindingSlots

  const NARROW := Scope(["t1"], [], [], [])
  const WIDE := Scope(["t1", "t2"], [], [], [])

  function ContentOf(scope: Scope): Content { Content(1, 1, 1, "p", "production", scope, 100) }

  function Request(key: string, scope: Scope): PublishReq {
    PublishReq(key, 1, ContentOf(scope), "approval", "reason", "actor", "")
  }

  function First(key: string, scope: Scope, tx: nat): seq<Step> {
    [Create(key, ContentOf(scope), "actor"), BeginPublish(tx, Request(key, scope)), TakeSlot(tx), Supersede(tx),
     InsertFirst(tx)]
  }

  function DraftRow(key: string, scope: Scope): Row { Row(key, ContentOf(scope), DRAFT, 1, false) }

  function LiveRow(key: string, scope: Scope): Row { Row(key, ContentOf(scope), PUBLISHED, 2, true) }

  lemma RunUnfolds(s: State, step: Step, rest: seq<Step>)
    ensures Run(s, [step] + rest) == Run(Apply(s, step), rest)
  {
    assert ([step] + rest)[1..] == rest;
  }

  /** Rows of other bindings, none of them live with this very content. */
  ghost predicate Foreign(rows: seq<Row>, key: string, c: Content) {
    forall i :: 0 <= i < |rows| ==> rows[i].key != key && !Twin(rows[i], c)
  }

  /** Rows of other bindings, none of them in the way of this content. */
  ghost predicate Strange(rows: seq<Row>, key: string, c: Content) {
    Foreign(rows, key, c) && NoClash(rows, key, c)
  }

  lemma OnlyADraft(rows: seq<Row>, key: string, scope: Scope)
    requires Foreign(rows, key, ContentOf(scope))
    ensures var t := rows + [DraftRow(key, scope)];
            ActiveOf(t, key) == |t| && LatestOf(t, key) == |rows| && !TwinLive(t, ContentOf(scope)) && !Taken(t, key, 2)
  {
    var t := rows + [DraftRow(key, scope)];
    ActiveOfFinds(t, key);
    LatestOfFinds(t, key);
    assert t[|rows|].key == key;
  }

  ghost function Published(s: State, key: string, scope: Scope): State {
    State(s.rows + [LiveRow(key, scope)], s.events + [Event(key, 2, PUBLISHED)],
          s.changes + [Change(key, PUBLISH, 2, "actor")], s.ledger, s.txs)
  }

  lemma DraftClears(s: State, rows: seq<Row>, key: string, scope: Scope, tx: nat)
    requires Strange(rows, key, ContentOf(scope)) && s.rows == rows + [DraftRow(key, scope)] && tx !in s.txs && SlotFree(s.txs, ContentOf(scope))
    ensures var req := Request(key, scope); var b := Apply(s, BeginPublish(tx, req));
            Apply(b, TakeSlot(tx)) == s.(txs := s.txs[tx := Cleared(req)])
  {
    hide Overlaps;
    Unheld(s, tx, Request(key, scope));
    assert s.txs[tx := Queued(Request(key, scope))][tx := Cleared(Request(key, scope))]
        == s.txs[tx := Cleared(Request(key, scope))];
  }

  /** Past its overlap check, a first publish inserts whatever has become live since. */
  lemma DraftInserts(s: State, rows: seq<Row>, key: string, scope: Scope, tx: nat)
    requires Foreign(rows, key, ContentOf(scope)) && s.rows == rows + [DraftRow(key, scope)] && tx !in s.txs
    ensures var c := s.(txs := s.txs[tx := Cleared(Request(key, scope))]);
            Apply(Apply(c, Supersede(tx)), InsertFirst(tx)) == Published(s, key, scope)
  {
    hide TwinLive, Taken;
    var req := Request(key, scope);
    OnlyADraft(rows, key, scope);
    assert s.txs[tx := Cleared(req)][tx := Drafted(req)] - {tx} == s.txs;
  }

  /** With the draft in place and the slot free, publishing it takes four more steps. */
  lemma DraftPublishes(s: State, rows: seq<Row>, key: string, scope: Scope, tx: nat)
    requires Strange(rows, key, ContentOf(scope)) && s.rows == rows + [DraftRow(key, scope)]
    requires tx !in s.txs && SlotFree(s.txs, ContentOf(scope))
    ensures Run(s, Publishing(key, scope, tx)) == Published(s, key, scope)
  {
    hide Apply, Run, SlotFree;
    var req := Request(key, scope);
    DraftClears(s, rows, key, scope, tx);
    DraftInserts(s, rows, key, scope, tx);
    var b := Apply(s, BeginPublish(tx, req));
    var c := Apply(b, TakeSlot(tx));
    RunOfTwo(s, BeginPublish(tx, req), TakeSlot(tx));
    RunOfTwo(c, Supersede(tx), InsertFirst(tx));
    RunConcat(s, [BeginPublish(tx, req), TakeSlot(tx)], [Supersede(tx), InsertFirst(tx)]);
    assert Publishing(key, scope, tx) == [BeginPublish(tx, req), TakeSlot(tx)] + [Supersede(tx), InsertFirst(tx)];
  }

  lemma Unheld(s: State, tx: nat, req: PublishReq)
    requires SlotFree(s.txs, req.content)
    ensures SlotFree(s.txs[tx := Queued(req)], req.content)
  {
  }

  // ---- the run ----

  const BLIND: map<nat, Tx> := map[0 := Blind("a", 3, "actor")]

  /** a is created; tx 0 asks to resume a at revision 3, which does not exist yet. */
  const OPENING: seq<Step> := [Create("a", ContentOf(NARROW), "actor"), BeginResume(0, "a", 3, "actor")]

  /** a is published and suspended, reaching revision 3; b is created. */
  const SUSPENDING: seq<Step> := [Shift("a", 2, PUBLISHED, SUSPENDED, "actor"), Create("b", ContentOf(WIDE), "actor")]

  function Publishing(key: string, scope: Scope, tx: nat): seq<Step> {
    [BeginPublish(tx, Request(key, scope)), TakeSlot(tx), Supersede(tx), InsertFirst(tx)]
  }

  lemma RunOfTwo(s: State, a: Step, b: Step)
    ensures Run(s, [a, b]) == Apply(Apply(s, a), b)
  {
    assert [a, b] == [a] + [b];
    RunUnfolds(s, a, [b]);
    RunOne(Apply(s, a), b);
  }

  lemma Opens()
    ensures var t := Run(START, OPENING);
            t.rows == [DraftRow("a", NARROW)] && t.txs == BLIND
  {
    RunOfTwo(START, OPENING[0], OPENING[1]);
    var a := Apply(START, OPENING[0]);
    assert a.rows == [DraftRow("a", NARROW)];
    assert [] + [DraftRow("a", NARROW)] == a.rows;
    OnlyADraft([], "a", NARROW);
  }

  const SUSPENDED_A := Row("a", ContentOf(NARROW), SUSPENDED, 3, true)

  lemma Suspends(s: State)
    requires s.rows == [DraftRow("a", NARROW), LiveRow("a", NARROW)]
    ensures var t := Run(s, SUSPENDING);
            t.rows == [DraftRow("a", NARROW), SUSPENDED_A, DraftRow("b", WIDE)] && t.txs == s.txs
  {
    RunOfTwo(s, SUSPENDING[0], SUSPENDING[1]);
    assert s.rows[..1] == [DraftRow("a", NARROW)] && s.rows[..1][..0] == [];
    assert ActiveOf(s.rows[..1][..0], "a") == 0 && ActiveOf(s.rows[..1], "a") == 1 && ActiveOf(s.rows, "a") == 1;
    var m := Apply(s, SUSPENDING[0]);
    assert m.rows == [DraftRow("a", NARROW), SUSPENDED_A];
  }

  const STEPS: seq<Step> := PREFIX + Publishing("b", WIDE, 2)

  const PREFIX: seq<Step> := OPENING + Publishing("a", NARROW, 1) + SUSPENDING

  lemma BIsDrafted()
    ensures var t := Run(START, PREFIX);
            t.rows == [DraftRow("a", NARROW), SUSPENDED_A] + [DraftRow("b", WIDE)] && t.txs == BLIND
  {
    hide Run, Apply, Strange;
    Opens();
    var s1 := Run(START, OPENING);
    assert s1.rows == [] + [DraftRow("a", NARROW)];
    NothingLiveIsStrange([], "a", ContentOf(NARROW));
    DraftPublishes(s1, [], "a", NARROW, 1);
    var s2 := Run(s1, Publishing("a", NARROW, 1));
    Suspends(s2);
    RunConcat(START, OPENING, Publishing("a", NARROW, 1));
    RunConcat(START, OPENING + Publishing("a", NARROW, 1), SUSPENDING);
  }

  lemma NothingLiveIsStrange(rows: seq<Row>, key: string, c: Content)
    requires forall i :: 0 <= i < |rows| ==> rows[i].key != key && !Live(rows[i])
    ensures Strange(rows, key, c)
  {
  }

  lemma BothPublished()
    ensures var t := Run(START, STEPS);
            t.rows == [DraftRow("a", NARROW), SUSPENDED_A, DraftRow("b", WIDE), LiveRow("b", WIDE)] && t.txs == BLIND
  {
    hide Run, Apply, Strange;
    BIsDrafted();
    NothingLiveIsStrange([DraftRow("a", NARROW), SUSPENDED_A], "b", ContentOf(WIDE));
    DraftPublishes(Run(START, PREFIX), [DraftRow("a", NARROW), SUSPENDED_A], "b", WIDE, 2);
    RunConcat(START, PREFIX, Publishing("b", WIDE, 2));
  }

  /** The resume that skipped arbitration: a and b are both live in one slot, and a request from tenant
      t1 matches both. */
  lemma ABlindResumeBreaksTheSlot()
    ensures !AllDisjoint(Run(START, STEPS + [WriteResume(0)]).rows)
  {
    hide Run;
    BothPublished();
    var s := Run(START, STEPS);
    RunConcat(START, STEPS, [WriteResume(0)]);
    RunOne(s, WriteResume(0));
    StartHolds();
    RunKeepsInv(START, STEPS);
    RevivesIntoAClash(s);
    BlindHitBreaksSlots(s, 0);
    SlotsOkMeansDisjoint(Apply(s, WriteResume(0)).rows);
  }

  lemma RevivesIntoAClash(s: State)
    requires s.rows == [DraftRow("a", NARROW), SUSPENDED_A, DraftRow("b", WIDE), LiveRow("b", WIDE)] && s.txs == BLIND
    requires TableOk(s.rows)
    ensures Revives(s, 0) && !NoClash(s.rows, "a", s.rows[ActiveOf(s.rows, "a")].content)
  {
    TableRanked(s.rows);
    OneActive(s.rows, 1);
    assert "t1" in NARROW.tenants && "t1" in WIDE.tenants;
    assert Clashes(s.rows[3], "a", ContentOf(NARROW));
    assert NARROW.tenants != WIDE.tenants;
  }

  // ---- the second way to break a slot ----

  /** As before, but b's publish has taken the slot and passed its overlap check, and not inserted yet, when
      the unguarded resume writes. */
  const CHECKED: seq<Step> := PREFIX + [BeginPublish(2, Request("b", WIDE)), TakeSlot(2)]

  const B_CLEARED: map<nat, Tx> := map[0 := Blind("a", 3, "actor"), 2 := Cleared(Request("b", WIDE))]

  const REVIVED_A := Row("a", ContentOf(NARROW), PUBLISHED, 4, true)

  lemma BIsCleared()
    ensures var t := Run(START, CHECKED);
            t.rows == [DraftRow("a", NARROW), SUSPENDED_A, DraftRow("b", WIDE)] && t.txs == B_CLEARED
  {
    hide Run, Apply, Strange;
    BIsDrafted();
    var s := Run(START, PREFIX);
    NothingLiveIsStrange([DraftRow("a", NARROW), SUSPENDED_A], "b", ContentOf(WIDE));
    DraftClears(s, [DraftRow("a", NARROW), SUSPENDED_A], "b", WIDE, 2);
    RunOfTwo(s, BeginPublish(2, Request("b", WIDE)), TakeSlot(2));
    RunConcat(START, PREFIX, [BeginPublish(2, Request("b", WIDE)), TakeSlot(2)]);
  }

  /** The check that b passed no longer holds, although no live binding clashes with what is revived. */
  lemma RevivesUnderTheCheck(s: State)
    requires s.rows == [DraftRow("a", NARROW), SUSPENDED_A, DraftRow("b", WIDE)] && s.txs == B_CLEARED && Inv(s)
    ensures BlindBreaks(s, 0) && NoClash(s.rows, "a", ContentOf(NARROW))
    ensures var t := Apply(s, WriteResume(0));
            t.rows == [DraftRow("a", NARROW), REVIVED_A, DraftRow("b", WIDE)] && t.txs == map[2 := Cleared(Request("b", WIDE))]
  {
    assert TableOk(s.rows);
    TableRanked(s.rows);
    OneActive(s.rows, 1);
    assert "t1" in NARROW.tenants && "t1" in WIDE.tenants;
    assert !Tolerates(s.txs[2], "a", ContentOf(NARROW));
    assert Undercuts(s.txs, 0, "a", ContentOf(NARROW));
    var t, i := BlindMoves(s, 0);
    assert s.txs - {0} == map[2 := Cleared(Request("b", WIDE))];
  }

  /** The UPDATE itself leaves the table disjoint; b's publish, whose check it has undercut, then inserts
      and both bindings are live in one slot. */
  lemma AnUndercutCheckBreaksTheSlot()
    ensures AllDisjoint(Run(START, CHECKED + [WriteResume(0)]).rows)
    ensures !AllDisjoint(Run(START, CHECKED + [WriteResume(0)] + [Supersede(2), InsertFirst(2)]).rows)
  {
    hide Run, Apply;
    BIsCleared();
    var s := Run(START, CHECKED);
    StartHolds();
    RunKeepsInv(START, CHECKED);
    RevivesUnderTheCheck(s);
    var t := Apply(s, WriteResume(0));
    RunConcat(START, CHECKED, [WriteResume(0)]);
    RunOne(s, WriteResume(0));
    assert t.rows == [DraftRow("a", NARROW), REVIVED_A] + [DraftRow("b", WIDE)];
    var idle := t.(txs := map[]);
    assert idle.(txs := idle.txs[2 := Cleared(Request("b", WIDE))]) == t;
    DraftInserts(idle, [DraftRow("a", NARROW), REVIVED_A], "b", WIDE, 2);
    RunConcat(START, CHECKED + [WriteResume(0)], [Supersede(2), InsertFirst(2)]);
    RunOfTwo(t, Supersede(2), InsertFirst(2));
    OneLiveIsDisjoint(t.rows, 1);
    TwoLiveAmbiguous(Run(t, [Supersede(2), InsertFirst(2)]).rows);
  }

  lemma OneLiveIsDisjoint(rows: seq<Row>, i: nat)
    requires i < |rows| && forall j :: 0 <= j < |rows| && j != i ==> !Live(rows[j])
    ensures AllDisjoint(rows)
  {
  }

  lemma TwoLiveAmbiguous(rows: seq<Row>)
    requires rows == [DraftRow("a", NARROW), REVIVED_A, DraftRow("b", WIDE), LiveRow("b", WIDE)]
    ensures !AllDisjoint(rows)
  {
    assert "t1" in NARROW.tenants && "t1" in WIDE.tenants;
    assert Ambiguous(rows[1], rows[3], Query("t1", "", "", ""));
  }
}

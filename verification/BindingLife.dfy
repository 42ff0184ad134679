/** The life of a binding over every run: revisions, events, retirement, idempotency keys. */
module BindingLife {
  import opened Base
  import opened Scopes
  import opened Binding
  import opened BindingTable

  /** The latest revision of a binding; 0 for an unknown one. */
  function Latest(rows: seq<Row>, key: string): nat {
    var i := LatestOf(rows, key);
    if i < |rows| then rows[i].revision else 0
  }

  ghost predicate Known(rows: seq<Row>, key: string) { Taken(rows, key, 1) }

  lemma LatestAtTip(rows: seq<Row>, key: string, revision: nat, state: Life)
    requires TableOk(rows) && AtTip(rows, key, revision, state)
    ensures Latest(rows, key) == revision
  {
    hide TableOk, LatestOf;
    TableRanked(rows);
    var i :| 0 <= i < |rows| && rows[i] == Row(key, rows[i].content, state, revision, true);
    LatestOfFinds(rows, key);
  }

  lemma LatestOfDraft(rows: seq<Row>, key: string)
    requires TableOk(rows) && !HasActive(rows, key)
    ensures Latest(rows, key) == if Known(rows, key) then 1 else 0
  {
    LatestOfFinds(rows, key);
    var l := LatestOf(rows, key);
    if l < |rows| { assert RowOk(rows[l]) && Led(rows[l], rows); }
  }

  /** A known binding is at one more than its number of events. */
  lemma LatestCountsEvents(s: State, key: string)
    requires Inv(s)
    ensures Latest(s.rows, key) == if Known(s.rows, key) then |Of(s.events, key)| + 1 else 0
  {
    hide TableOk, Latest;
    var es := Of(s.events, key);
    assert StreamOk(s.rows, es, key);
    if es == [] {
      LatestOfDraft(s.rows, key);
    } else {
      LatestAtTip(s.rows, key, |es| + 1, es[|es| - 1].state);
      var i :| 0 <= i < |s.rows| && s.rows[i].key == key;
      KnownRow(s.rows, i);
    }
  }

  lemma KnownRow(rows: seq<Row>, i: nat)
    requires TableOk(rows) && i < |rows|
    ensures Known(rows, rows[i].key)
  {
    assert Led(rows[i], rows);
  }

  /** In every reachable state a binding has at most one active row, ahead of all its others. */
  lemma OneActiveRowAtTheTop(steps: seq<Step>, i: nat, j: nat)
    requires var rows := Run(START, steps).rows;
             i < |rows| && j < |rows| && i != j && rows[i].active && rows[j].key == rows[i].key
    ensures var rows := Run(START, steps).rows; !rows[j].active && rows[j].revision < rows[i].revision
  {
    StartHolds();
    RunKeepsInv(START, steps);
    var rows := Run(START, steps).rows;
    assert Ranked(rows[i], rows[j]) && Ranked(rows[j], rows[i]);
  }

  /** In every reachable state the events of a binding carry revisions 2, 3, ... up to its latest, and
      the last one carries the state of its active row. */
  lemma StreamReachesTheActiveRow(steps: seq<Step>, key: string)
    ensures var s := Run(START, steps); var es := Of(s.events, key);
            && (forall k :: 0 <= k < |es| ==> es[k].revision == k + 2)
            && (Known(s.rows, key) ==> Latest(s.rows, key) == |es| + 1)
            && (es != [] ==> AtTip(s.rows, key, Latest(s.rows, key), es[|es| - 1].state))
  {
    StartHolds();
    RunKeepsInv(START, steps);
    var s := Run(START, steps);
    assert StreamOk(s.rows, Of(s.events, key), key);
    LatestCountsEvents(s, key);
    if Of(s.events, key) != [] { TipIsKnown(s, key); }
  }

  lemma TipIsKnown(s: State, key: string)
    requires Inv(s) && Of(s.events, key) != []
    ensures Known(s.rows, key)
  {
    var es := Of(s.events, key);
    assert StreamOk(s.rows, es, key);
    var i :| 0 <= i < |s.rows| && s.rows[i] == Row(key, s.rows[i].content, es[|es| - 1].state, |es| + 1, true);
    KnownRow(s.rows, i);
  }

  // ---- one mutation, one revision, one event, one change record ----

  /** Nothing happened; a draft was made; or exactly one binding moved to its next revision with one
      event and one change record to show for it. */
  ghost predicate Accounted(s: State, t: State) {
    || (t.rows == s.rows && t.events == s.events && t.changes == s.changes && t.ledger == s.ledger)
    || (t.events == s.events && t.ledger == s.ledger && |t.changes| == |s.changes| + 1
        && DraftMade(s, t, t.changes[|s.changes|]) && s.changes <= t.changes)
    || (|t.events| == |s.events| + 1 && |t.changes| == |s.changes| + 1
        && s.events <= t.events && s.changes <= t.changes && Advanced(s, t, t.events[|s.events|], t.changes[|s.changes|]))
  }

  ghost predicate DraftMade(s: State, t: State, c: Change) {
    && c.operation == CREATE && Latest(s.rows, c.key) == 0 && Latest(t.rows, c.key) == 1 == c.revision
    && forall k :: k != c.key ==> Latest(t.rows, k) == Latest(s.rows, k)
  }

  ghost predicate Advanced(s: State, t: State, e: Event, c: Change) {
    && c.key == e.key && c.revision == e.revision && c.operation != CREATE
    && e.revision == Latest(s.rows, e.key) + 1 == Latest(t.rows, e.key)
    && AtTip(t.rows, e.key, e.revision, e.state)
    && forall k :: k != e.key ==> Latest(t.rows, k) == Latest(s.rows, k)
  }

  lemma KnownStays(s: State, t: State, o: Outcome, key: string)
    requires TableOk(s.rows) && Did(s, t, o)
    ensures Known(t.rows, key) <==> Known(s.rows, key) || (o.Created? && o.key == key)
  {
    if Known(s.rows, key) { DraftTakenStays(s, t, o, key); }
    if Known(t.rows, key) {
      var i :| 0 <= i < |t.rows| && t.rows[i].key == key && t.rows[i].revision == 1;
      if i < |s.rows| {
        assert RowOk(s.rows[i]);
        assert s.rows[i].key == key && s.rows[i].revision == 1;
      }
    }
    if o.Created? { assert t.rows[|s.rows|].key == o.key && t.rows[|s.rows|].revision == 1; }
  }

  lemma LatestAfter(s: State, t: State, o: Outcome, key: string)
    requires Inv(s) && Inv(t) && Did(s, t, o)
    ensures |Of(t.events, key)| == |Of(s.events, key)| ==>
              Latest(t.rows, key) == if o.Created? && o.key == key then 1 else Latest(s.rows, key)
  {
    hide Did, Inv, Known;
    LatestCountsEvents(s, key);
    LatestCountsEvents(t, key);
    assert TableOk(s.rows) by { InvTable(s); }
    KnownStays(s, t, o, key);
    if o.Created? && o.key == key && |Of(t.events, key)| == |Of(s.events, key)| {
      CreatedHasNoEvents(s, t, o);
    }
  }

  lemma InvTable(s: State)
    requires Inv(s)
    ensures TableOk(s.rows) && StreamsOk(s.rows, s.events)
  {
  }

  lemma CreatedHasNoEvents(s: State, t: State, o: Outcome)
    requires Inv(s) && Did(s, t, o) && o.Created?
    ensures Of(s.events, o.key) == [] && !Known(s.rows, o.key)
  {
    if Of(s.events, o.key) != [] { TipIsKnown(s, o.key); }
  }

  lemma EventAdvances(s: State, t: State, o: Outcome, e: Event, c: Change)
    requires Inv(s) && Inv(t) && Did(s, t, o)
    requires t.events == s.events + [e] && t.changes == s.changes + [c]
    requires c.key == e.key && c.revision == e.revision && c.operation != CREATE
    ensures Advanced(s, t, e, c)
  {
    hide Latest, Known, Inv, Did, AtTip;
    NotADraft(s, t, o, e);
    OfAppend(s.events, e, e.key);
    LatestCountsEvents(s, e.key);
    LatestCountsEvents(t, e.key);
    assert TableOk(s.rows) by { InvTable(s); }
    KnownStays(s, t, o, e.key);
    TipIsKnown(t, e.key);
    TipOfStream(t, e.key);
    forall k | k != e.key ensures Latest(t.rows, k) == Latest(s.rows, k) {
      OfAppend(s.events, e, k);
      LatestAfter(s, t, o, k);
    }
  }

  lemma NotADraft(s: State, t: State, o: Outcome, e: Event)
    requires Did(s, t, o) && t.events == s.events + [e]
    ensures !o.Created?
  {
  }

  lemma TipOfStream(s: State, key: string)
    requires Inv(s) && Of(s.events, key) != []
    ensures var es := Of(s.events, key); AtTip(s.rows, key, |es| + 1, es[|es| - 1].state)
                                          && es[|es| - 1].revision == |es| + 1
  {
    assert StreamOk(s.rows, Of(s.events, key), key);
  }

  /** Every step of every run is accounted for. */
  lemma EveryMutationIsAccountedFor(s: State, step: Step)
    requires Inv(s)
    ensures Accounted(s, Apply(s, step))
  {
    hide Apply, Inv, Latest;
    InvTable(s);
    assert DraftsOk(s.rows, s.txs) by { InvDrafts(s); }
    var t := Apply(s, step);
    var o := StepDid(s, step);
    StepKeepsInv(s, step);
    match o {
      case Refused =>
      case Created(key, _, actor) =>
        forall k ensures Latest(t.rows, k) == if k == key then 1 else Latest(s.rows, k) { LatestAfter(s, t, o, k); }
        CreatedHasNoEvents(s, t, o);
        LatestCountsEvents(s, key);
      case Superseded(req, _) =>
        EventAdvances(s, t, o, Event(req.key, req.expected + 1, PUBLISHED),
                      Change(req.key, PUBLISH, req.expected + 1, req.actor));
      case Shifted(i, to, actor) =>
        var r := s.rows[i];
        EventAdvances(s, t, o, Event(r.key, r.revision + 1, to), Change(r.key, OperationOf(to), r.revision + 1, actor));
    }
  }

  lemma InvDrafts(s: State)
    requires Inv(s)
    ensures DraftsOk(s.rows, s.txs)
  {
  }

  // ---- retirement and the ledger ----

  lemma StepMoves(s: State, step: Step)
    requires Inv(s)
    ensures Moves(s.rows, Apply(s, step).rows)
    ensures forall k :: k in s.ledger ==> k in Apply(s, step).ledger && Apply(s, step).ledger[k] == s.ledger[k]
  {
    hide Apply;
    var o := StepDid(s, step);
    DidMoves(s, Apply(s, step), o);
  }

  /** RETIRED is never left: the row stays active, at its revision, for ever. */
  lemma {:induction false} RetiredIsFinal(s: State, steps: seq<Step>, i: nat)
    requires Inv(s) && i < |s.rows| && s.rows[i].active && s.rows[i].state == RETIRED
    ensures i < |Run(s, steps).rows| && Run(s, steps).rows[i] == s.rows[i]
    decreases steps
  {
    hide Inv, Apply;
    if steps != [] {
      StepMoves(s, steps[0]);
      StepKeepsInv(s, steps[0]);
      assert RowMoves(s.rows[i], Apply(s, steps[0]).rows[i]);
      RetiredIsFinal(Apply(s, steps[0]), steps[1..], i);
    }
  }

  /** No row's key or content ever changes, and no row disappears. */
  lemma {:induction false} ContentIsFrozen(s: State, steps: seq<Step>, i: nat)
    requires Inv(s) && i < |s.rows|
    ensures var t := Run(s, steps).rows; i < |t| && t[i].key == s.rows[i].key && t[i].content == s.rows[i].content
    decreases steps
  {
    hide Inv, Apply;
    if steps != [] {
      StepMoves(s, steps[0]);
      StepKeepsInv(s, steps[0]);
      assert RowMoves(s.rows[i], Apply(s, steps[0]).rows[i]);
      ContentIsFrozen(Apply(s, steps[0]), steps[1..], i);
    }
  }

  /** Once an idempotency key has published, its entry stands and every later publish with that key
      writes nothing. */
  lemma {:induction false} KeysPublishOnce(s: State, steps: seq<Step>, tx: nat, req: PublishReq)
    requires Inv(s) && req.idem != "" && req.idem in s.ledger
    ensures var t := Run(s, steps); req.idem in t.ledger && t.ledger[req.idem] == s.ledger[req.idem]
    ensures Apply(Run(s, steps), BeginPublish(tx, req)) == Run(s, steps)
    decreases steps
  {
    hide Inv;
    if steps != [] {
      StepMoves(s, steps[0]);
      StepKeepsInv(s, steps[0]);
      KeysPublishOnce(Apply(s, steps[0]), steps[1..], tx, req);
    }
  }

  /** ... and so does one that had already passed the ledger read when the key published. */
  lemma LateDuplicatesAreRefused(s: State, step: Step, tx: nat)
    requires step == Supersede(tx) || step == InsertFirst(tx)
    requires tx in s.txs && (s.txs[tx].Cleared? || s.txs[tx].Drafted?)
    requires s.txs[tx].req.idem != "" && s.txs[tx].req.idem in s.ledger
    ensures Did(s, Apply(s, step), Refused)
  {
  }
}

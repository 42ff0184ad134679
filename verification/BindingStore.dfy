/** The binding store's commands over its tables. */
module BindingStore {
  import opened Base
  import opened Scopes
  import opened Binding

  /** What a publish reads before it queues for its slot. */
  datatype Opened = Gated | Replayed | Superseded | KeyReused | Waiting

  class Store {
    var rows: seq<Row>
    var events: seq<Event>
    var changes: seq<Change>
    var ledger: map<string, Applied>
    var txs: map<nat, Tx>   // open transactions, with the advisory locks they hold

    ghost function Model(): State
      reads this
    {
      State(rows, events, changes, ledger, txs)
    }

    constructor ()
      ensures Model() == START
    {
      rows, events, changes, ledger, txs := [], [], [], map[], map[];
    }

    /** One unique violation refuses the whole transaction. */
    method Create(key: string, content: Content, raw: Scope, nfc: string -> string, actor: string)
      modifies this`rows, this`changes
      ensures Model() == Apply(old(Model()), Step.Create(key, content.(scope := CanonicalScope(raw, nfc)), actor))
    {
      if key == "" || content.environment == "" || actor == "" { return; }
      var scope := CanonicalOf(raw, nfc);
      if Taken(rows, key, 1) { return; }
      rows := rows + [Row(key, content.(scope := scope), DRAFT, 1, false)];
      changes := changes + [Change(key, CREATE, 1, actor)];
    }

    method CanonicalOf(raw: Scope, nfc: string -> string) returns (scope: Scope)
      ensures scope == CanonicalScope(raw, nfc)
    {
      var tenants := CanonicalizeStrings(raw.tenants, nfc);
      var factories := CanonicalizeStrings(raw.factories, nfc);
      var regions := CanonicalizeStrings(raw.regions, nfc);
      var agents := CanonicalizeStrings(raw.agents, nfc);
      scope := Scope(tenants, factories, regions, agents);
    }

    /** PublishGate, then the idempotency ledger: a replay of an effective publish answers without
        writing, a superseded one and a reused key are refused. */
    method BeginPublish(tx: nat, req: PublishReq) returns (outcome: Opened)
      requires tx !in txs
      modifies this`txs
      ensures Model() == Apply(old(Model()), Step.BeginPublish(tx, req))
      ensures outcome != Waiting ==> Model() == old(Model())
      ensures outcome == if !Gate(req) then Gated
                         else if req.idem == "" || req.idem !in ledger then Waiting
                         else if ledger[req.idem].intent != Intent(req.key, req.content) then KeyReused
                         else if IsActive(rows, ledger[req.idem].key, ledger[req.idem].revision) then Replayed
                         else Superseded
    {
      if req.approval == "" || req.reason == "" || req.actor == "" { return Gated; }
      if req.idem != "" && req.idem in ledger {
        var entry := ledger[req.idem];
        if entry.intent != Intent(req.key, req.content) { return KeyReused; }
        for i := 0 to |rows|
          invariant forall k :: 0 <= k < i ==> !IsActiveRow(rows[k], entry.key, entry.revision)
        {
          if IsActiveRow(rows[i], entry.key, entry.revision) { return Replayed; }
        }
        return Superseded;
      }
      txs := txs[tx := Queued(req)];
      return Waiting;
    }

    /** Resume reads the active row; a stale revision is refused, and no row at all goes on to the
        UPDATE without any arbitration. */
    method BeginResume(tx: nat, key: string, expected: nat, actor: string)
      requires tx !in txs
      modifies this`txs
      ensures Model() == Apply(old(Model()), Step.BeginResume(tx, key, expected, actor))
    {
      if actor == "" { return; }
      var i := ActiveOf(rows, key);
      if i == |rows| {
        txs := txs[tx := Blind(key, expected, actor)];
      } else if rows[i].revision == expected {
        txs := txs[tx := Returning(key, expected, actor, rows[i].content)];
      }
    }

    /** overlapGuard's scan of the siblings in the slot. */
    method FindClash(key: string, c: Content) returns (clash: bool)
      ensures clash <==> !NoClash(rows, key, c)
    {
      for i := 0 to |rows|
        invariant forall k :: 0 <= k < i ==> !Clashes(rows[k], key, c)
      {
        if Live(rows[i]) && rows[i].key != key && SlotOf(rows[i].content) == SlotOf(c) {
          var overlap := OverlapTest(c.scope, rows[i].content.scope);
          if overlap {
            assert Clashes(rows[i], key, c);
            return true;
          }
        }
      }
      return false;
    }

    /** The advisory lock, once it is free, and the guard under it. */
    method TakeSlot(tx: nat)
      modifies this`txs
      ensures Model() == Apply(old(Model()), Step.TakeSlot(tx))
    {
      if tx !in txs || !(txs[tx].Queued? || txs[tx].Returning?) { return; }
      var t := txs[tx];
      var c := if t.Queued? then t.req.content else t.content;
      if !SlotFree(txs, c) { return; }
      var clash := FindClash(KeyOf(t), c);
      if clash {
        txs := txs - {tx};
      } else if t.Queued? {
        txs := txs[tx := Cleared(t.req)];
      } else {
        txs := txs[tx := Returned(t.key, t.expected, t.actor, t.content)];
      }
    }

    /** The INSERT with its constraints, the change record, the event and the ledger entry. */
    method Insert(tx: nat, req: PublishReq, prior: nat) returns (revision: Option<nat>)
      requires prior <= |rows|
      modifies this
      ensures Model() == Binding.Publish(old(Model()), tx, req, prior)
      ensures revision == if |events| > |old(events)| then Some(req.expected + 1) else None
    {
      txs := txs - {tx};
      revision := None;
      var next, table := req.expected + 1, Deactivate(rows, prior);
      if Taken(table, req.key, next) || TwinLive(table, req.content) || ActiveOf(table, req.key) < |table| { return; }
      if req.idem != "" && req.idem in ledger { return; }
      rows := table + [Row(req.key, req.content, PUBLISHED, next, true)];
      events := events + [Event(req.key, next, PUBLISHED)];
      changes := changes + [Change(req.key, PUBLISH, next, req.actor)];
      if req.idem != "" { ledger := ledger[req.idem := Applied(req.key, next, Intent(req.key, req.content))]; }
      revision := Some(next);
    }

    /** The superseding UPDATE; on a miss the latest row decides. */
    method Supersede(tx: nat) returns (revision: Option<nat>)
      modifies this
      ensures Model() == Apply(old(Model()), Step.Supersede(tx))
      ensures revision.Some? <==> |events| > |old(events)|
    {
      hide Binding.Publish;
      revision := None;
      if tx !in txs || !txs[tx].Cleared? { return; }
      var req := txs[tx].req;
      var i := ActiveOf(rows, req.key);
      if i < |rows| && Hits(rows[i], req.expected, PUBLISHED) {
        revision := Insert(tx, req, i);
        return;
      }
      var l := LatestOf(rows, req.key);
      if l == |rows| || rows[l].revision != req.expected || rows[l].active || rows[l].state != DRAFT {
        txs := txs - {tx};
      } else {
        txs := txs[tx := Drafted(req)];
      }
    }

    method InsertFirst(tx: nat) returns (revision: Option<nat>)
      modifies this
      ensures Model() == Apply(old(Model()), Step.InsertFirst(tx))
      ensures revision.Some? <==> |events| > |old(events)|
    {
      hide Binding.Publish;
      revision := None;
      if tx in txs && txs[tx].Drafted? { revision := Insert(tx, txs[tx].req, |rows|); }
    }

    /** The guarded UPDATE of transition, with its change record and event. */
    method Update(key: string, expected: nat, from: Life, to: Life, actor: string) returns (ok: bool)
      modifies this`rows, this`events, this`changes
      ensures Model() == Move(old(Model()), key, expected, from, to, actor)
      ensures ok <==> |events| > |old(events)|
    {
      var i := ActiveOf(rows, key);
      if i == |rows| || !Hits(rows[i], expected, from) { return false; }
      if Taken(rows, key, expected + 1) || (to == PUBLISHED && TwinLive(rows, rows[i].content)) { return false; }
      rows := rows[i := rows[i].(state := to, revision := expected + 1)];
      events := events + [Event(key, expected + 1, to)];
      changes := changes + [Change(key, OperationOf(to), expected + 1, actor)];
      return true;
    }

    method WriteResume(tx: nat)
      modifies this
      ensures Model() == Apply(old(Model()), Step.WriteResume(tx))
    {
      hide Move;
      if tx !in txs || !(txs[tx].Returned? || txs[tx].Blind?) { return; }
      var t := txs[tx];
      var ok := Update(t.key, t.expected, SUSPENDED, PUBLISHED, t.actor);
      UpdateKeepsTxs(old(Model()), t);
      txs := txs - {tx};
    }

    /** Suspend, Deprecate and Retire: one guarded UPDATE each. */
    method Shift(key: string, expected: nat, from: Life, to: Life, actor: string) returns (ok: bool)
      modifies this`rows, this`events, this`changes
      ensures Model() == Apply(old(Model()), Step.Shift(key, expected, from, to, actor))
    {
      hide Move;
      if !Legal(from, to) || to == PUBLISHED || actor == "" { return false; }
      ok := Update(key, expected, from, to, actor);
    }

    method Rollback(tx: nat)
      modifies this`txs
      ensures Model() == Apply(old(Model()), Step.Rollback(tx))
    {
      txs := txs - {tx};
    }

    method Do(step: Step)
      modifies this
      ensures Model() == Apply(old(Model()), step)
    {
      hide Binding.Publish, Move, Guard, Arbitrate;
      match step
      case Create(key, c, actor) =>
        if key != "" && c.environment != "" && actor != "" && !Taken(rows, key, 1) {
          rows := rows + [Row(key, c, DRAFT, 1, false)];
          changes := changes + [Change(key, CREATE, 1, actor)];
        }
      case BeginPublish(tx, req) => if tx !in txs { var _ := BeginPublish(tx, req); }
      case BeginResume(tx, key, expected, actor) => if tx !in txs { BeginResume(tx, key, expected, actor); }
      case TakeSlot(tx) => TakeSlot(tx);
      case Supersede(tx) => var _ := Supersede(tx);
      case InsertFirst(tx) => var _ := InsertFirst(tx);
      case WriteResume(tx) => WriteResume(tx);
      case Shift(key, expected, from, to, actor) => var _ := Shift(key, expected, from, to, actor);
      case Rollback(tx) => Rollback(tx);
    }

    /** What other transactions do meanwhile. */
    method Others(gap: seq<Step>)
      modifies this
      ensures Model() == Run(old(Model()), gap)
    {
      hide Apply;
      ghost var start := Model();
      for i := 0 to |gap|
        invariant Model() == Run(start, gap[..i])
      {
        assert gap[..i + 1] == gap[..i] + [gap[i]];
        RunConcat(start, gap[..i], [gap[i]]);
        RunOne(Run(start, gap[..i]), gap[i]);
        Do(gap[i]);
      }
      assert gap[..|gap|] == gap;
    }

    /** Publish: each statement group, with whatever commits in between. */
    method Publish(tx: nat, req: PublishReq, g1: seq<Step>, g2: seq<Step>, g3: seq<Step>)
      requires tx !in txs
      modifies this
      ensures Model() == Run(old(Model()), PublishTrace(tx, req, g1, g2, g3))
    {
      hide Apply, Run;
      ghost var s := Model();
      var _ := BeginPublish(tx, req);
      Others(g1);
      RunNothing(s);
      TraceStep(s, s, [], Step.BeginPublish(tx, req), g1);
      ghost var a := [Step.BeginPublish(tx, req)] + g1;
      assert [] + a == a;
      TakeSlot(tx);
      Others(g2);
      TraceStep(s, Run(s, a), a, Step.TakeSlot(tx), g2);
      ghost var b := a + ([Step.TakeSlot(tx)] + g2);
      var _ := Supersede(tx);
      Others(g3);
      TraceStep(s, Run(s, b), b, Step.Supersede(tx), g3);
      ghost var c := b + ([Step.Supersede(tx)] + g3);
      var _ := InsertFirst(tx);
      TraceStep(s, Run(s, c), c, Step.InsertFirst(tx), []);
      assert [Step.InsertFirst(tx)] + [] == [Step.InsertFirst(tx)];
      RunNothing(Apply(Run(s, c), Step.InsertFirst(tx)));
    }

    /** Resume: the read, the slot, the UPDATE. */
    method Resume(tx: nat, key: string, expected: nat, actor: string, g1: seq<Step>, g2: seq<Step>)
      requires tx !in txs
      modifies this
      ensures Model() == Run(old(Model()), ResumeTrace(tx, key, expected, actor, g1, g2))
    {
      hide Apply, Run;
      ghost var s := Model();
      BeginResume(tx, key, expected, actor);
      Others(g1);
      RunNothing(s);
      TraceStep(s, s, [], Step.BeginResume(tx, key, expected, actor), g1);
      ghost var a := [Step.BeginResume(tx, key, expected, actor)] + g1;
      assert [] + a == a;
      TakeSlot(tx);
      Others(g2);
      TraceStep(s, Run(s, a), a, Step.TakeSlot(tx), g2);
      ghost var b := a + ([Step.TakeSlot(tx)] + g2);
      WriteResume(tx);
      TraceStep(s, Run(s, b), b, Step.WriteResume(tx), []);
      assert [Step.WriteResume(tx)] + [] == [Step.WriteResume(tx)];
      RunNothing(Apply(Run(s, b), Step.WriteResume(tx)));
    }
  }

  predicate IsActiveRow(r: Row, key: string, revision: nat) { r.key == key && r.revision == revision && r.active }

  ghost predicate IsActive(rows: seq<Row>, key: string, revision: nat) {
    exists i :: 0 <= i < |rows| && IsActiveRow(rows[i], key, revision)
  }

  ghost function PublishTrace(tx: nat, req: PublishReq, g1: seq<Step>, g2: seq<Step>, g3: seq<Step>): seq<Step> {
    [BeginPublish(tx, req)] + g1 + ([TakeSlot(tx)] + g2) + ([Supersede(tx)] + g3) + [InsertFirst(tx)]
  }

  ghost function ResumeTrace(tx: nat, key: string, expected: nat, actor: string, g1: seq<Step>, g2: seq<Step>): seq<Step> {
    [BeginResume(tx, key, expected, actor)] + g1 + ([TakeSlot(tx)] + g2) + [WriteResume(tx)]
  }

  lemma UpdateKeepsTxs(s: State, t: Tx)
    requires t.Returned? || t.Blind?
    ensures Move(s, t.key, t.expected, SUSPENDED, PUBLISHED, t.actor).txs == s.txs
  {
  }

  lemma RunNothing(s: State)
    ensures Run(s, []) == s
  {
  }

  /** One more step and its gap at the end of a trace. */
  lemma TraceStep(s: State, m: State, done: seq<Step>, step: Step, gap: seq<Step>)
    requires m == Run(s, done)
    ensures Run(Apply(m, step), gap) == Run(s, done + ([step] + gap))
  {
    RunConcat(s, done, [step] + gap);
    RunConcat(m, [step], gap);
    RunOne(m, step);
  }
}

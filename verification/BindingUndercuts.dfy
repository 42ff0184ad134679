/** What the unguarded UPDATE of a Resume does to the table at once, and what it lets others do later. */
module BindingUndercuts {
  import opened Base
  import opened Scopes
  import opened Binding
  import opened BindingTable
  import opened BindingSlots
  import L = BindingLife

  // ---- at once ----

  /** The UPDATE revives a row that clashes with a live sibling. */
  ghost predicate RevivesIntoClash(s: State, tx: nat) {
    Revives(s, tx) && !NoClash(s.rows, s.txs[tx].key, s.rows[ActiveOf(s.rows, s.txs[tx].key)].content)
  }

  lemma RevivalEnters(s: State, tx: nat)
    requires Inv(s) && Revives(s, tx)
    ensures ActiveOf(s.rows, s.txs[tx].key) < |s.rows|
    ensures Enters(s.rows, Apply(s, WriteResume(tx)).rows, s.txs[tx].key, s.rows[ActiveOf(s.rows, s.txs[tx].key)].content)
  {
    hide Inv, TwinLive, Apply;
    var t, i := BlindMoves(s, tx);
  }

  /** From disjoint slots the unguarded UPDATE leads to disjoint slots exactly when it revives nothing that
      clashes with a live sibling, whatever anybody else has checked. */
  lemma BlindResumeKeepsDisjointExactly(s: State, tx: nat)
    requires Inv(s) && AllDisjoint(s.rows) && tx in s.txs && s.txs[tx].Blind?
    ensures AllDisjoint(Apply(s, WriteResume(tx)).rows) <==> !RevivesIntoClash(s, tx)
  {
    hide Inv, Apply, Revives, AllDisjoint, NoClash;
    var t := Apply(s, WriteResume(tx));
    SlotsOkMeansDisjoint(s.rows);
    SlotsOkMeansDisjoint(t.rows);
    if RevivesIntoClash(s, tx) {
      BlindHitBreaksSlots(s, tx);
    } else if Revives(s, tx) {
      RevivalEnters(s, tx);
      SlotsAfter(s.rows, t.rows, s.txs[tx].key, s.rows[ActiveOf(s.rows, s.txs[tx].key)].content);
    } else {
      NoRevivalDoesNothing(s, tx);
    }
  }

  // ---- later ----

  /** What is left of a command that holds its slot. */
  function Continuation(tx: nat, x: Tx): seq<Step> {
    if x.Returned? then [WriteResume(tx)] else [Supersede(tx), InsertFirst(tx)]
  }

  /** A live row clashes with what the holder is about to make live. */
  ghost predicate Undercut(t: State, u: nat, i: nat) {
    && u in t.txs && Held(t.txs[u]).Some? && i < |t.rows| && Clashes(t.rows[i], KeyOf(t.txs[u]), ContentOf(t.txs[u]))
  }

  lemma ClashIsNotDisjoint(rows: seq<Row>, i: nat, j: nat)
    requires i < |rows| && j < |rows| && Live(rows[j]) && Clashes(rows[i], rows[j].key, rows[j].content)
    ensures !AllDisjoint(rows)
  {
    SlotsOkMeansDisjoint(rows);
  }

  /** From t to r nothing was written, or the table is no longer disjoint. */
  ghost predicate WritesNothingOrBreaks(t: State, r: State) {
    if r.events == t.events then r.rows == t.rows else !AllDisjoint(r.rows)
  }

  lemma InsertBreaks(t: State, u: nat, req: PublishReq, prior: nat, i: nat)
    requires prior <= |t.rows| && (prior < |t.rows| ==> t.rows[prior].key == req.key)
    requires i < |t.rows| && Clashes(t.rows[i], req.key, req.content)
    ensures var r := Publish(t, u, req, prior);
            WritesNothingOrBreaks(t, r) && r.txs == t.txs - {u}
  {
    hide Taken, TwinLive, Overlaps, AllDisjoint;
    var r := Publish(t, u, req, prior);
    if r.events != t.events {
      assert r.rows == Deactivate(t.rows, prior) + [Row(req.key, req.content, PUBLISHED, req.expected + 1, true)];
      assert r.rows[i] == t.rows[i];
      ClashIsNotDisjoint(r.rows, i, |t.rows|);
    }
  }

  lemma PublishContinues(t: State, u: nat, i: nat)
    requires Undercut(t, u, i) && !t.txs[u].Returned?
    ensures var r := Apply(Apply(t, Supersede(u)), InsertFirst(u)); WritesNothingOrBreaks(t, r)
  {
    hide Publish, Clashes, AllDisjoint, LatestOf;
    var x := t.txs[u];
    if x.Drafted? {
      InsertBreaks(t, u, x.req, |t.rows|, i);
    } else {
      var a := ActiveOf(t.rows, x.req.key);
      if a < |t.rows| { InsertBreaks(t, u, x.req, a, i); }
      InsertBreaks(t.(txs := t.txs[u := Drafted(x.req)]), u, x.req, |t.rows|, i);
    }
  }

  lemma ResumeContinues(t: State, u: nat, i: nat)
    requires Undercut(t, u, i) && t.txs[u].Returned? && Pinned(t.rows, t.txs[u].key, t.txs[u].expected, t.txs[u].content)
    ensures var r := Apply(t, WriteResume(u)); WritesNothingOrBreaks(t, r)
  {
    hide Taken, TwinLive, Overlaps, AllDisjoint, Reached;
    var x, r := t.txs[u], Apply(t, WriteResume(u));
    if r.events != t.events {
      var a := ActiveOf(t.rows, x.key);
      assert IsActiveAt(t.rows[a], x.key, x.expected);
      assert r.rows[i] == t.rows[i];
      ClashIsNotDisjoint(r.rows, i, a);
    }
  }

  lemma ContinuationRuns(t: State, u: nat, x: Tx)
    ensures Run(t, Continuation(u, x))
         == if x.Returned? then Apply(t, WriteResume(u)) else Apply(Apply(t, Supersede(u)), InsertFirst(u))
  {
    hide Apply;
    if x.Returned? {
      RunOne(t, WriteResume(u));
    } else {
      assert [Supersede(u), InsertFirst(u)] == [Supersede(u)] + [InsertFirst(u)];
      RunConcat(t, [Supersede(u)], [InsertFirst(u)]);
      RunOne(t, Supersede(u));
      RunOne(Apply(t, Supersede(u)), InsertFirst(u));
    }
  }

  lemma RevivalUndercuts(s: State, tx: nat, u: nat) returns (t: State, i: nat)
    requires Inv(s) && Safe(s) && Revives(s, tx) && u in s.txs && u != tx
    requires !Tolerates(s.txs[u], s.txs[tx].key, s.rows[ActiveOf(s.rows, s.txs[tx].key)].content)
    ensures t == Apply(s, WriteResume(tx)) && Undercut(t, u, i) && t.txs[u] == s.txs[u]
    ensures t.txs[u].Returned? ==> Pinned(t.rows, t.txs[u].key, t.txs[u].expected, t.txs[u].content)
  {
    hide Inv, TwinLive, Apply, Overlaps;
    t, i := BlindMoves(s, tx);
    var x := s.txs[u];
    assert TxOk(x, s.rows);
    if x.Returned? {
      var j :| 0 <= j < |s.rows| && s.rows[j].key == x.key && s.rows[j].revision >= x.expected;
      assert t.rows[j] == s.rows[j];
      forall n | 0 <= n < |t.rows| && IsActiveAt(t.rows[n], x.key, x.expected) ensures t.rows[n].content == x.content {
        assert IsActiveAt(s.rows[n], x.key, x.expected);
      }
    }
  }

  /** Whoever is undercut by the unguarded UPDATE breaks its slot by going on, exactly when the rest of its
      command is not refused. */
  lemma UndercutHolderBreaksBySucceeding(s: State, tx: nat, u: nat)
    requires Inv(s) && Safe(s) && Revives(s, tx) && u in s.txs && u != tx
    requires !Tolerates(s.txs[u], s.txs[tx].key, s.rows[ActiveOf(s.rows, s.txs[tx].key)].content)
    ensures var t := Apply(s, WriteResume(tx)); var r := Run(t, Continuation(u, s.txs[u]));
            WritesNothingOrBreaks(t, r) && (AllDisjoint(t.rows) ==> (AllDisjoint(r.rows) <==> r.events == t.events))
  {
    hide Inv, Safe, Revives, Apply, Tolerates, AllDisjoint, Pinned, Run;
    var t, i := RevivalUndercuts(s, tx, u);
    ContinuationRuns(t, u, s.txs[u]);
    if s.txs[u].Returned? { ResumeContinues(t, u, i); } else { PublishContinues(t, u, i); }
  }
}

/** A consumer of the binding events: whatever the order and however often each arrives, it ends at
    the active row. */
module Replay {
  import opened Base
  import B = Binding
  import T = BindingTable
  import L = BindingLife
  import C = EventConsumer

  function TrackerKey(e: B.Event): string { C.Key("binding", e.key) }

  /** The tracker after a sequence of deliveries, each offered to Confirm. */
  function Known(ds: seq<B.Event>): map<string, int>
    decreases |ds|
  {
    if ds == [] then map[]
    else
      var known, e := Known(ds[..|ds| - 1]), ds[|ds| - 1];
      if C.Newer(known, TrackerKey(e), e.revision) then known[TrackerKey(e) := e.revision] else known
  }

  /** The event of this binding that Confirm applied last. */
  function Confirmed(ds: seq<B.Event>, key: string): Option<B.Event>
    decreases |ds|
  {
    if ds == [] then None
    else
      var e := ds[|ds| - 1];
      if e.key == key && C.Newer(Known(ds[..|ds| - 1]), TrackerKey(e), e.revision) then Some(e)
      else Confirmed(ds[..|ds| - 1], key)
  }

  /** Deliver is the consumer's loop over Confirm. */
  method Deliver(ds: seq<B.Event>, key: string) returns (tracker: C.RevisionTracker, last: Option<B.Event>)
    ensures fresh(tracker) && tracker.known == Known(ds) && last == Confirmed(ds, key)
  {
    tracker := new C.RevisionTracker();
    last := None;
    for i := 0 to |ds|
      invariant fresh(tracker) && tracker.known == Known(ds[..i]) && last == Confirmed(ds[..i], key)
    {
      assert ds[..i + 1][..i] == ds[..i];
      var e := ds[i];
      var applied := tracker.Confirm("binding", e.key, e.revision);
      if applied && e.key == key { last := Some(e); }
    }
    assert ds[..|ds|] == ds;
  }

  ghost predicate Occurs(ds: seq<B.Event>, key: string) { exists i :: 0 <= i < |ds| && ds[i].key == key }

  /** The tracker holds the revision of the event confirmed last, and no delivery was higher. */
  ghost predicate Tops(ds: seq<B.Event>, key: string) {
    var last := Confirmed(ds, key);
    && (last.Some? <==> Occurs(ds, key))
    && (last.Some? <==> C.Key("binding", key) in Known(ds))
    && (last.Some? ==> last.value in ds && last.value.key == key
                       && Known(ds)[C.Key("binding", key)] == last.value.revision)
    && (forall i :: 0 <= i < |ds| && ds[i].key == key ==> last.Some? && ds[i].revision <= last.value.revision)
  }

  lemma {:induction false} ConfirmTops(ds: seq<B.Event>, key: string)
    ensures Tops(ds, key)
    decreases |ds|
  {
    if ds != [] {
      var n := |ds| - 1;
      var e := ds[n];
      ConfirmTops(ds[..n], key);
      C.KeysTellAggregatesApart("binding", e.key, "binding", key);
      if Occurs(ds[..n], key) {
        var i :| 0 <= i < n && ds[..n][i].key == key;
        assert ds[i].key == key;
      }
    }
  }

  /** The deliveries are the outbox rows of the run, in any order, each at least once. */
  ghost predicate Replays(ds: seq<B.Event>, events: seq<B.Event>) { forall e :: e in ds <==> e in events }

  lemma {:induction false} OfIsFilter(events: seq<B.Event>, key: string, e: B.Event)
    ensures e in T.Of(events, key) <==> e in events && e.key == key
    decreases |events|
  {
    if events != [] {
      OfIsFilter(events[..|events| - 1], key, e);
      assert events == events[..|events| - 1] + [events[|events| - 1]];
    }
  }

  lemma ReplayEnds(ds: seq<B.Event>, s: B.State, key: string)
    requires T.Inv(s) && Replays(ds, s.events) && T.Of(s.events, key) != []
    ensures var es := T.Of(s.events, key); Confirmed(ds, key) == Some(es[|es| - 1])
  {
    hide T.TableOk, Confirmed, Known;
    var es := T.Of(s.events, key);
    var last := es[|es| - 1];
    assert T.StreamOk(s.rows, es, key);
    OfIsFilter(s.events, key, last);
    assert last in ds;
    var i :| 0 <= i < |ds| && ds[i] == last;
    ConfirmTops(ds, key);
    var c := Confirmed(ds, key).value;
    OfIsFilter(s.events, key, c);
    var k :| 0 <= k < |es| && es[k] == c;
    assert es[k].revision == k + 2 && es[|es| - 1].revision == |es| + 1;
  }

  /** However the events of a run are replayed, the tracker ends at the binding's latest revision, and
      the event confirmed last carries the state of the active row. */
  lemma ReplayEndsAtTheActiveRow(steps: seq<B.Step>, ds: seq<B.Event>, key: string)
    requires Replays(ds, B.Run(B.START, steps).events)
    ensures var s := B.Run(B.START, steps); var last := Confirmed(ds, key);
            && (last.Some? <==> T.HasActive(s.rows, key))
            && (last.Some? ==> C.Key("binding", key) in Known(ds)
                               && Known(ds)[C.Key("binding", key)] == L.Latest(s.rows, key)
                               && T.AtTip(s.rows, key, L.Latest(s.rows, key), last.value.state))
  {
    hide T.TableOk, Confirmed, Known, L.Latest, B.Run;
    var s := B.Run(B.START, steps);
    T.StartHolds();
    T.RunKeepsInv(B.START, steps);
    var es := T.Of(s.events, key);
    assert T.StreamOk(s.rows, es, key);
    ConfirmTops(ds, key);
    if es == [] {
      NothingReplayed(ds, s, key);
    } else {
      ReplayEnds(ds, s, key);
      L.LatestAtTip(s.rows, key, |es| + 1, es[|es| - 1].state);
      assert es[|es| - 1].revision == |es| + 1;
      assert T.HasActive(s.rows, key);
    }
  }

  lemma NothingReplayed(ds: seq<B.Event>, s: B.State, key: string)
    requires Replays(ds, s.events) && T.Of(s.events, key) == []
    ensures !Occurs(ds, key)
  {
    forall i | 0 <= i < |ds| ensures ds[i].key != key {
      assert ds[i] in ds;
      OfIsFilter(s.events, key, ds[i]);
    }
  }
}

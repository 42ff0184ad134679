/** Consumer-side semantics of the event stream (internal/events/consumer.go): duplicate absorption,
    revision tracking, and Ordered, which combines the two. */
module EventConsumer {
  import opened Base

  datatype Row = Row(id: nat, eventId: string, kind: string, aggregate: string, revision: int)

  // ---- Deduper ----

  /** The table after one id; an unseen id that finds the table full empties it first. */
  function See(seen: set<string>, max: nat, id: string): set<string> {
    if id in seen then seen else if |seen| >= max then {id} else seen + {id}
  }

  function SeeAll(max: nat, ids: seq<string>): set<string>
    decreases |ids|
  {
    if ids == [] then {} else See(SeeAll(max, ids[..|ids| - 1]), max, ids[|ids| - 1])
  }

  /** The last id of the sequence is accepted as new. */
  predicate Accepts(max: nat, ids: seq<string>)
    requires ids != []
  {
    ids[|ids| - 1] !in SeeAll(max, ids[..|ids| - 1])
  }

  function Acceptances(max: nat, ids: seq<string>): nat
    decreases |ids|
  {
    if ids == [] then 0
    else Acceptances(max, ids[..|ids| - 1]) + if Accepts(max, ids) then 1 else 0
  }

  function AcceptancesOf(max: nat, ids: seq<string>, id: string): nat
    decreases |ids|
  {
    if ids == [] then 0
    else AcceptancesOf(max, ids[..|ids| - 1], id) + if Accepts(max, ids) && ids[|ids| - 1] == id then 1 else 0
  }

  predicate Empties(max: nat, ids: seq<string>)
    requires ids != []
  {
    Accepts(max, ids) && |SeeAll(max, ids[..|ids| - 1])| >= max
  }

  /** How often the table was emptied. */
  function Resets(max: nat, ids: seq<string>): nat
    decreases |ids|
  {
    if ids == [] then 0 else Resets(max, ids[..|ids| - 1]) + if Empties(max, ids) then 1 else 0
  }

  lemma SeeSize(seen: set<string>, max: nat, id: string)
    requires max > 0 && |seen| <= max
    ensures var t := See(seen, max, id);
            |t| == if id in seen then |seen| else if |seen| >= max then 1 else |seen| + 1
  {
  }

  lemma MulSuccessor(a: nat, b: nat)
    ensures a * (b + 1) == a * b + a
  {
  }

  /** Every reset costs max acceptances. */
  lemma {:induction false} TableCounts(max: nat, ids: seq<string>)
    requires max > 0
    ensures |SeeAll(max, ids)| <= max
    ensures Acceptances(max, ids) == max * Resets(max, ids) + |SeeAll(max, ids)|
    decreases |ids|
  {
    hide See;
    if ids != [] {
      var init, id := ids[..|ids| - 1], ids[|ids| - 1];
      TableCounts(max, init);
      SeeSize(SeeAll(max, init), max, id);
      MulSuccessor(max, Resets(max, init));
    }
  }

  /** Ordered's deduper, twice the size of its batch, never empties its table. */
  lemma {:induction false} ShortBatchesNeverReset(max: nat, ids: seq<string>)
    requires |ids| <= max
    ensures Resets(max, ids) == 0 && |SeeAll(max, ids)| <= |ids|
    decreases |ids|
  {
    if ids != [] { ShortBatchesNeverReset(max, ids[..|ids| - 1]); }
  }

  /** Between two acceptances of one id lies a reset. */
  lemma {:induction false} ResetsSeparate(max: nat, ids: seq<string>, id: string)
    requires max > 0
    ensures AcceptancesOf(max, ids, id) <= Resets(max, ids) + if id in SeeAll(max, ids) then 1 else 0
    ensures SeeAll(max, ids) == {} ==> AcceptancesOf(max, ids, id) == 0
    decreases |ids|
  {
    if ids != [] { ResetsSeparate(max, ids[..|ids| - 1], id); }
  }

  /** However many ids arrive, the table never holds more than max, and an id let through n times has
      cost more than (n - 1) * max acceptances: n is at most the acceptances over max, rounded up. */
  lemma OneIdPerTable(max: nat, ids: seq<string>, id: string)
    requires max > 0
    ensures |SeeAll(max, ids)| <= max
    ensures var n := AcceptancesOf(max, ids, id); n > 0 ==> max * (n - 1) < Acceptances(max, ids)
  {
    TableCounts(max, ids);
    ResetsSeparate(max, ids, id);
    var n, r := AcceptancesOf(max, ids, id), Resets(max, ids);
    if n > 0 { MulMonotone(max, n - 1, r); }
  }

  lemma {:induction false} MulMonotone(a: nat, b: nat, c: nat)
    requires b <= c
    ensures a * b <= a * c
  {
    if b < c {
      MulMonotone(a, b, c - 1);
      MulSuccessor(a, c - 1);
    }
  }

  class Deduper {
    var seen: set<string>
    const max: nat

    constructor (capacity: int)
      ensures seen == {} && max == if capacity <= 0 then 100000 else capacity
    {
      seen := {};
      max := if capacity <= 0 then 100000 else capacity;
    }

    method FirstSeen(id: string) returns (first: bool)
      modifies this`seen
      ensures seen == See(old(seen), max, id)
      ensures first <==> id !in old(seen)
    {
      if id in seen { return false; }
      if |seen| >= max { seen := {}; }
      seen := seen + {id};
      return true;
    }
  }

  // ---- RevisionTracker ----

  function Key(kind: string, aggregate: string): string { kind + "/" + aggregate }

  predicate Newer(known: map<string, int>, key: string, revision: int) { key !in known || revision > known[key] }

  class RevisionTracker {
    var known: map<string, int>

    constructor ()
      ensures known == map[]
    {
      known := map[];
    }

    method Confirm(kind: string, aggregate: string, revision: int) returns (applied: bool)
      modifies this`known
      ensures applied <==> Newer(old(known), Key(kind, aggregate), revision)
      ensures known == if applied then old(known)[Key(kind, aggregate) := revision] else old(known)
    {
      var key := kind + "/" + aggregate;
      if key in known && revision <= known[key] { return false; }
      known := known[key := revision];
      return true;
    }
  }

  /** Kinds are told apart as long as neither goes on after a separator where the other ends. */
  predicate KindsApart(kind: string, other: string) { !(kind + "/" <= other) && !(other + "/" <= kind) }

  lemma SeparatorFreeKindsAreApart(kind: string, other: string)
    requires '/' !in kind && '/' !in other
    ensures KindsApart(kind, other)
  {
    if kind + "/" <= other { SeparatorInside(kind, other); }
    if other + "/" <= kind { SeparatorInside(other, kind); }
  }

  lemma SeparatorInside(kind: string, other: string)
    requires kind + "/" <= other
    ensures '/' in other
  {
    assert other[|kind|] == '/';
  }

  lemma LongerKindContinues(kind: string, a: string, other: string, b: string)
    requires |kind| < |other| && Key(kind, a) == Key(other, b)
    ensures kind + "/" <= other
  {
    var k, n := Key(kind, a), |kind| + 1;
    assert kind + "/" == k[..n] == Key(other, b)[..n] == other[..n];
  }

  lemma SharedKey(kind: string, a: string, other: string, b: string)
    requires Key(kind, a) == Key(other, b)
    ensures kind == other || !KindsApart(kind, other)
  {
    if |kind| < |other| {
      LongerKindContinues(kind, a, other, b);
    } else if |other| < |kind| {
      LongerKindContinues(other, b, kind, a);
    } else {
      assert kind == Key(kind, a)[..|kind|] == Key(other, b)[..|other|] == other;
    }
  }

  lemma ContinuationShares(kind: string, other: string)
    requires kind + "/" <= other
    ensures exists a, b :: Key(kind, a) == Key(other, b)
  {
    var rest := other[|kind| + 1..];
    assert other == kind + "/" + rest;
    assert Key(kind, rest + "/") == Key(other, "");
  }

  /** Two different kinds have aggregates under one key exactly when one goes on after a separator where
      the other ends. */
  lemma KeysCollide(kind: string, other: string)
    requires kind != other
    ensures (exists a, b :: Key(kind, a) == Key(other, b)) <==> kind + "/" <= other || other + "/" <= kind
  {
    if a, b :| Key(kind, a) == Key(other, b) { SharedKey(kind, a, other, b); }
    if kind + "/" <= other { ContinuationShares(kind, other); }
    if other + "/" <= kind {
      ContinuationShares(other, kind);
      var b, a :| Key(other, b) == Key(kind, a);
      assert Key(kind, a) == Key(other, b);
    }
  }

  /** Of such kinds, as of one kind, every two aggregates are told apart. */
  lemma KeysTellAggregatesApart(kind: string, a: string, other: string, b: string)
    requires kind == other || KindsApart(kind, other)
    ensures Key(kind, a) == Key(other, b) <==> kind == other && a == b
  {
    if Key(kind, a) == Key(other, b) {
      SharedKey(kind, a, other, b);
      var n := |kind| + 1;
      assert a == Key(kind, a)[n..] == Key(other, b)[n..] == b;
    }
  }

  // ---- Ordered ----

  function RowKey(r: Row): string { Key(r.kind, r.aggregate) }

  /** Row i is the first with its event id. */
  predicate Unseen(rows: seq<Row>, i: nat)
    requires i < |rows|
  {
    forall j :: 0 <= j < i ==> rows[j].eventId != rows[i].eventId
  }

  /** Row i is first of its id and above every earlier first of its aggregate. */
  predicate Keeps(rows: seq<Row>, i: nat)
    requires i < |rows|
  {
    Unseen(rows, i)
    && forall j :: 0 <= j < i && Unseen(rows, j) && RowKey(rows[j]) == RowKey(rows[i]) ==>
         rows[j].revision < rows[i].revision
  }

  /** The rows that a consumer applies, in arrival order. */
  function Kept(rows: seq<Row>): seq<Row>
    decreases |rows|
  {
    if rows == [] then []
    else
      var n := |rows| - 1;
      if Keeps(rows, n) then Kept(rows[..n]) + [rows[n]] else Kept(rows[..n])
  }

  lemma PrefixKeeps(rows: seq<Row>, n: nat, i: nat)
    requires i < n <= |rows|
    ensures Unseen(rows[..n], i) <==> Unseen(rows, i)
    ensures Keeps(rows[..n], i) <==> Keeps(rows, i)
  {
    var t := rows[..n];
    forall k | 0 <= k <= i ensures Unseen(t, k) <==> Unseen(rows, k) {
      forall j | 0 <= j < k ensures t[j].eventId == rows[j].eventId { }
      if Unseen(t, k) { forall j | 0 <= j < k ensures rows[j].eventId != rows[k].eventId { assert t[j] == rows[j]; } }
      if Unseen(rows, k) { forall j | 0 <= j < k ensures t[j].eventId != t[k].eventId { assert t[j] == rows[j]; } }
    }
    forall j | 0 <= j <= i ensures t[j] == rows[j] { }
    if Keeps(t, i) {
      forall j | 0 <= j < i && Unseen(rows, j) && RowKey(rows[j]) == RowKey(rows[i])
        ensures rows[j].revision < rows[i].revision
      {
        assert Unseen(t, j) && t[j] == rows[j];
      }
    }
  }

  /** What the deduper and the tracker hold after the first n rows. */
  ghost predicate SeenIs(seen: set<string>, rows: seq<Row>, n: nat)
    requires n <= |rows|
  {
    && (forall j :: 0 <= j < n ==> rows[j].eventId in seen)
    && (forall id :: id in seen ==> exists j :: 0 <= j < n && rows[j].eventId == id)
  }

  ghost predicate TopOf(rows: seq<Row>, n: nat, key: string, revision: int)
    requires n <= |rows|
  {
    && (exists j :: 0 <= j < n && Unseen(rows, j) && RowKey(rows[j]) == key && rows[j].revision == revision)
    && (forall j :: 0 <= j < n && Unseen(rows, j) && RowKey(rows[j]) == key ==> rows[j].revision <= revision)
  }

  ghost predicate KnownIs(known: map<string, int>, rows: seq<Row>, n: nat)
    requires n <= |rows|
  {
    && (forall key :: key in known ==> TopOf(rows, n, key, known[key]))
    && (forall j :: 0 <= j < n && Unseen(rows, j) ==> RowKey(rows[j]) in known)
  }

  lemma KnownDecides(known: map<string, int>, rows: seq<Row>, i: nat)
    requires i < |rows| && KnownIs(known, rows, i) && Unseen(rows, i)
    ensures Newer(known, RowKey(rows[i]), rows[i].revision) <==> Keeps(rows, i)
  {
    var key := RowKey(rows[i]);
    if key in known {
      assert TopOf(rows, i, key, known[key]);
    }
  }

  lemma KnownAdvances(known: map<string, int>, rows: seq<Row>, i: nat)
    requires i < |rows| && KnownIs(known, rows, i)
    ensures !Unseen(rows, i) ==> KnownIs(known, rows, i + 1)
    ensures Unseen(rows, i) && !Keeps(rows, i) ==> KnownIs(known, rows, i + 1)
    ensures Keeps(rows, i) ==> KnownIs(known[RowKey(rows[i]) := rows[i].revision], rows, i + 1)
  {
    var key, t := RowKey(rows[i]), known[RowKey(rows[i]) := rows[i].revision];
    if Unseen(rows, i) { KnownDecides(known, rows, i); }
    forall k | k in known && (k != key || !Keeps(rows, i)) ensures TopOf(rows, i + 1, k, known[k]) {
      assert TopOf(rows, i, k, known[k]);
    }
    if Keeps(rows, i) {
      assert TopOf(rows, i + 1, key, rows[i].revision);
    }
  }

  lemma SeenDecides(seen: set<string>, rows: seq<Row>, i: nat)
    requires i < |rows| && SeenIs(seen, rows, i)
    ensures rows[i].eventId in seen <==> !Unseen(rows, i)
    ensures SeenIs(seen + {rows[i].eventId}, rows, i + 1)
  {
  }

  /** Ordered: the deduper is sized so that it never resets, and what is kept does not depend on it
      beyond the first row of each event id. */
  method Ordered(batch: seq<Row>) returns (out: seq<Row>)
    ensures out == Kept(batch)
  {
    hide Unseen, Keeps, SeenIs, KnownIs, Newer;
    out := [];
    var tracker := new RevisionTracker();
    var dedup := new Deduper(|batch| * 2);
    assert SeenIs({}, batch, 0) && KnownIs(map[], batch, 0) by { NothingSeen(batch); }
    for i := 0 to |batch|
      invariant out == Kept(batch[..i])
      invariant SeenIs(dedup.seen, batch, i) && KnownIs(tracker.known, batch, i) && |dedup.seen| <= i
    {
      var r := batch[i];
      assert batch[..i + 1][..i] == batch[..i];
      PrefixKeeps(batch, i + 1, i);
      KnownAdvances(tracker.known, batch, i);
      SeenDecides(dedup.seen, batch, i);
      if Keeps(batch, i) { KeepsIsUnseen(batch, i); }
      assert r.eventId in dedup.seen ==> dedup.seen + {r.eventId} == dedup.seen;
      var first := dedup.FirstSeen(r.eventId);
      if first {
        KnownDecides(tracker.known, batch, i);
        var applied := tracker.Confirm(r.kind, r.aggregate, r.revision);
        if applied { out := out + [r]; }
      }
    }
    assert batch[..|batch|] == batch;
  }

  lemma NothingSeen(rows: seq<Row>)
    ensures SeenIs({}, rows, 0) && KnownIs(map[], rows, 0)
  {
  }

  lemma KeepsIsUnseen(rows: seq<Row>, i: nat)
    requires i < |rows| && Keeps(rows, i)
    ensures Unseen(rows, i)
  {
  }

  /** Event ids fix aggregate and revision. */
  ghost predicate Consistent(rows: seq<Row>) {
    forall i, j :: 0 <= i < |rows| && 0 <= j < |rows| && rows[i].eventId == rows[j].eventId ==>
      RowKey(rows[i]) == RowKey(rows[j]) && rows[i].revision == rows[j].revision
  }

  /** Row i carries a strictly higher revision than every earlier row of its aggregate. */
  predicate RunningMaximum(rows: seq<Row>, i: nat)
    requires i < |rows|
  {
    forall j :: 0 <= j < i && RowKey(rows[j]) == RowKey(rows[i]) ==> rows[j].revision < rows[i].revision
  }

  lemma {:induction false} FirstOfItsId(rows: seq<Row>, j: nat) returns (k: nat)
    requires j < |rows|
    ensures k <= j && Unseen(rows, k) && rows[k].eventId == rows[j].eventId
    decreases j
  {
    if Unseen(rows, j) {
      k := j;
    } else {
      var i :| 0 <= i < j && rows[i].eventId == rows[j].eventId;
      k := FirstOfItsId(rows, i);
    }
  }

  /** With consistent event ids, what is kept is exactly the running maxima of each aggregate. */
  lemma KeepsRunningMaxima(rows: seq<Row>, i: nat)
    requires Consistent(rows) && i < |rows|
    ensures Keeps(rows, i) <==> RunningMaximum(rows, i)
  {
    if RunningMaximum(rows, i) {
      forall j | 0 <= j < i ensures rows[j].eventId != rows[i].eventId { }
    }
    if Keeps(rows, i) {
      forall j | 0 <= j < i && RowKey(rows[j]) == RowKey(rows[i]) ensures rows[j].revision < rows[i].revision {
        var k := FirstOfItsId(rows, j);
        assert RowKey(rows[k]) == RowKey(rows[j]) && rows[k].revision == rows[j].revision;
      }
    }
  }

  // ---- shape of the result ----

  /** Event ids are distinct and revisions of one aggregate ascend. */
  predicate Settled(rows: seq<Row>) {
    forall i, j :: 0 <= i < j < |rows| ==>
      rows[i].eventId != rows[j].eventId
      && (RowKey(rows[i]) == RowKey(rows[j]) ==> rows[i].revision < rows[j].revision)
  }

  ghost predicate From(r: Row, rows: seq<Row>) { exists i :: 0 <= i < |rows| && Keeps(rows, i) && rows[i] == r }

  lemma FromPrefix(rows: seq<Row>, n: nat, r: Row)
    requires |rows| == n + 1
    ensures From(r, rows) <==> From(r, rows[..n]) || (Keeps(rows, n) && rows[n] == r)
  {
    hide Keeps;
    if From(r, rows[..n]) {
      var i :| 0 <= i < n && Keeps(rows[..n], i) && rows[..n][i] == r;
      PrefixKeeps(rows, n, i);
      assert rows[i] == r;
    }
    if From(r, rows) {
      var i :| 0 <= i < |rows| && Keeps(rows, i) && rows[i] == r;
      if i < n {
        PrefixKeeps(rows, n, i);
        assert rows[..n][i] == r;
      }
    }
  }

  lemma {:induction false} KeptComesFrom(rows: seq<Row>, r: Row)
    ensures r in Kept(rows) <==> From(r, rows)
    decreases |rows|
  {
    hide Keeps;
    if rows != [] {
      var n := |rows| - 1;
      KeptComesFrom(rows[..n], r);
      FromPrefix(rows, n, r);
    }
  }

  lemma {:induction false} KeptIsSettled(rows: seq<Row>)
    ensures Settled(Kept(rows))
    decreases |rows|
  {
    if rows != [] {
      var n, out := |rows| - 1, Kept(rows);
      KeptIsSettled(rows[..n]);
      if Keeps(rows, n) {
        forall i | 0 <= i < |out| - 1
          ensures out[i].eventId != out[|out| - 1].eventId
          ensures RowKey(out[i]) == RowKey(out[|out| - 1]) ==> out[i].revision < out[|out| - 1].revision
        {
          assert out[i] in Kept(rows[..n]);
          KeptComesFrom(rows[..n], out[i]);
          var j :| 0 <= j < n && Keeps(rows[..n], j) && rows[..n][j] == out[i];
          PrefixKeeps(rows, n, j);
        }
      }
    }
  }

  lemma {:induction false} SettledIsKept(rows: seq<Row>)
    requires Settled(rows)
    ensures Kept(rows) == rows
    decreases |rows|
  {
    if rows != [] {
      var n := |rows| - 1;
      SettledIsKept(rows[..n]);
      assert Keeps(rows, n);
      assert rows == rows[..n] + [rows[n]];
    }
  }

  /** Applying a batch that was already ordered drops nothing. */
  lemma OrderedIsIdempotent(rows: seq<Row>)
    ensures Kept(Kept(rows)) == Kept(rows)
  {
    KeptIsSettled(rows);
    SettledIsKept(Kept(rows));
  }

  ghost predicate Subsequence(a: seq<Row>, b: seq<Row>)
    decreases |b|
  {
    a == [] || (b != [] && (Subsequence(a, b[..|b| - 1])
                            || (a[|a| - 1] == b[|b| - 1] && Subsequence(a[..|a| - 1], b[..|b| - 1]))))
  }

  lemma {:induction false} KeptIsSubsequence(rows: seq<Row>)
    ensures Subsequence(Kept(rows), rows)
    decreases |rows|
  {
    if rows != [] {
      var n := |rows| - 1;
      KeptIsSubsequence(rows[..n]);
      if Keeps(rows, n) { assert Kept(rows)[..|Kept(rows)| - 1] == Kept(rows[..n]); }
    }
  }
}

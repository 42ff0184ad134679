/** What a successful Resolve means, what reordering a request changes, and when a binding is
    ambiguous. */
module ResolverLaws {
  import opened Base
  import opened Text
  import opened ResolverRequest
  import opened Resolver
  import B = Binding
  import T = BindingTable
  import G = BindingSlots
  import S = Scopes

  // ---- the candidate list ----

  /** A row the requirement may be served by. */
  predicate Match(r: B.Row, w: Reading, capability: nat, caller: Caller, region: string) {
    && r.active && r.state == B.PUBLISHED
    && r.content.capability == capability && r.content.environment == caller.environment
    && r.content.provider in w.providers && w.providers[r.content.provider].published
    && (r.content.scope.tenants == [] || caller.tenant in r.content.scope.tenants)
    && (region == "" || r.content.scope.regions == [] || region in r.content.scope.regions)
  }

  predicate Ascending(rows: seq<B.Row>) {
    forall i, j :: 0 <= i < j < |rows| ==> rows[i].content.priority <= rows[j].content.priority
  }

  lemma {:induction false} PlaceCounts(r: B.Row, rows: seq<B.Row>)
    ensures multiset(Place(r, rows)) == multiset(rows) + multiset{r}
    decreases |rows|
  {
    if rows != [] && !Before(r, rows[0]) {
      PlaceCounts(r, rows[1..]);
      assert rows == [rows[0]] + rows[1..];
    }
  }

  lemma {:induction false} PlaceAscends(r: B.Row, rows: seq<B.Row>)
    requires Ascending(rows)
    ensures Ascending(Place(r, rows))
    decreases |rows|
  {
    if rows != [] && !Before(r, rows[0]) {
      PlaceAscends(r, rows[1..]);
      PlaceCounts(r, rows[1..]);
      var rest := Place(r, rows[1..]);
      forall i | 0 <= i < |rest| ensures rows[0].content.priority <= rest[i].content.priority {
        assert rest[i] in multiset(rest);
        assert rest[i] == r || rest[i] in rows[1..];
      }
    }
  }

  lemma {:induction false} ListingCounts(rows: seq<B.Row>, w: Reading, capability: nat, environment: string, r: B.Row)
    ensures Ascending(Listing(rows, w, capability, environment))
    ensures multiset(Listing(rows, w, capability, environment))[r] ==
            if Listed(r, w, capability, environment) then multiset(rows)[r] else 0
    decreases |rows|
  {
    if rows != [] {
      var init, last := rows[..|rows| - 1], rows[|rows| - 1];
      ListingCounts(init, w, capability, environment, r);
      PlaceCounts(last, Listing(init, w, capability, environment));
      PlaceAscends(last, Listing(init, w, capability, environment));
      assert rows == init + [last];
    }
  }

  lemma {:induction false} FittingCounts(rows: seq<B.Row>, w: Reading, tenant: string, region: string, r: B.Row)
    ensures multiset(Fitting(rows, w, tenant, region))[r] == if Fits(r, w, tenant, region) then multiset(rows)[r] else 0
    decreases |rows|
  {
    if rows != [] {
      FittingCounts(rows[..|rows| - 1], w, tenant, region, r);
      assert rows == rows[..|rows| - 1] + [rows[|rows| - 1]];
    }
  }

  lemma {:induction false} FittingAscends(rows: seq<B.Row>, w: Reading, tenant: string, region: string)
    requires Ascending(rows)
    ensures Ascending(Fitting(rows, w, tenant, region))
    ensures forall r :: r in Fitting(rows, w, tenant, region) ==> r in rows
    decreases |rows|
  {
    if rows != [] {
      var n := |rows| - 1;
      FittingAscends(rows[..n], w, tenant, region);
      var rest := Fitting(rows[..n], w, tenant, region);
      forall i | 0 <= i < |rest| ensures rest[i].content.priority <= rows[n].content.priority {
        assert rest[i] in rows[..n];
      }
    }
  }

  /** The candidates are the matching rows, each as often as the table has it, in priority order. */
  lemma CandidatesAreTheMatches(w: Reading, capability: nat, caller: Caller, region: string, r: B.Row)
    ensures Ascending(Candidates(w, capability, caller, region))
    ensures multiset(Candidates(w, capability, caller, region))[r] ==
            if Match(r, w, capability, caller, region) then multiset(w.rows)[r] else 0
  {
    var listing := Listing(w.rows, w, capability, caller.environment);
    ListingCounts(w.rows, w, capability, caller.environment, r);
    FittingCounts(listing, w, caller.tenant, region, r);
    FittingAscends(listing, w, caller.tenant, region);
  }

  // ---- pairs ----

  /** Two different positions of s hold a and b. */
  ghost predicate Both(s: seq<B.Row>, a: B.Row, b: B.Row) {
    exists i, j :: 0 <= i < |s| && 0 <= j < |s| && i != j && s[i] == a && s[j] == b
  }

  lemma BothMeansCount(s: seq<B.Row>, a: B.Row, b: B.Row)
    ensures Both(s, a, b) <==> if a == b then multiset(s)[a] >= 2 else a in s && b in s
  {
    if a == b {
      if Both(s, a, b) {
        var i, j :| 0 <= i < |s| && 0 <= j < |s| && i != j && s[i] == a && s[j] == b;
        TwoPositions(s, if i < j then i else j, if i < j then j else i);
      }
      if multiset(s)[a] >= 2 { TwoPlaces(s, a); }
    } else if a in s && b in s {
      var i :| 0 <= i < |s| && s[i] == a;
      var j :| 0 <= j < |s| && s[j] == b;
      assert i != j;
    }
  }

  lemma TwoPositions(s: seq<B.Row>, i: nat, j: nat)
    requires i < j < |s| && s[i] == s[j]
    ensures multiset(s)[s[i]] >= 2
  {
    assert s == s[..j] + s[j..];
    assert s[..j][i] in multiset(s[..j]) && s[j..][0] in multiset(s[j..]);
  }

  lemma TwoPlaces(s: seq<B.Row>, a: B.Row)
    requires multiset(s)[a] >= 2
    ensures Both(s, a, a)
  {
    var i :| 0 <= i < |s| && s[i] == a;
    var rest := s[..i] + s[i + 1..];
    assert s == s[..i] + [s[i]] + s[i + 1..];
    assert multiset(rest)[a] == multiset(s)[a] - 1;
    assert a in multiset(rest);
    var j :| 0 <= j < |rest| && rest[j] == a;
    var k := if j < i then j else j + 1;
    assert s[k] == a && k != i;
  }

  /** Candidate pairs are matching pairs of the table. */
  lemma PairsCarryOver(w: Reading, capability: nat, caller: Caller, region: string, a: B.Row, b: B.Row)
    requires Match(a, w, capability, caller, region) && Match(b, w, capability, caller, region)
    ensures Both(Candidates(w, capability, caller, region), a, b) <==> Both(w.rows, a, b)
  {
    hide Match, Candidates, Ascending;
    var cands := Candidates(w, capability, caller, region);
    CandidatesAreTheMatches(w, capability, caller, region, a);
    CandidatesAreTheMatches(w, capability, caller, region, b);
    BothMeansCount(cands, a, b);
    BothMeansCount(w.rows, a, b);
    assert a in cands <==> a in multiset(cands);
    assert b in cands <==> b in multiset(cands);
    assert a in w.rows <==> a in multiset(w.rows);
    assert b in w.rows <==> b in multiset(w.rows);
  }

  lemma CandidateIsMatch(w: Reading, capability: nat, caller: Caller, region: string, r: B.Row)
    ensures r in Candidates(w, capability, caller, region) <==> r in w.rows && Match(r, w, capability, caller, region)
  {
    hide Match, Candidates, Ascending;
    CandidatesAreTheMatches(w, capability, caller, region, r);
    var cands := Candidates(w, capability, caller, region);
    assert r in cands <==> r in multiset(cands);
    assert r in w.rows <==> r in multiset(w.rows);
  }

  // ---- the choice ----

  /** r matches, and every other matching row has a strictly higher priority number. */
  ghost predicate UniqueLowest(r: B.Row, w: Reading, capability: nat, caller: Caller, region: string) {
    && r in w.rows && Match(r, w, capability, caller, region)
    && forall q :: Match(q, w, capability, caller, region) && Both(w.rows, r, q) ==>
         r.content.priority < q.content.priority
  }

  /** Two matching rows share the lowest priority. */
  ghost predicate Tied(w: Reading, capability: nat, caller: Caller, region: string, a: B.Row, b: B.Row) {
    && Match(a, w, capability, caller, region) && Match(b, w, capability, caller, region) && Both(w.rows, a, b)
    && a.content.priority == b.content.priority
    && forall q :: q in w.rows && Match(q, w, capability, caller, region) ==> a.content.priority <= q.content.priority
  }

  lemma FirstIsLowest(w: Reading, capability: nat, caller: Caller, region: string, q: B.Row)
    requires q in Candidates(w, capability, caller, region)
    ensures var cands := Candidates(w, capability, caller, region);
            cands[0].content.priority <= q.content.priority
            && (Both(cands, cands[0], q) ==> |cands| >= 2 && cands[1].content.priority <= q.content.priority)
  {
    var cands := Candidates(w, capability, caller, region);
    CandidatesAreTheMatches(w, capability, caller, region, q);
    var i :| 0 <= i < |cands| && cands[i] == q;
    if Both(cands, cands[0], q) {
      var j, k :| 0 <= j < |cands| && 0 <= k < |cands| && j != k && cands[j] == cands[0] && cands[k] == q;
      if k == 0 { assert cands[1].content.priority <= cands[j].content.priority; }
    }
  }

  /** Whatever Resolve chooses is the one matching row of lowest priority. */
  lemma ChosenIsUniqueLowest(w: Reading, capability: nat, caller: Caller, region: string, id: string)
    requires Choose(Candidates(w, capability, caller, region), id).Ok?
    ensures UniqueLowest(Choose(Candidates(w, capability, caller, region), id).value, w, capability, caller, region)
  {
    hide Match, Candidates;
    var cands := Candidates(w, capability, caller, region);
    var r := cands[0];
    CandidateIsMatch(w, capability, caller, region, r);
    forall q | Match(q, w, capability, caller, region) && Both(w.rows, r, q) ensures r.content.priority < q.content.priority {
      assert q in w.rows;
      CandidateIsMatch(w, capability, caller, region, q);
      PairsCarryOver(w, capability, caller, region, r, q);
      FirstIsLowest(w, capability, caller, region, q);
      CandidatesAreTheMatches(w, capability, caller, region, r);
    }
  }

  /** AMBIGUOUS_BINDING is answered exactly when two matching rows share the lowest priority, and
      NO_COMPATIBLE_PROVIDER exactly when no row matches. */
  lemma ChoiceFailsExactlyWhen(w: Reading, capability: nat, caller: Caller, region: string, id: string)
    ensures Choose(Candidates(w, capability, caller, region), id) == Err(AMBIGUOUS_BINDING, id)
            <==> exists a, b :: Tied(w, capability, caller, region, a, b)
    ensures Choose(Candidates(w, capability, caller, region), id) == Err(NO_COMPATIBLE_PROVIDER, id)
            <==> !exists r :: r in w.rows && Match(r, w, capability, caller, region)
  {
    hide Match, Candidates;
    var cands := Candidates(w, capability, caller, region);
    if cands == [] {
      forall r | r in w.rows ensures !Match(r, w, capability, caller, region) {
        CandidateIsMatch(w, capability, caller, region, r);
      }
    } else {
      CandidateIsMatch(w, capability, caller, region, cands[0]);
      assert cands[0] in w.rows && Match(cands[0], w, capability, caller, region);
    }
    if Choose(cands, id) == Err(AMBIGUOUS_BINDING, id) { AmbiguousIsTied(w, capability, caller, region); }
    if a, b :| Tied(w, capability, caller, region, a, b) { TiedIsAmbiguous(w, capability, caller, region, a, b); }
  }

  lemma AmbiguousIsTied(w: Reading, capability: nat, caller: Caller, region: string)
    requires var cands := Candidates(w, capability, caller, region);
             |cands| >= 2 && cands[0].content.priority == cands[1].content.priority
    ensures var cands := Candidates(w, capability, caller, region); Tied(w, capability, caller, region, cands[0], cands[1])
  {
    hide Match, Candidates;
    var cands := Candidates(w, capability, caller, region);
    CandidateIsMatch(w, capability, caller, region, cands[0]);
    CandidateIsMatch(w, capability, caller, region, cands[1]);
    PairsCarryOver(w, capability, caller, region, cands[0], cands[1]);
    assert Both(cands, cands[0], cands[1]);
    forall q | q in w.rows && Match(q, w, capability, caller, region)
      ensures cands[0].content.priority <= q.content.priority
    {
      CandidateIsMatch(w, capability, caller, region, q);
      FirstIsLowest(w, capability, caller, region, q);
    }
  }

  lemma TiedIsAmbiguous(w: Reading, capability: nat, caller: Caller, region: string, a: B.Row, b: B.Row)
    requires Tied(w, capability, caller, region, a, b)
    ensures var cands := Candidates(w, capability, caller, region);
            |cands| >= 2 && cands[0].content.priority == cands[1].content.priority
  {
    hide Match, Candidates;
    var cands := Candidates(w, capability, caller, region);
    PairsCarryOver(w, capability, caller, region, a, b);
    var i, j :| 0 <= i < |cands| && 0 <= j < |cands| && i != j && cands[i] == a && cands[j] == b;
    CandidateIsMatch(w, capability, caller, region, cands[0]);
    CandidatesAreTheMatches(w, capability, caller, region, a);
    assert cands[0] in cands && cands[0].content.priority >= a.content.priority;
    var k := if i == 0 then j else i;
    assert k >= 1 && cands[k].content.priority == a.content.priority;
    assert |cands| >= 2 && cands[0].content.priority <= cands[1].content.priority <= cands[k].content.priority
      by { if k > 1 { assert cands[1].content.priority <= cands[k].content.priority; } }
  }
}

/** Binding scopes (internal/binding/domain.go): canonical form and overlap. */
module Scopes {
  import opened Text

  /** Four dimensions; an empty one is unrestricted. */
  datatype Scope = Scope(tenants: seq<string>, factories: seq<string>, regions: seq<string>, agents: seq<string>)

  /** What a caller's request carries in the four dimensions. */
  datatype Query = Query(tenant: string, factory: string, region: string, agent: string)

  // ---- canonical form ----

  /** First occurrences only, in order, of the normalized strings. */
  function Normalized(s: seq<string>, nfc: string -> string): (r: seq<string>) {
    if s == [] then []
    else
      var r := Normalized(s[..|s| - 1], nfc);
      var x := nfc(s[|s| - 1]);
      if x in r then r else r + [x]
  }

  function Canonical(s: seq<string>, nfc: string -> string): seq<string> { Sort(Normalized(s, nfc)) }

  function CanonicalScope(s: Scope, nfc: string -> string): Scope {
    Scope(Canonical(s.tenants, nfc), Canonical(s.factories, nfc), Canonical(s.regions, nfc), Canonical(s.agents, nfc))
  }

  /** canonicalizeStrings: the seen map, the output slice, the final sort. */
  method CanonicalizeStrings(s: seq<string>, nfc: string -> string) returns (r: seq<string>)
    ensures r == Canonical(s, nfc)
  {
    r := [];
    var seen: map<string, bool> := map[];
    for i := 0 to |s|
      invariant r == Normalized(s[..i], nfc)
      invariant forall x :: x in seen <==> x in r
      invariant forall x :: x in seen ==> seen[x]
    {
      assert s[..i + 1][..i] == s[..i];
      var x := nfc(s[i]);
      if !(x in seen && seen[x]) {
        seen := seen[x := true];
        r := r + [x];
      }
    }
    assert s[..|s|] == s;
    r := Sort(r);
  }

  predicate Distinct(s: seq<string>) { forall i, j :: 0 <= i < j < |s| ==> s[i] != s[j] }

  ghost predicate IsImage(x: string, s: seq<string>, nfc: string -> string) {
    exists i :: 0 <= i < |s| && nfc(s[i]) == x
  }

  lemma {:induction false} NormalizedContents(s: seq<string>, nfc: string -> string, x: string)
    ensures Distinct(Normalized(s, nfc))
    ensures x in Normalized(s, nfc) <==> IsImage(x, s, nfc)
    decreases |s|
  {
    if s != [] {
      var init, n := s[..|s| - 1], |s| - 1;
      NormalizedContents(init, nfc, x);
      if IsImage(x, init, nfc) {
        var i :| 0 <= i < |init| && nfc(init[i]) == x;
        assert nfc(s[i]) == x;
      }
      if IsImage(x, s, nfc) && x != nfc(s[n]) {
        var i :| 0 <= i < |s| && nfc(s[i]) == x;
        assert i < n && nfc(init[i]) == x;
      }
    }
  }

  lemma DistinctIsCount(s: seq<string>)
    ensures Distinct(s) <==> forall x :: multiset(s)[x] <= 1
  {
    if Distinct(s) {
      forall x ensures multiset(s)[x] <= 1 { CountOfDistinct(s, x); }
    } else {
      var i, j :| 0 <= i < j < |s| && s[i] == s[j];
      assert s == s[..j] + s[j..];
      assert s[i] in multiset(s[..j]) by { assert s[..j][i] == s[i]; }
      assert s[i] in multiset(s[j..]) by { assert s[j..][0] == s[i]; }
      assert multiset(s)[s[i]] == multiset(s[..j])[s[i]] + multiset(s[j..])[s[i]];
    }
  }

  lemma {:induction false} CountOfDistinct(s: seq<string>, x: string)
    requires Distinct(s)
    ensures multiset(s)[x] == if x in s then 1 else 0
    decreases |s|
  {
    if s != [] {
      var init, last := s[..|s| - 1], s[|s| - 1];
      CountOfDistinct(init, x);
      assert s == init + [last];
    }
  }

  /** The canonical form is ascending, without repeats, and holds exactly the normalized inputs. */
  lemma CanonicalContents(s: seq<string>, nfc: string -> string)
    ensures Ordered(Canonical(s, nfc)) && Distinct(Canonical(s, nfc))
    ensures forall x :: x in Canonical(s, nfc) <==> IsImage(x, s, nfc)
  {
    hide Normalized, Ordered, IsImage;
    var n := Normalized(s, nfc);
    SortOrders(n);
    NormalizedContents(s, nfc, "");
    DistinctIsCount(n);
    DistinctIsCount(Sort(n));
    forall x ensures x in Canonical(s, nfc) <==> IsImage(x, s, nfc) {
      NormalizedContents(s, nfc, x);
      assert x in Sort(n) <==> x in multiset(n);
    }
  }

  /** Two lists have the same canonical form exactly when they normalize to the same set of strings:
      order, repeats and spelling of the same text do not matter. This is when scope hashes agree. */
  lemma CanonicalDecides(a: seq<string>, b: seq<string>, nfc: string -> string)
    ensures Canonical(a, nfc) == Canonical(b, nfc) <==> forall x :: IsImage(x, a, nfc) <==> IsImage(x, b, nfc)
  {
    hide Canonical, Ordered, IsImage;
    var ca, cb := Canonical(a, nfc), Canonical(b, nfc);
    CanonicalContents(a, nfc);
    CanonicalContents(b, nfc);
    if forall x :: IsImage(x, a, nfc) <==> IsImage(x, b, nfc) {
      forall x ensures multiset(ca)[x] == multiset(cb)[x] {
        CountOfDistinct(ca, x);
        CountOfDistinct(cb, x);
      }
      assert multiset(ca) == multiset(cb);
      OrderedUnique(ca, cb);
    }
  }

  ghost predicate Idempotent(nfc: string -> string) { forall x :: nfc(nfc(x)) == nfc(x) }

  /** Canonicalizing a stored scope again changes nothing. */
  lemma CanonicalIsStable(s: seq<string>, nfc: string -> string)
    requires Idempotent(nfc)
    ensures Canonical(Canonical(s, nfc), nfc) == Canonical(s, nfc)
  {
    hide Canonical;
    var c := Canonical(s, nfc);
    CanonicalContents(s, nfc);
    CanonicalDecides(c, s, nfc);
    forall x ensures IsImage(x, c, nfc) <==> IsImage(x, s, nfc) {
      if IsImage(x, c, nfc) {
        var i :| 0 <= i < |c| && nfc(c[i]) == x;
        assert c[i] in c && IsImage(c[i], s, nfc);
        var k :| 0 <= k < |s| && nfc(s[k]) == c[i];
        assert nfc(s[k]) == x by { assert nfc(nfc(s[k])) == nfc(s[k]); }
      }
      if IsImage(x, s, nfc) {
        assert x in c;
        var i :| 0 <= i < |c| && c[i] == x;
        var k :| 0 <= k < |s| && nfc(s[k]) == x;
        assert nfc(c[i]) == x by { assert nfc(nfc(s[k])) == nfc(s[k]); }
      }
    }
  }

  lemma CanonicalScopeIsStable(s: Scope, nfc: string -> string)
    requires Idempotent(nfc)
    ensures CanonicalScope(CanonicalScope(s, nfc), nfc) == CanonicalScope(s, nfc)
  {
    hide Canonical;
    CanonicalIsStable(s.tenants, nfc);
    CanonicalIsStable(s.factories, nfc);
    CanonicalIsStable(s.regions, nfc);
    CanonicalIsStable(s.agents, nfc);
  }

  // ---- overlap ----

  /** A dimension admits a value that it lists, and every value when it lists none. */
  predicate Admits(dim: seq<string>, v: string) { dim == [] || v in dim }

  predicate Matches(s: Scope, q: Query) {
    Admits(s.tenants, q.tenant) && Admits(s.factories, q.factory) && Admits(s.regions, q.region)
    && Admits(s.agents, q.agent)
  }

  ghost predicate Common(a: seq<string>, b: seq<string>) { exists v :: v in a && v in b }

  ghost predicate OverlapDim(a: seq<string>, b: seq<string>) { a == [] || b == [] || Common(a, b) }

  ghost predicate Overlaps(a: Scope, b: Scope) {
    OverlapDim(a.tenants, b.tenants) && OverlapDim(a.factories, b.factories) && OverlapDim(a.regions, b.regions)
    && OverlapDim(a.agents, b.agents)
  }

  /** overlapDim: setOf(a), then a scan of b. */
  method OverlapsIn(a: seq<string>, b: seq<string>) returns (r: bool)
    ensures r <==> OverlapDim(a, b)
  {
    if |a| == 0 || |b| == 0 { return true; }
    var am: map<string, bool> := map[];
    for i := 0 to |a|
      invariant forall x :: x in am <==> x in a[..i]
      invariant forall x :: x in am ==> am[x]
    {
      am := am[a[i] := true];
    }
    assert a[..|a|] == a;
    for j := 0 to |b|
      invariant forall k :: 0 <= k < j ==> b[k] !in a
    {
      if b[j] in am && am[b[j]] {
        assert b[j] in a && b[j] in b;
        return true;
      }
    }
    return false;
  }

  method OverlapTest(a: Scope, b: Scope) returns (r: bool)
    ensures r <==> Overlaps(a, b)
  {
    r := OverlapsIn(a.tenants, b.tenants);
    if r { r := OverlapsIn(a.factories, b.factories); }
    if r { r := OverlapsIn(a.regions, b.regions); }
    if r { r := OverlapsIn(a.agents, b.agents); }
  }

  lemma OverlapsIsSymmetric(a: Scope, b: Scope)
    ensures Overlaps(a, b) <==> Overlaps(b, a)
  {
  }

  /** A value both dimensions admit exists exactly when they overlap. */
  lemma DimWitness(a: seq<string>, b: seq<string>) returns (v: string)
    ensures OverlapDim(a, b) <==> Admits(a, v) && Admits(b, v)
  {
    if a == [] {
      v := if b == [] then "" else b[0];
    } else if b == [] {
      v := a[0];
    } else if Common(a, b) {
      v :| v in a && v in b;
    } else {
      v := "";
    }
  }

  ghost predicate MatchesBoth(a: Scope, b: Scope, q: Query) { Matches(a, q) && Matches(b, q) }

  /** Overlap is exactly what its documentation claims: some request matches both scopes. */
  lemma OverlapMeansCommonRequest(a: Scope, b: Scope)
    ensures Overlaps(a, b) <==> exists q :: MatchesBoth(a, b, q)
  {
    if Overlaps(a, b) {
      var t := DimWitness(a.tenants, b.tenants);
      var f := DimWitness(a.factories, b.factories);
      var r := DimWitness(a.regions, b.regions);
      var g := DimWitness(a.agents, b.agents);
      assert MatchesBoth(a, b, Query(t, f, r, g));
    }
    if q :| MatchesBoth(a, b, q) {
      assert q.tenant in a.tenants && q.tenant in b.tenants ==> Common(a.tenants, b.tenants);
      assert q.factory in a.factories && q.factory in b.factories ==> Common(a.factories, b.factories);
      assert q.region in a.regions && q.region in b.regions ==> Common(a.regions, b.regions);
      assert q.agent in a.agents && q.agent in b.agents ==> Common(a.agents, b.agents);
    }
  }
}

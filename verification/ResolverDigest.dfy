/** What the request digest tells apart: it must separate different requests under one idempotency key. */
module ResolverDigest {
  import opened Base
  import opened Text
  import opened ResolverRequest

  /** Equal, or the string that a boolean is written as. */
  predicate Alike(u: Value, v: Value) {
    || u == v
    || (u == Str("true") && v == Bool(true)) || (u == Bool(true) && v == Str("true"))
    || (u == Str("false") && v == Bool(false)) || (u == Bool(false) && v == Str("false"))
  }

  predicate SameRequirement(x: Requirement, y: Requirement) {
    && x.id == y.id && x.capability == y.capability && x.major == y.major && x.resourceType == y.resourceType
    && x.constraints.Keys == y.constraints.Keys && forall k :: k in x.constraints ==> Alike(x.constraints[k], y.constraints[k])
  }

  ghost predicate Has(rs: seq<Requirement>, x: Requirement) { exists j :: 0 <= j < |rs| && SameRequirement(x, rs[j]) }

  /** The requests ask the same, in whatever order. */
  ghost predicate SameAsked(a: Request, b: Request) {
    && a.contract == b.contract && a.taskRef == b.taskRef && a.options == b.options
    && (forall i :: 0 <= i < |a.requirements| ==> Has(b.requirements, a.requirements[i]))
    && (forall j :: 0 <= j < |b.requirements| ==> Has(a.requirements, b.requirements[j]))
  }

  predicate Plain(r: Requirement) { forall k :: k in r.constraints ==> r.constraints[k].Str? || r.constraints[k].Bool? }

  predicate AllPlain(rs: seq<Requirement>) { forall i :: 0 <= i < |rs| ==> Plain(rs[i]) }

  lemma RenderedAlike(u: Value, v: Value)
    requires (u.Str? || u.Bool?) && (v.Str? || v.Bool?)
    ensures Rendered(u) == Rendered(v) <==> Alike(u, v)
  {
  }

  lemma NormalsAgree(x: Requirement, y: Requirement)
    requires Plain(x) && Plain(y)
    ensures NormalOf(x) == NormalOf(y) <==> SameRequirement(x, y)
  {
    hide Rendered, Alike;
    var m, n := NormalOf(x).constraints, NormalOf(y).constraints;
    assert m.Keys == x.constraints.Keys && n.Keys == y.constraints.Keys;
    forall k | k in x.constraints && k in y.constraints ensures m[k] == n[k] <==> Alike(x.constraints[k], y.constraints[k]) {
      RenderedAlike(x.constraints[k], y.constraints[k]);
    }
    if SameRequirement(x, y) { assert m == n; }
    if NormalOf(x) == NormalOf(y) {
      assert x.constraints.Keys == y.constraints.Keys;
      forall k | k in x.constraints ensures Alike(x.constraints[k], y.constraints[k]) { assert m[k] == n[k]; }
    }
  }

  lemma {:induction false} NormalReqsAt(ids: seq<string>, rs: seq<Requirement>)
    requires forall k :: 0 <= k < |ids| ==> Lookup(rs, ids[k]).Some?
    ensures |NormalReqs(ids, rs)| == |ids|
    ensures forall k :: 0 <= k < |ids| ==> NormalReqs(ids, rs)[k] == NormalOf(Lookup(rs, ids[k]).value)
    decreases |ids|
  {
    hide NormalOf;
    if ids != [] {
      var init := ids[..|ids| - 1];
      forall k | 0 <= k < |init| ensures Lookup(rs, init[k]).Some? { assert init[k] == ids[k]; }
      NormalReqsAt(init, rs);
      assert Lookup(rs, ids[|ids| - 1]).Some?;
    }
  }

  lemma SortedIdsAreFound(rs: seq<Requirement>)
    ensures multiset(Sort(Ids(rs))) == multiset(Ids(rs))
    ensures forall k :: 0 <= k < |Sort(Ids(rs))| ==> Lookup(rs, Sort(Ids(rs))[k]).Some?
  {
    hide Ordered;
    var ids := Sort(Ids(rs));
    SortOrders(Ids(rs));
    forall k | 0 <= k < |ids| ensures Lookup(rs, ids[k]).Some? {
      assert ids[k] in multiset(Ids(rs));
      var i :| 0 <= i < |rs| && Ids(rs)[i] == ids[k];
      LookupFinds(rs, ids[k]);
    }
  }

  lemma LookupOwn(rs: seq<Requirement>, i: nat)
    requires UniqueIds(rs) && i < |rs|
    ensures Lookup(rs, rs[i].id) == Some(rs[i])
  {
    LookupFinds(rs, rs[i].id);
    var r := Lookup(rs, rs[i].id).value;
    var j :| 0 <= j < |rs| && rs[j] == r;
    assert rs[j].id == rs[i].id;
  }

  /** Equal normal forms: each requirement of a is one of b's. */
  lemma EqualNormalsHave(a: seq<Requirement>, b: seq<Requirement>, i: nat)
    requires UniqueIds(a) && AllPlain(a) && AllPlain(b) && i < |a|
    requires NormalReqs(Sort(Ids(a)), a) == NormalReqs(Sort(Ids(b)), b)
    ensures Has(b, a[i])
  {
    hide NormalReqs, Sort, NormalOf, SameRequirement, Plain;
    var s, t := Sort(Ids(a)), Sort(Ids(b));
    SortedIdsAreFound(a);
    SortedIdsAreFound(b);
    NormalReqsAt(s, a);
    NormalReqsAt(t, b);
    assert Ids(a)[i] in multiset(s);
    var k :| 0 <= k < |s| && s[k] == a[i].id;
    LookupOwn(a, i);
    LookupFinds(b, t[k]);
    var y := Lookup(b, t[k]).value;
    var j :| 0 <= j < |b| && b[j] == y;
    NormalsAgree(a[i], b[j]);
  }

  lemma SameIds(a: seq<Requirement>, b: seq<Requirement>)
    requires UniqueIds(a) && UniqueIds(b)
    requires forall i :: 0 <= i < |a| ==> Has(b, a[i])
    requires forall j :: 0 <= j < |b| ==> Has(a, b[j])
    ensures Sort(Ids(a)) == Sort(Ids(b))
  {
    hide Sort;
    forall id ensures multiset(Ids(a))[id] == multiset(Ids(b))[id] {
      IdsCount(a, id);
      IdsCount(b, id);
      FoundInBoth(a, b, id);
      FoundInBoth(b, a, id);
    }
    assert multiset(Ids(a)) == multiset(Ids(b));
    SortIgnoresOrder(Ids(a), Ids(b));
  }

  lemma FoundInBoth(a: seq<Requirement>, b: seq<Requirement>, id: string)
    requires forall i :: 0 <= i < |a| ==> Has(b, a[i])
    ensures Lookup(a, id).Some? ==> Lookup(b, id).Some?
  {
    LookupFinds(a, id);
    LookupFinds(b, id);
    if Lookup(a, id).Some? {
      var i :| 0 <= i < |a| && a[i] == Lookup(a, id).value;
      assert Has(b, a[i]);
    }
  }

  lemma SameAskedNormals(a: seq<Requirement>, b: seq<Requirement>)
    requires UniqueIds(a) && UniqueIds(b) && AllPlain(a) && AllPlain(b)
    requires forall i :: 0 <= i < |a| ==> Has(b, a[i])
    requires forall j :: 0 <= j < |b| ==> Has(a, b[j])
    ensures NormalReqs(Sort(Ids(a)), a) == NormalReqs(Sort(Ids(b)), b)
  {
    hide NormalReqs, Sort, NormalOf, Plain;
    var ids := Sort(Ids(a));
    SameIds(a, b);
    SortedIdsAreFound(a);
    SortedIdsAreFound(b);
    NormalReqsAt(ids, a);
    NormalReqsAt(ids, b);
    forall k | 0 <= k < |ids| ensures NormalOf(Lookup(a, ids[k]).value) == NormalOf(Lookup(b, ids[k]).value) {
      LookupFinds(a, ids[k]);
      var i :| 0 <= i < |a| && a[i] == Lookup(a, ids[k]).value;
      assert Has(b, a[i]);
      var j :| 0 <= j < |b| && SameRequirement(a[i], b[j]);
      LookupOwn(b, j);
      NormalsAgree(a[i], b[j]);
    }
  }

  lemma ValidIsPlain(req: Request)
    requires Valid(req)
    ensures AllPlain(req.requirements)
  {
    forall i | 0 <= i < |req.requirements| ensures Plain(req.requirements[i]) { assert RequirementOk(req.requirements[i]); }
  }

  /** Valid requests have one digest exactly when they ask the same, up to the order of requirements and up to
      a boolean being sent as the string it is written as. */
  lemma DigestsAgreeExactlyWhen(a: Request, b: Request)
    requires Valid(a) && Valid(b)
    ensures RequestDigest(a) == RequestDigest(b) <==> SameAsked(a, b)
  {
    hide NormalReqs, Sort, RequirementOk, Has, AllPlain;
    ValidIsPlain(a);
    ValidIsPlain(b);
    if RequestDigest(a) == RequestDigest(b) {
      forall i | 0 <= i < |a.requirements| ensures Has(b.requirements, a.requirements[i]) {
        EqualNormalsHave(a.requirements, b.requirements, i);
      }
      forall j | 0 <= j < |b.requirements| ensures Has(a.requirements, b.requirements[j]) {
        EqualNormalsHave(b.requirements, a.requirements, j);
      }
    }
    if SameAsked(a, b) { SameAskedNormals(a.requirements, b.requirements); }
  }
}

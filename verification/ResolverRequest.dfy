/** Resolve requests (internal/resolver/domain.go): validation, normalization, digest, fingerprint. */
module ResolverRequest {
  import opened Base
  import opened Text

  /** A JSON constraint value. */
  datatype Value = Str(s: string) | Bool(b: bool) | Number | Other

  datatype Requirement = Requirement(id: string, capability: string, major: int, resourceType: string,
                                     constraints: map<string, Value>)

  datatype Options = Options(maxPlanTTLSeconds: int, includeExplanations: bool)

  datatype Request = Request(contract: string, taskRef: string, requirements: seq<Requirement>, options: Options)

  const MAX_REQUIREMENTS := 20
  const MAX_KEYS := 16
  const KEYS := {"region", "data_classification_max", "streaming_required", "idempotency_required", "risk_level_max"}
  const TYPES := {"MODEL_PROVIDER", "CONTEXT_PROVIDER", "TOOL_PROVIDER"}
  const CLASSES := {"PUBLIC", "INTERNAL", "CONFIDENTIAL", "RESTRICTED"}
  const RISKS := {"LOW", "MEDIUM", "HIGH"}

  /** dataClassRank; an unknown class ranks 0. */
  function Rank(class_: string): nat {
    if class_ == "PUBLIC" then 1 else if class_ == "INTERNAL" then 2
    else if class_ == "CONFIDENTIAL" then 3 else if class_ == "RESTRICTED" then 4 else 0
  }

  function StrConstraint(cs: map<string, Value>, key: string): string {
    if key in cs && cs[key].Str? then cs[key].s else ""
  }

  predicate ConstraintsOk(cs: map<string, Value>) {
    && |cs| <= MAX_KEYS
    && (forall k :: k in cs ==> k in KEYS && (cs[k].Str? || cs[k].Bool?))
    && ("data_classification_max" in cs ==> StrConstraint(cs, "data_classification_max") in CLASSES)
    && ("risk_level_max" in cs ==> StrConstraint(cs, "risk_level_max") in RISKS)
  }

  predicate BodyOk(r: Requirement) {
    r.capability != "" && r.major >= 1 && r.resourceType in TYPES && ConstraintsOk(r.constraints)
  }

  predicate RequirementOk(r: Requirement) { r.id != "" && BodyOk(r) }

  predicate UniqueIds(rs: seq<Requirement>) { forall i, j :: 0 <= i < j < |rs| ==> rs[i].id != rs[j].id }

  /** Requests that pass; every other one is INVALID_REQUIREMENT. */
  predicate Valid(req: Request) {
    && req.contract == "1.0" && req.taskRef != "" && 1 <= |req.requirements| <= MAX_REQUIREMENTS
    && (forall i :: 0 <= i < |req.requirements| ==> RequirementOk(req.requirements[i]))
    && UniqueIds(req.requirements)
  }

  /** ValidateRequest: the loop with its seen map. */
  method ValidateRequest(req: Request) returns (ok: bool)
    ensures ok <==> Valid(req)
  {
    hide BodyOk;
    if req.contract != "1.0" || req.taskRef == "" { return false; }
    var rs := req.requirements;
    if |rs| == 0 || |rs| > MAX_REQUIREMENTS { return false; }
    var seen: set<string> := {};
    for i := 0 to |rs|
      invariant forall k :: 0 <= k < i ==> RequirementOk(rs[k])
      invariant forall k :: 0 <= k < i ==> rs[k].id in seen
      invariant forall id :: id in seen ==> exists k :: 0 <= k < i && rs[k].id == id
      invariant UniqueIds(rs[..i])
    {
      var r := rs[i];
      if r.id == "" { return false; }
      if r.id in seen {
        var k :| 0 <= k < i && rs[k].id == r.id;
        return false;
      }
      seen := seen + {r.id};
      if !BodyOk(r) { return false; }
    }
    assert rs[..|rs|] == rs;
    return true;
  }

  // ---- lookup by id ----

  /** byID[id]: the last requirement entered under the id. */
  function Lookup(rs: seq<Requirement>, id: string): Option<Requirement>
    decreases |rs|
  {
    if rs == [] then None
    else if rs[|rs| - 1].id == id then Some(rs[|rs| - 1])
    else Lookup(rs[..|rs| - 1], id)
  }

  lemma {:induction false} LookupFinds(rs: seq<Requirement>, id: string)
    ensures Lookup(rs, id).Some? ==> Lookup(rs, id).value in rs && Lookup(rs, id).value.id == id
    ensures Lookup(rs, id).None? ==> forall i :: 0 <= i < |rs| ==> rs[i].id != id
    decreases |rs|
  {
    if rs != [] {
      LookupFinds(rs[..|rs| - 1], id);
      if Lookup(rs, id).None? {
        forall i | 0 <= i < |rs| ensures rs[i].id != id { if i < |rs| - 1 { assert rs[..|rs| - 1][i] == rs[i]; } }
      }
    }
  }

  function Ids(rs: seq<Requirement>): seq<string> { seq(|rs|, i requires 0 <= i < |rs| => rs[i].id) }

  /** Two requests that differ only in the order of their requirements. */
  predicate Reordered(a: Request, b: Request) {
    multiset(a.requirements) == multiset(b.requirements) && b == a.(requirements := b.requirements)
  }

  lemma {:induction false} DistinctCounts(rs: seq<Requirement>, r: Requirement)
    ensures UniqueIds(rs) ==> multiset(rs)[r] <= 1
    decreases |rs|
  {
    if rs != [] {
      var init := rs[..|rs| - 1];
      DistinctCounts(init, r);
      assert rs == init + [rs[|rs| - 1]];
      if UniqueIds(rs) && r == rs[|rs| - 1] {
        forall i | 0 <= i < |init| ensures init[i] != r { assert init[i] == rs[i]; }
      }
    }
  }

  lemma TwiceInOrder(s: seq<Requirement>, i: nat, j: nat)
    requires i < j < |s| && s[i] == s[j]
    ensures multiset(s)[s[i]] >= 2
  {
    assert s == s[..j] + s[j..];
    assert s[..j][i] in multiset(s[..j]) && s[j..][0] in multiset(s[j..]);
  }

  /** Uniqueness of ids does not depend on the order. */
  lemma ReorderedKeepsUnique(a: seq<Requirement>, b: seq<Requirement>)
    requires multiset(a) == multiset(b) && UniqueIds(a)
    ensures UniqueIds(b)
  {
    forall i, j | 0 <= i < j < |b| ensures b[i].id != b[j].id {
      assert b[i] in multiset(a) && b[j] in multiset(a);
      var k :| 0 <= k < |a| && a[k] == b[i];
      var l :| 0 <= l < |a| && a[l] == b[j];
      if k == l {
        DistinctCounts(a, a[k]);
        TwiceInOrder(b, i, j);
      }
    }
  }

  lemma LookupCarries(a: seq<Requirement>, b: seq<Requirement>, id: string)
    requires multiset(a) == multiset(b) && UniqueIds(a) && Lookup(a, id).Some?
    ensures Lookup(b, id) == Lookup(a, id)
  {
    LookupFinds(a, id);
    LookupFinds(b, id);
    var x, y := Lookup(a, id), Lookup(b, id);
    assert x.value in multiset(b);
    var k :| 0 <= k < |b| && b[k] == x.value;
    assert y.value in multiset(a);
    var i :| 0 <= i < |a| && a[i] == x.value;
    var j :| 0 <= j < |a| && a[j] == y.value;
    assert a[i].id == a[j].id;
  }

  lemma ReorderedKeepsLookup(a: seq<Requirement>, b: seq<Requirement>, id: string)
    requires multiset(a) == multiset(b) && UniqueIds(a)
    ensures Lookup(a, id) == Lookup(b, id)
  {
    ReorderedKeepsUnique(a, b);
    if Lookup(a, id).Some? {
      LookupCarries(a, b, id);
    } else if Lookup(b, id).Some? {
      LookupCarries(b, a, id);
    }
  }

  lemma {:induction false} IdsCount(rs: seq<Requirement>, id: string)
    ensures UniqueIds(rs) ==> multiset(Ids(rs))[id] == if Lookup(rs, id).Some? then 1 else 0
    decreases |rs|
  {
    if rs != [] {
      var n := |rs| - 1;
      IdsCount(rs[..n], id);
      LookupFinds(rs[..n], id);
      assert Ids(rs) == Ids(rs[..n]) + [rs[n].id];
    }
  }

  lemma ReorderedKeepsSortedIds(a: seq<Requirement>, b: seq<Requirement>)
    requires multiset(a) == multiset(b) && UniqueIds(a)
    ensures Sort(Ids(a)) == Sort(Ids(b))
  {
    ReorderedKeepsUnique(a, b);
    forall id ensures multiset(Ids(a))[id] == multiset(Ids(b))[id] {
      IdsCount(a, id);
      IdsCount(b, id);
      ReorderedKeepsLookup(a, b, id);
    }
    assert multiset(Ids(a)) == multiset(Ids(b));
    SortIgnoresOrder(Ids(a), Ids(b));
  }

  lemma ReorderedKeepsValid(a: Request, b: Request)
    requires Reordered(a, b) && Valid(a)
    ensures Valid(b)
  {
    ReorderedKeepsUnique(a.requirements, b.requirements);
    assert |a.requirements| == |multiset(a.requirements)| == |multiset(b.requirements)| == |b.requirements|;
    forall i | 0 <= i < |b.requirements| ensures RequirementOk(b.requirements[i]) {
      assert b.requirements[i] in multiset(a.requirements);
    }
  }

  // ---- normalization ----

  datatype NormalReq = NormalReq(id: string, capability: string, major: int, resourceType: string,
                                 constraints: map<string, string>)

  datatype Normal = Normal(contract: string, taskRef: string, requirements: seq<NormalReq>, options: Options)

  /** SHA-256 over the JSON rendering, idealized as the normalized value itself. */
  datatype Digest = DigestOf(normal: Normal)

  function Rendered(v: Value): string {
    match v
    case Str(s) => s
    case Bool(b) => if b then "true" else "false"
    case _ => "other"
  }

  function NormalOf(r: Requirement): NormalReq {
    NormalReq(r.id, r.capability, r.major, r.resourceType, map k | k in r.constraints :: Rendered(r.constraints[k]))
  }

  /** The requirements under these ids, in this order. */
  function NormalReqs(ids: seq<string>, rs: seq<Requirement>): seq<NormalReq>
    decreases |ids|
  {
    if ids == [] then []
    else
      var init := NormalReqs(ids[..|ids| - 1], rs);
      match Lookup(rs, ids[|ids| - 1])
      case Some(r) => init + [NormalOf(r)]
      case None => init
  }

  function Normalize(req: Request): Normal {
    Normal(req.contract, req.taskRef, NormalReqs(Sort(Ids(req.requirements)), req.requirements), req.options)
  }

  function RequestDigest(req: Request): Digest { DigestOf(Normalize(req)) }

  lemma {:induction false} ReorderedKeepsNormalReqs(ids: seq<string>, a: seq<Requirement>, b: seq<Requirement>)
    requires multiset(a) == multiset(b) && UniqueIds(a)
    ensures NormalReqs(ids, a) == NormalReqs(ids, b)
    decreases |ids|
  {
    if ids != [] {
      ReorderedKeepsNormalReqs(ids[..|ids| - 1], a, b);
      ReorderedKeepsLookup(a, b, ids[|ids| - 1]);
    }
  }

  /** The digest does not see the order of the requirements. */
  lemma DigestIgnoresOrder(a: Request, b: Request)
    requires Reordered(a, b) && UniqueIds(a.requirements)
    ensures RequestDigest(a) == RequestDigest(b)
  {
    ReorderedKeepsSortedIds(a.requirements, b.requirements);
    ReorderedKeepsNormalReqs(Sort(Ids(a.requirements)), a.requirements, b.requirements);
  }
}

/** Resolve (internal/resolver/service.go): policy, then per requirement in id order the capability,
    the binding, its snapshot and the profile filter.  The first failure is the answer. */
module Resolver {
  import opened Base
  import opened Text
  import opened ResolverRequest
  import B = Binding
  import S = Scopes

  datatype Code = INVALID_REQUIREMENT | CAPABILITY_NOT_FOUND | AMBIGUOUS_BINDING | NO_COMPATIBLE_PROVIDER
                | PROVIDER_SNAPSHOT_EXPIRED | RESOLVER_UNAVAILABLE

  datatype Result<+T> = Ok(value: T) | Err(code: Code, requirement: string)

  // ---- what Resolve reads ----

  datatype PolicyInput = PolicyInput(region: string, dataClass: string, environment: string, tenant: string)

  datatype Verdict = Allow | Deny | Fails

  /** No engine and no active revision both pass through. */
  datatype Policy = PassThrough | Unavailable | Active(set_: string, version: nat, evaluate: PolicyInput -> Verdict)

  /** required keys and allowed values of a capability's requirement schema. */
  datatype Schema = Schema(required: set<string>, allowed: map<string, set<string>>)

  datatype Capability = Capability(id: nat, revision: nat, schema: Schema)

  datatype Provider = Provider(key: string, published: bool)

  datatype Profile = Profile(id: string, status: string, capabilities: seq<string>, regions: seq<string>, maxClass: string)

  datatype Snapshot = Snapshot(version: nat, providerType: string, endpoint: string, contract: string,
                               profiles: seq<Profile>, validUntil: nat)

  /** The cache's answer; Inactive is the loader's verdict that the pinned snapshot is gone. */
  datatype Cached = Loaded(snapshot: Snapshot) | Inactive | Unreachable

  /** What one requirement's reads see: the registry at its two queries and the cache. limits holds
      the data classification limit in a row's constraints column, where there is one. */
  datatype Reading = Reading(capabilityUp: bool, capabilities: map<(string, int), Capability>,
                             rowsUp: bool, rows: seq<B.Row>, providers: map<nat, Provider>,
                             limits: map<(string, nat), string>, cache: nat -> Cached)

  datatype Caller = Caller(ref: string, tenant: string, environment: string)

  datatype Config = Config(defaultTTL: nat, maxTTL: nat)

  datatype Item = Item(requirement: string, capability: string, major: int, capabilityRevision: nat,
                       binding: string, bindingRevision: nat, provider: string, providerType: string,
                       endpoint: string, snapshotVersion: nat, contract: string, profile: string)

  /** One RevisionInput of the fingerprint. */
  datatype Pin = Pin(capability: string, capabilityRevision: nat, binding: string, bindingRevision: nat,
                     provider: string, snapshotVersion: nat, profile: string)

  /** SHA-256 over the normalized request, the pins sorted by their keys, and the policy revision. */
  datatype Fingerprint = FingerprintOf(normal: Normal, pins: multiset<Pin>, policySet: string, policyVersion: nat)

  datatype Plan = Plan(caller: Caller, taskRef: string, fingerprint: Fingerprint, digest: Digest,
                       policySet: string, policyVersion: nat, createdAt: nat, expiresAt: nat, items: seq<Item>)

  // ---- policy ----

  function InputOf(r: Requirement, caller: Caller): PolicyInput {
    PolicyInput(StrConstraint(r.constraints, "region"), StrConstraint(r.constraints, "data_classification_max"),
                caller.environment, caller.tenant)
  }

  /** The policy filter in request order. */
  function PolicyFilter(p: Policy, rs: seq<Requirement>, caller: Caller): Result<()>
    decreases |rs|
  {
    if p.PassThrough? then Ok(())
    else if p.Unavailable? then Err(RESOLVER_UNAVAILABLE, "")
    else if rs == [] then Ok(())
    else
      match PolicyFilter(p, rs[..|rs| - 1], caller)
      case Err(code, id) => Err(code, id)
      case Ok(_) =>
        match p.evaluate(InputOf(rs[|rs| - 1], caller))
        case Allow => Ok(())
        case Deny => Err(NO_COMPATIBLE_PROVIDER, rs[|rs| - 1].id)
        case Fails => Err(RESOLVER_UNAVAILABLE, "")
  }

  // ---- capability ----

  predicate MeetsSchema(r: Requirement, s: Schema) {
    && (forall k :: k in s.required ==> k in r.constraints)
    && (forall k :: k in s.allowed && k in r.constraints ==> StrConstraint(r.constraints, k) in s.allowed[k])
  }

  function FindCapability(r: Requirement, w: Reading): Result<Capability> {
    if !w.capabilityUp then Err(RESOLVER_UNAVAILABLE, "")
    else if (r.capability, r.major) !in w.capabilities then Err(CAPABILITY_NOT_FOUND, r.id)
    else
      var c := w.capabilities[(r.capability, r.major)];
      if MeetsSchema(r, c.schema) then Ok(c) else Err(INVALID_REQUIREMENT, "")
  }

  // ---- candidates ----

  /** inSet, and a request without a region matches every region set. */
  predicate ScopeMatches(s: S.Scope, tenant: string, region: string) {
    S.Admits(s.tenants, tenant) && (region == "" || S.Admits(s.regions, region))
  }

  /** The query's WHERE and JOIN. */
  predicate Listed(r: B.Row, w: Reading, capability: nat, environment: string) {
    && B.Live(r) && r.content.capability == capability && r.content.environment == environment
    && r.content.provider in w.providers
  }

  /** ORDER BY priority, binding_key. */
  predicate Before(a: B.Row, b: B.Row) {
    a.content.priority < b.content.priority || (a.content.priority == b.content.priority && Leq(a.key, b.key))
  }

  function Place(r: B.Row, rows: seq<B.Row>): seq<B.Row>
    decreases |rows|
  {
    if rows == [] || Before(r, rows[0]) then [r] + rows else [rows[0]] + Place(r, rows[1..])
  }

  function Listing(rows: seq<B.Row>, w: Reading, capability: nat, environment: string): seq<B.Row>
    decreases |rows|
  {
    if rows == [] then []
    else
      var rest, r := Listing(rows[..|rows| - 1], w, capability, environment), rows[|rows| - 1];
      if Listed(r, w, capability, environment) then Place(r, rest) else rest
  }

  /** The loop over the listed rows: published providers, matching scopes. */
  predicate Fits(r: B.Row, w: Reading, tenant: string, region: string) {
    && r.content.provider in w.providers && w.providers[r.content.provider].published
    && ScopeMatches(r.content.scope, tenant, region)
  }

  function Fitting(rows: seq<B.Row>, w: Reading, tenant: string, region: string): seq<B.Row>
    decreases |rows|
  {
    if rows == [] then []
    else
      var rest, r := Fitting(rows[..|rows| - 1], w, tenant, region), rows[|rows| - 1];
      if Fits(r, w, tenant, region) then rest + [r] else rest
  }

  function Candidates(w: Reading, capability: nat, caller: Caller, region: string): seq<B.Row> {
    Fitting(Listing(w.rows, w, capability, caller.environment), w, caller.tenant, region)
  }

  /** The one candidate of lowest priority, or why there is none. */
  function Choose(cands: seq<B.Row>, id: string): Result<B.Row> {
    if cands == [] then Err(NO_COMPATIBLE_PROVIDER, id)
    else if |cands| >= 2 && cands[0].content.priority == cands[1].content.priority then Err(AMBIGUOUS_BINDING, id)
    else Ok(cands[0])
  }

  // ---- snapshot and profile ----

  function FindSnapshot(row: B.Row, w: Reading, now: nat, id: string): Result<Snapshot> {
    match w.cache(row.content.snapshot)
    case Inactive => Err(PROVIDER_SNAPSHOT_EXPIRED, id)
    case Unreachable => Err(RESOLVER_UNAVAILABLE, "")
    case Loaded(s) => if s.validUntil > now then Ok(s) else Err(PROVIDER_SNAPSHOT_EXPIRED, id)
  }

  function FindProfile(ps: seq<Profile>, id: string): Option<Profile>
    decreases |ps|
  {
    if ps == [] then None else if ps[0].id == id then Some(ps[0]) else FindProfile(ps[1..], id)
  }

  predicate ProfileServes(p: Profile, r: Requirement, limit: string) {
    var region, class_ := StrConstraint(r.constraints, "region"), StrConstraint(r.constraints, "data_classification_max");
    && p.status == "AVAILABLE"
    && (p.capabilities == [] || r.capability in p.capabilities)
    && (region == "" || p.regions == [] || region in p.regions)
    && (class_ == "" || (Rank(class_) <= Rank(p.maxClass) && (limit == "" || Rank(class_) <= Rank(limit))))
  }

  predicate MatchesProfile(s: Snapshot, row: B.Row, r: Requirement, limit: string) {
    var p := FindProfile(s.profiles, row.content.profile);
    p.Some? && ProfileServes(p.value, r, limit)
  }

  function LimitOf(row: B.Row, w: Reading): string {
    if (row.key, row.revision) in w.limits then w.limits[(row.key, row.revision)] else ""
  }

  // ---- one requirement ----

  /** The chosen row with everything pinned beside it. */
  datatype Choice = Choice(capability: Capability, row: B.Row, provider: string, snapshot: Snapshot)

  function RegionOf(r: Requirement): string { StrConstraint(r.constraints, "region") }

  function Decide(r: Requirement, w: Reading, caller: Caller, now: nat): Result<Choice> {
    match FindCapability(r, w)
    case Err(code, id) => Err(code, id)
    case Ok(c) =>
      if !w.rowsUp then Err(RESOLVER_UNAVAILABLE, "")
      else
        match Choose(Candidates(w, c.id, caller, RegionOf(r)), r.id)
        case Err(code, id) => Err(code, id)
        case Ok(row) =>
          match FindSnapshot(row, w, now, r.id)
          case Err(code, id) => Err(code, id)
          case Ok(s) =>
            if !MatchesProfile(s, row, r, LimitOf(row, w)) then Err(NO_COMPATIBLE_PROVIDER, r.id)
            else Ok(Choice(c, row, if row.content.provider in w.providers then w.providers[row.content.provider].key else "", s))
  }

  function ItemOf(r: Requirement, c: Choice): Item {
    Item(r.id, r.capability, r.major, c.capability.revision, c.row.key, c.row.revision, c.provider,
         c.snapshot.providerType, c.snapshot.endpoint, c.snapshot.version, c.snapshot.contract, c.row.content.profile)
  }

  function PinOf(r: Requirement, c: Choice): Pin {
    Pin(r.capability, c.capability.revision, c.row.key, c.row.revision, c.provider, c.snapshot.version, c.row.content.profile)
  }

  // ---- the pipeline ----

  datatype Draft = Draft(items: seq<Item>, pins: multiset<Pin>)

  /** The requirements under ids, in this order; the k-th one sees the k-th reading. */
  function Gather(ids: seq<string>, rs: seq<Requirement>, w: nat -> Reading, caller: Caller, now: nat): Result<Draft>
    decreases |ids|
  {
    if ids == [] then Ok(Draft([], multiset{}))
    else
      var n := |ids| - 1;
      match Gather(ids[..n], rs, w, caller, now)
      case Err(code, id) => Err(code, id)
      case Ok(d) =>
        match Lookup(rs, ids[n])
        case None => Ok(d)
        case Some(r) =>
          match Decide(r, w(n), caller, now)
          case Err(code, id) => Err(code, id)
          case Ok(c) => Ok(Draft(d.items + [ItemOf(r, c)], d.pins + multiset{PinOf(r, c)}))
  }

  function TTL(req: Request, cfg: Config): nat {
    var ttl := if req.options.maxPlanTTLSeconds > 0 then req.options.maxPlanTTLSeconds * 1000 else cfg.defaultTTL;
    if cfg.maxTTL > 0 && ttl > cfg.maxTTL then cfg.maxTTL else ttl
  }

  function PlanOf(req: Request, caller: Caller, cfg: Config, p: Policy, now: nat, d: Draft): Plan {
    var set_, version := if p.Active? then p.set_ else "", if p.Active? then p.version else 0;
    Plan(caller, req.taskRef, FingerprintOf(Normalize(req), d.pins, set_, version), RequestDigest(req), set_, version,
         now, now + TTL(req, cfg), d.items)
  }

  function Resolve(req: Request, caller: Caller, cfg: Config, p: Policy, w: nat -> Reading, now: nat): Result<Plan> {
    if !Valid(req) then Err(INVALID_REQUIREMENT, "")
    else
      match PolicyFilter(p, req.requirements, caller)
      case Err(code, id) => Err(code, id)
      case Ok(_) =>
        match Gather(Sort(Ids(req.requirements)), req.requirements, w, caller, now)
        case Err(code, id) => Err(code, id)
        case Ok(d) => Ok(PlanOf(req, caller, cfg, p, now, d))
  }

  // ---- the code ----

  method InSet(set_: seq<string>, v: string) returns (r: bool)
    ensures r <==> S.Admits(set_, v)
  {
    if |set_| == 0 { return true; }
    for i := 0 to |set_|
      invariant forall k :: 0 <= k < i ==> set_[k] != v
    {
      if set_[i] == v { return true; }
    }
    return false;
  }

  method ScopeTest(s: S.Scope, tenant: string, region: string) returns (r: bool)
    ensures r <==> ScopeMatches(s, tenant, region)
  {
    r := InSet(s.tenants, tenant);
    if !r { return false; }
    if region == "" || |s.regions| == 0 { return true; }
    r := InSet(s.regions, region);
  }

  method ListCandidates(w: Reading, capability: nat, caller: Caller, region: string) returns (out: seq<B.Row>)
    ensures out == Candidates(w, capability, caller, region)
  {
    var rows := Listing(w.rows, w, capability, caller.environment);
    out := [];
    for i := 0 to |rows|
      invariant out == Fitting(rows[..i], w, caller.tenant, region)
    {
      assert rows[..i + 1][..i] == rows[..i];
      var c := rows[i];
      if c.content.provider in w.providers && w.providers[c.content.provider].published {
        var matches := ScopeTest(c.content.scope, caller.tenant, region);
        if matches { out := out + [c]; }
      }
    }
    assert rows[..|rows|] == rows;
  }

  method FilterByPolicy(p: Policy, rs: seq<Requirement>, caller: Caller) returns (r: Result<()>)
    ensures r == PolicyFilter(p, rs, caller)
  {
    if p.PassThrough? { return Ok(()); }
    if p.Unavailable? { return Err(RESOLVER_UNAVAILABLE, ""); }
    for i := 0 to |rs|
      invariant PolicyFilter(p, rs[..i], caller) == Ok(())
    {
      assert rs[..i + 1][..i] == rs[..i];
      match p.evaluate(InputOf(rs[i], caller))
      case Allow =>
      case Deny => PolicyStops(p, rs, caller, i + 1); return Err(NO_COMPATIBLE_PROVIDER, rs[i].id);
      case Fails => PolicyStops(p, rs, caller, i + 1); return Err(RESOLVER_UNAVAILABLE, "");
    }
    assert rs[..|rs|] == rs;
    return Ok(());
  }

  /** The first failure of the policy filter is its answer. */
  lemma {:induction false} PolicyStops(p: Policy, rs: seq<Requirement>, caller: Caller, n: nat)
    requires n <= |rs| && PolicyFilter(p, rs[..n], caller).Err?
    ensures PolicyFilter(p, rs, caller) == PolicyFilter(p, rs[..n], caller)
    decreases |rs| - n
  {
    if n < |rs| {
      assert rs[..n + 1][..n] == rs[..n];
      PolicyStops(p, rs, caller, n + 1);
    } else {
      assert rs[..n] == rs;
    }
  }

  /** The first requirement that fails decides. */
  lemma {:induction false} GatherStops(ids: seq<string>, rs: seq<Requirement>, w: nat -> Reading, caller: Caller, now: nat, n: nat)
    requires n <= |ids| && Gather(ids[..n], rs, w, caller, now).Err?
    ensures Gather(ids, rs, w, caller, now) == Gather(ids[..n], rs, w, caller, now)
    decreases |ids| - n
  {
    if n < |ids| {
      assert ids[..n + 1][..n] == ids[..n];
      GatherStops(ids, rs, w, caller, now, n + 1);
    } else {
      assert ids[..n] == ids;
    }
  }

  /** Resolve's body: validation, policy, the loop over the sorted ids, the plan. */
  method ResolvePlan(req: Request, caller: Caller, cfg: Config, p: Policy, w: nat -> Reading, now: nat)
      returns (answer: Result<Plan>)
    ensures answer == Resolve(req, caller, cfg, p, w, now)
  {
    hide Valid, PolicyFilter, Decide, Normalize;
    var valid := ValidateRequest(req);
    if !valid { return Err(INVALID_REQUIREMENT, ""); }
    var filter := FilterByPolicy(p, req.requirements, caller);
    if filter.Err? { return Err(filter.code, filter.requirement); }
    var ids := Sort(Ids(req.requirements));
    var items, pins := [], multiset{};
    for i := 0 to |ids|
      invariant Gather(ids[..i], req.requirements, w, caller, now) == Ok(Draft(items, pins))
    {
      assert ids[..i + 1][..i] == ids[..i];
      match Lookup(req.requirements, ids[i])
      case None =>
      case Some(r) =>
        var choice := Decide(r, w(i), caller, now);
        if choice.Err? {
          GatherStops(ids, req.requirements, w, caller, now, i + 1);
          return Err(choice.code, choice.requirement);
        }
        items := items + [ItemOf(r, choice.value)];
        pins := pins + multiset{PinOf(r, choice.value)};
    }
    assert ids[..|ids|] == ids;
    return Ok(PlanOf(req, caller, cfg, p, now, Draft(items, pins)));
  }
}

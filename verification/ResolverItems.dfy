/** What each requirement is answered, in the columns and profile fields that are read. */
module ResolverItems {
  import opened Base
  import opened Text
  import opened ResolverRequest
  import opened Resolver
  import opened ResolverLaws
  import B = Binding

  // ---- what a requirement asks ----

  /** The requirement names v under this constraint. */
  predicate Names(r: Requirement, key: string, v: string) { v != "" && key in r.constraints && r.constraints[key] == Str(v) }

  lemma NamedIsStr(r: Requirement, key: string)
    ensures forall v :: Names(r, key, v) <==> v != "" && StrConstraint(r.constraints, key) == v
  {
  }

  /** Every required constraint is there, and every listed one has a listed string; what is no string counts as
      the empty one. */
  predicate Satisfies(r: Requirement, s: Schema) {
    && (forall k :: k in s.required ==> k in r.constraints)
    && (forall k :: k in s.allowed && k in r.constraints ==>
          (if r.constraints[k].Str? then r.constraints[k].s else "") in s.allowed[k])
  }

  // ---- which row may serve it ----

  ghost predicate RegionAllows(regions: seq<string>, r: Requirement) {
    regions == [] || forall v :: Names(r, "region", v) ==> v in regions
  }

  /** A live row of the capability in the caller's environment, of a published provider, whose scope admits
      the caller's tenant and the named region. */
  ghost predicate Suits(row: B.Row, r: Requirement, w: Reading, capability: nat, caller: Caller) {
    && row.active && row.state == B.PUBLISHED
    && row.content.capability == capability && row.content.environment == caller.environment
    && row.content.provider in w.providers && w.providers[row.content.provider].published
    && (row.content.scope.tenants == [] || caller.tenant in row.content.scope.tenants)
    && RegionAllows(row.content.scope.regions, r)
  }

  /** Row i suits, and every other row that does comes after it. */
  ghost predicate Best(w: Reading, i: nat, r: Requirement, capability: nat, caller: Caller) {
    && i < |w.rows| && Suits(w.rows[i], r, w, capability, caller)
    && forall j :: 0 <= j < |w.rows| && j != i && Suits(w.rows[j], r, w, capability, caller) ==>
         w.rows[i].content.priority < w.rows[j].content.priority
  }

  ghost predicate TiedAt(w: Reading, i: nat, j: nat, r: Requirement, capability: nat, caller: Caller) {
    && i < |w.rows| && j < |w.rows| && i != j
    && Suits(w.rows[i], r, w, capability, caller) && Suits(w.rows[j], r, w, capability, caller)
    && w.rows[i].content.priority == w.rows[j].content.priority
    && forall k :: 0 <= k < |w.rows| && Suits(w.rows[k], r, w, capability, caller) ==>
         w.rows[i].content.priority <= w.rows[k].content.priority
  }

  ghost predicate Nobody(w: Reading, r: Requirement, capability: nat, caller: Caller) {
    forall i :: 0 <= i < |w.rows| ==> !Suits(w.rows[i], r, w, capability, caller)
  }

  // ---- which profile offers it ----

  const CLASS_ORDER: seq<string> := ["PUBLIC", "INTERNAL", "CONFIDENTIAL", "RESTRICTED"]

  /** Class a is above class b; a class nobody knows is below the four. */
  ghost predicate Above(a: string, b: string) {
    exists i :: 0 <= i < |CLASS_ORDER| && CLASS_ORDER[i] == a && forall j :: 0 <= j < |CLASS_ORDER| && CLASS_ORDER[j] == b ==> j < i
  }

  /** The profile is available, lists the capability or none, lists the named region or none, and the named data
      class is not above its limit nor above the row's, if the row has one. */
  ghost predicate Offers(p: Profile, r: Requirement, limit: string) {
    && p.status == "AVAILABLE"
    && (p.capabilities == [] || r.capability in p.capabilities)
    && RegionAllows(p.regions, r)
    && (forall v :: Names(r, "data_classification_max", v) ==> !Above(v, p.maxClass) && (limit == "" || !Above(v, limit)))
  }

  /** The first profile with this id offers what is asked. */
  ghost predicate Offered(ps: seq<Profile>, id: string, r: Requirement, limit: string) {
    exists i :: 0 <= i < |ps| && IsFirst(ps, i, id) && Offers(ps[i], r, limit)
  }

  predicate IsFirst(ps: seq<Profile>, i: nat, id: string)
    requires i < |ps|
  {
    ps[i].id == id && forall j :: 0 <= j < i ==> ps[j].id != id
  }

  // ---- the code's tests are these ----

  lemma RanksAreTheOrder(a: string, b: string)
    ensures Above(a, b) <==> Rank(a) > Rank(b)
  {
    var o := CLASS_ORDER;
    assert o[0] == "PUBLIC" && o[1] == "INTERNAL" && o[2] == "CONFIDENTIAL" && o[3] == "RESTRICTED";
    assert forall i :: 0 <= i < 4 ==> Rank(o[i]) == i + 1;
    if Rank(a) > Rank(b) {
      assert o[Rank(a) - 1] == a;
      assert forall j :: 0 <= j < 4 && o[j] == b ==> Rank(b) == j + 1;
    }
  }

  lemma SuitsIsMatch(row: B.Row, r: Requirement, w: Reading, capability: nat, caller: Caller)
    ensures Suits(row, r, w, capability, caller) <==> Match(row, w, capability, caller, RegionOf(r))
  {
    RegionIsNamed(row.content.scope.regions, r);
  }

  lemma RegionIsNamed(regions: seq<string>, r: Requirement)
    ensures RegionAllows(regions, r) <==> RegionOf(r) == "" || regions == [] || RegionOf(r) in regions
  {
    NamedIsStr(r, "region");
    if RegionOf(r) != "" { assert Names(r, "region", RegionOf(r)); }
  }

  lemma OffersIsServes(p: Profile, r: Requirement, limit: string)
    ensures Offers(p, r, limit) <==> ProfileServes(p, r, limit)
  {
    hide Above, Rank;
    var v := StrConstraint(r.constraints, "data_classification_max");
    RegionIsNamed(p.regions, r);
    NamedIsStr(r, "data_classification_max");
    RanksAreTheOrder(v, p.maxClass);
    RanksAreTheOrder(v, limit);
    if v != "" { assert Names(r, "data_classification_max", v); }
  }

  lemma {:induction false} FirstIsFound(ps: seq<Profile>, id: string)
    ensures FindProfile(ps, id).None? ==> forall i :: 0 <= i < |ps| ==> ps[i].id != id
    ensures forall i :: 0 <= i < |ps| && IsFirst(ps, i, id) ==> FindProfile(ps, id) == Some(ps[i])
    ensures FindProfile(ps, id).Some? ==> exists i :: 0 <= i < |ps| && IsFirst(ps, i, id)
    decreases |ps|
  {
    if ps != [] {
      if ps[0].id == id {
        assert IsFirst(ps, 0, id);
      } else {
        FirstIsFound(ps[1..], id);
        forall i | 0 <= i < |ps| && IsFirst(ps, i, id) ensures FindProfile(ps, id) == Some(ps[i]) {
          assert forall j :: 0 <= j < i - 1 ==> ps[1..][j] == ps[j + 1];
          assert IsFirst(ps[1..], i - 1, id);
        }
        if FindProfile(ps, id).Some? {
          var i :| 0 <= i < |ps[1..]| && IsFirst(ps[1..], i, id);
          assert forall j :: 0 < j < i + 1 ==> ps[j] == ps[1..][j - 1];
          assert IsFirst(ps, i + 1, id);
        }
      }
    }
  }

  lemma OfferedIsMatched(s: Snapshot, row: B.Row, r: Requirement, limit: string)
    ensures Offered(s.profiles, row.content.profile, r, limit) <==> MatchesProfile(s, row, r, limit)
  {
    hide Offers, ProfileServes, IsFirst;
    var ps, id := s.profiles, row.content.profile;
    FirstIsFound(ps, id);
    forall i | 0 <= i < |ps| && IsFirst(ps, i, id) ensures Offers(ps[i], r, limit) <==> ProfileServes(ps[i], r, limit) {
      OffersIsServes(ps[i], r, limit);
    }
  }

  // ---- the choice ----

  lemma BestIsChosen(w: Reading, i: nat, r: Requirement, capability: nat, caller: Caller)
    requires Best(w, i, r, capability, caller)
    ensures Choose(Candidates(w, capability, caller, RegionOf(r)), r.id) == Ok(w.rows[i])
  {
    hide Suits, Candidates, Match;
    var region := RegionOf(r);
    forall row ensures Suits(row, r, w, capability, caller) <==> Match(row, w, capability, caller, region) {
      SuitsIsMatch(row, r, w, capability, caller);
    }
    ChoiceFailsExactlyWhen(w, capability, caller, region, r.id);
    var ch := Choose(Candidates(w, capability, caller, region), r.id);
    forall a, b ensures !Tied(w, capability, caller, region, a, b) { BestExcludesTies(w, i, r, capability, caller, a, b); }
    assert w.rows[i] in w.rows && Match(w.rows[i], w, capability, caller, region);
    assert ch.Ok?;
    ChosenIsUniqueLowest(w, capability, caller, region, r.id);
    var best, chosen := w.rows[i], ch.value;
    var j :| 0 <= j < |w.rows| && w.rows[j] == chosen;
    assert j != i ==> Both(w.rows, chosen, best);
  }

  lemma BestExcludesTies(w: Reading, i: nat, r: Requirement, capability: nat, caller: Caller, a: B.Row, b: B.Row)
    requires Best(w, i, r, capability, caller)
    ensures !Tied(w, capability, caller, RegionOf(r), a, b)
  {
    hide Suits, Match;
    forall row ensures Suits(row, r, w, capability, caller) <==> Match(row, w, capability, caller, RegionOf(r)) {
      SuitsIsMatch(row, r, w, capability, caller);
    }
    if Both(w.rows, a, b) {
      var j, k :| 0 <= j < |w.rows| && 0 <= k < |w.rows| && j != k && w.rows[j] == a && w.rows[k] == b;
      assert w.rows[i] in w.rows;
    }
  }

  lemma TiedIsAmbiguousHere(w: Reading, i: nat, j: nat, r: Requirement, capability: nat, caller: Caller)
    requires TiedAt(w, i, j, r, capability, caller)
    ensures Choose(Candidates(w, capability, caller, RegionOf(r)), r.id) == Err(AMBIGUOUS_BINDING, r.id)
  {
    hide Suits, Candidates, Match;
    var region := RegionOf(r);
    forall row ensures Suits(row, r, w, capability, caller) <==> Match(row, w, capability, caller, region) {
      SuitsIsMatch(row, r, w, capability, caller);
    }
    ChoiceFailsExactlyWhen(w, capability, caller, region, r.id);
    assert Both(w.rows, w.rows[i], w.rows[j]);
    assert Tied(w, capability, caller, region, w.rows[i], w.rows[j]);
  }

  lemma NobodyIsNone(w: Reading, r: Requirement, capability: nat, caller: Caller)
    requires Nobody(w, r, capability, caller)
    ensures Choose(Candidates(w, capability, caller, RegionOf(r)), r.id) == Err(NO_COMPATIBLE_PROVIDER, r.id)
  {
    hide Suits, Candidates, Match;
    forall row ensures Suits(row, r, w, capability, caller) <==> Match(row, w, capability, caller, RegionOf(r)) {
      SuitsIsMatch(row, r, w, capability, caller);
    }
    ChoiceFailsExactlyWhen(w, capability, caller, RegionOf(r), r.id);
  }

  /** Nobody suits, two rows share the lowest priority, or one is best. */
  lemma NobodyTiedOrBest(w: Reading, r: Requirement, capability: nat, caller: Caller)
    ensures Nobody(w, r, capability, caller)
            || (exists i: nat, j: nat :: TiedAt(w, i, j, r, capability, caller)) || (exists i: nat :: Best(w, i, r, capability, caller))
  {
    hide Suits, Candidates, Match;
    var region := RegionOf(r);
    forall row ensures Suits(row, r, w, capability, caller) <==> Match(row, w, capability, caller, region) {
      SuitsIsMatch(row, r, w, capability, caller);
    }
    ChoiceFailsExactlyWhen(w, capability, caller, region, r.id);
    var ch := Choose(Candidates(w, capability, caller, region), r.id);
    if ch.Ok? {
      ChosenIsUniqueLowest(w, capability, caller, region, r.id);
      var i :| 0 <= i < |w.rows| && w.rows[i] == ch.value;
      forall j | 0 <= j < |w.rows| && j != i && Suits(w.rows[j], r, w, capability, caller)
        ensures w.rows[i].content.priority < w.rows[j].content.priority
      {
        assert Both(w.rows, ch.value, w.rows[j]);
      }
      assert Best(w, i, r, capability, caller);
    } else if a, b :| Tied(w, capability, caller, region, a, b) {
      var i, j :| 0 <= i < |w.rows| && 0 <= j < |w.rows| && i != j && w.rows[i] == a && w.rows[j] == b;
      assert TiedAt(w, i, j, r, capability, caller);
    }
  }

  // ---- the answer ----

  /** The registry answers, knows the capability, and the requirement satisfies its schema. */
  ghost predicate Asked(r: Requirement, w: Reading, c: Capability) {
    && w.capabilityUp && (r.capability, r.major) in w.capabilities && c == w.capabilities[(r.capability, r.major)]
    && Satisfies(r, c.schema)
  }

  lemma CapabilityAnswers(r: Requirement, w: Reading)
    ensures !w.capabilityUp ==> FindCapability(r, w) == Err(RESOLVER_UNAVAILABLE, "")
    ensures w.capabilityUp && (r.capability, r.major) !in w.capabilities ==> FindCapability(r, w) == Err(CAPABILITY_NOT_FOUND, r.id)
    ensures w.capabilityUp && (r.capability, r.major) in w.capabilities ==>
              var c := w.capabilities[(r.capability, r.major)];
              FindCapability(r, w) == if Satisfies(r, c.schema) then Ok(c) else Err(INVALID_REQUIREMENT, "")
  {
    if w.capabilityUp && (r.capability, r.major) in w.capabilities {
      var c := w.capabilities[(r.capability, r.major)];
      assert Satisfies(r, c.schema) <==> MeetsSchema(r, c.schema);
    }
  }

  predicate Misses(r: Requirement, w: Reading) {
    && w.capabilityUp && (r.capability, r.major) in w.capabilities
    && !Satisfies(r, w.capabilities[(r.capability, r.major)].schema)
  }

  /** The answers before any row is chosen. */
  lemma FailsBeforeRows(r: Requirement, w: Reading, caller: Caller, now: nat)
    ensures var d := Decide(r, w, caller, now);
            && (!w.capabilityUp ==> d == Err(RESOLVER_UNAVAILABLE, ""))
            && (w.capabilityUp && (r.capability, r.major) !in w.capabilities ==> d == Err(CAPABILITY_NOT_FOUND, r.id))
            && (Misses(r, w) ==> d == Err(INVALID_REQUIREMENT, ""))
            && (forall c :: Asked(r, w, c) && !w.rowsUp ==> d == Err(RESOLVER_UNAVAILABLE, ""))
  {
    hide FindCapability, Candidates, Satisfies;
    CapabilityAnswers(r, w);
  }

  /** The answers of the choice: none suits, or two are tied. */
  lemma FailsAtTheChoice(r: Requirement, w: Reading, caller: Caller, now: nat, c: Capability)
    requires Asked(r, w, c) && w.rowsUp
    ensures Nobody(w, r, c.id, caller) ==> Decide(r, w, caller, now) == Err(NO_COMPATIBLE_PROVIDER, r.id)
    ensures (exists i: nat, j: nat :: TiedAt(w, i, j, r, c.id, caller)) ==> Decide(r, w, caller, now) == Err(AMBIGUOUS_BINDING, r.id)
  {
    hide FindCapability, Candidates, Satisfies, Nobody, TiedAt, Choose;
    CapabilityAnswers(r, w);
    if Nobody(w, r, c.id, caller) { NobodyIsNone(w, r, c.id, caller); }
    if i: nat, j: nat :| TiedAt(w, i, j, r, c.id, caller) { TiedIsAmbiguousHere(w, i, j, r, c.id, caller); }
  }

  /** The item a row and its snapshot give. */
  ghost predicate Pins(item: Item, r: Requirement, w: Reading, c: Capability, row: B.Row, s: Snapshot) {
    && item.requirement == r.id && item.capability == r.capability && item.major == r.major
    && item.capabilityRevision == c.revision
    && item.binding == row.key && item.bindingRevision == row.revision && item.profile == row.content.profile
    && row.content.provider in w.providers && item.provider == w.providers[row.content.provider].key
    && item.providerType == s.providerType && item.endpoint == s.endpoint
    && item.snapshotVersion == s.version && item.contract == s.contract
  }

  function LimitFor(row: B.Row, w: Reading): string {
    if (row.key, row.revision) in w.limits then w.limits[(row.key, row.revision)] else ""
  }

  /** The best row is given exactly when the cache serves its snapshot, unexpired, and the row's profile in it offers
      what is asked; what each failure is answered; and what the item pins. */
  lemma BestRowAnswers(r: Requirement, w: Reading, caller: Caller, now: nat, c: Capability, i: nat)
    requires Asked(r, w, c) && w.rowsUp && Best(w, i, r, c.id, caller)
    ensures var d, row := Decide(r, w, caller, now), w.rows[i];
            match w.cache(row.content.snapshot)
            case Inactive => d == Err(PROVIDER_SNAPSHOT_EXPIRED, r.id)
            case Unreachable => d == Err(RESOLVER_UNAVAILABLE, "")
            case Loaded(s) =>
              if s.validUntil <= now then d == Err(PROVIDER_SNAPSHOT_EXPIRED, r.id)
              else if !Offered(s.profiles, row.content.profile, r, LimitFor(row, w)) then d == Err(NO_COMPATIBLE_PROVIDER, r.id)
              else d.Ok? && Pins(ItemOf(r, d.value), r, w, c, row, s) && d.value.capability == c && d.value.row == row && d.value.snapshot == s
  {
    hide FindCapability, Candidates, Satisfies, Choose, Offered, MatchesProfile;
    var row := w.rows[i];
    CapabilityAnswers(r, w);
    BestIsChosen(w, i, r, c.id, caller);
    assert row.content.provider in w.providers;
    if w.cache(row.content.snapshot).Loaded? {
      OfferedIsMatched(w.cache(row.content.snapshot).snapshot, row, r, LimitOf(row, w));
    }
  }

  // ---- the request ----

  predicate Whitelisted(key: string) {
    || key == "region" || key == "data_classification_max" || key == "streaming_required"
    || key == "idempotency_required" || key == "risk_level_max"
  }

  /** The constraint, if given, is one of these strings. */
  predicate OneOf(r: Requirement, key: string, values: seq<string>) {
    key in r.constraints ==> r.constraints[key].Str? && r.constraints[key].s in values
  }

  predicate Acceptable(r: Requirement) {
    && r.id != "" && r.capability != "" && r.major >= 1
    && r.resourceType in ["MODEL_PROVIDER", "CONTEXT_PROVIDER", "TOOL_PROVIDER"]
    && (forall k :: k in r.constraints ==> Whitelisted(k) && (r.constraints[k].Str? || r.constraints[k].Bool?))
    && OneOf(r, "data_classification_max", ["PUBLIC", "INTERNAL", "CONFIDENTIAL", "RESTRICTED"])
    && OneOf(r, "risk_level_max", ["LOW", "MEDIUM", "HIGH"])
  }

  lemma FewKeys(r: Requirement)
    requires forall k :: k in r.constraints ==> Whitelisted(k)
    ensures |r.constraints| <= 5
  {
    var all := {"region", "data_classification_max", "streaming_required", "idempotency_required", "risk_level_max"};
    assert r.constraints.Keys <= all;
    assert |all| <= 5;
    SubsetIsSmaller(r.constraints.Keys, all);
  }

  lemma SubsetIsSmaller(a: set<string>, b: set<string>)
    requires a <= b
    ensures |a| <= |b|
  {
    assert b == a + (b - a);
  }

  lemma AcceptableIsOk(r: Requirement)
    ensures Acceptable(r) <==> RequirementOk(r)
  {
    if forall k :: k in r.constraints ==> Whitelisted(k) { FewKeys(r); }
    assert StrConstraint(r.constraints, "data_classification_max") !in {""} || "" !in CLASSES;
  }

  /** Validation accepts a request exactly when it has version 1.0, a task, one to twenty requirements with
      different ids, and each of them is acceptable. */
  lemma ValidExactlyWhen(req: Request)
    ensures Valid(req) <==>
            && req.contract == "1.0" && req.taskRef != "" && 1 <= |req.requirements| <= 20
            && (forall i :: 0 <= i < |req.requirements| ==> Acceptable(req.requirements[i]))
            && (forall i, j :: 0 <= i < j < |req.requirements| ==> req.requirements[i].id != req.requirements[j].id)
  {
    hide Acceptable, RequirementOk;
    forall i | 0 <= i < |req.requirements| ensures Acceptable(req.requirements[i]) <==> RequirementOk(req.requirements[i]) {
      AcceptableIsOk(req.requirements[i]);
    }
  }

  // ---- policy ----

  /** What the policy engine is asked about a requirement. */
  ghost predicate IsInput(input: PolicyInput, r: Requirement, caller: Caller) {
    && input.environment == caller.environment && input.tenant == caller.tenant
    && (forall v :: Names(r, "region", v) <==> v != "" && input.region == v)
    && (forall v :: Names(r, "data_classification_max", v) <==> v != "" && input.dataClass == v)
  }

  predicate Allows(p: Policy, r: Requirement, caller: Caller)
    requires p.Active?
  {
    p.evaluate(InputOf(r, caller)) == Allow
  }

  /** The first requirement the engine does not allow, in request order, decides; a denial names it. */
  lemma {:induction false} PolicyDecides(p: Policy, rs: seq<Requirement>, caller: Caller, n: nat)
    requires p.Active? && n < |rs| && !Allows(p, rs[n], caller)
    requires forall i :: 0 <= i < n ==> Allows(p, rs[i], caller)
    ensures IsInput(InputOf(rs[n], caller), rs[n], caller)
    ensures PolicyFilter(p, rs, caller) == if p.evaluate(InputOf(rs[n], caller)) == Deny
                                           then Err(NO_COMPATIBLE_PROVIDER, rs[n].id) else Err(RESOLVER_UNAVAILABLE, "")
    decreases |rs|
  {
    NamedIsStr(rs[n], "region");
    NamedIsStr(rs[n], "data_classification_max");
    if n < |rs| - 1 {
      PolicyDecides(p, rs[..|rs| - 1], caller, n);
    } else {
      PolicyLetsPass(p, rs[..n], caller);
    }
  }

  lemma {:induction false} PolicyLetsPass(p: Policy, rs: seq<Requirement>, caller: Caller)
    requires p.PassThrough? || (p.Active? && forall i :: 0 <= i < |rs| ==> Allows(p, rs[i], caller))
    ensures PolicyFilter(p, rs, caller) == Ok(())
    decreases |rs|
  {
    if rs != [] && p.Active? {
      var init := rs[..|rs| - 1];
      forall i | 0 <= i < |init| ensures Allows(p, init[i], caller) { assert init[i] == rs[i]; }
      PolicyLetsPass(p, init, caller);
    }
  }
}

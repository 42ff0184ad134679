/** Theorems about whole resolutions. */
module ResolverPlans {
  import opened Base
  import opened Text
  import opened ResolverRequest
  import opened Resolver
  import opened ResolverLaws
  import opened ResolverItems
  import B = Binding
  import T = BindingTable
  import G = BindingSlots
  import L = BindingLife
  import R = BindingRuns
  import S = Scopes

  // ---- what an item means ----

  /** The registry knew the capability and the requirement satisfied its schema; the item pins the best suiting row,
      with a snapshot the cache served, still valid at now, whose profile offered what was asked. */
  ghost predicate Sound(item: Item, r: Requirement, w: Reading, caller: Caller, now: nat) {
    exists c, i: nat, s :: Backs(c, i, s, item, r, w, caller, now)
  }

  ghost predicate Backs(c: Capability, i: nat, s: Snapshot, item: Item, r: Requirement, w: Reading, caller: Caller, now: nat) {
    && Asked(r, w, c) && w.rowsUp && Best(w, i, r, c.id, caller)
    && w.cache(w.rows[i].content.snapshot) == Loaded(s) && s.validUntil > now
    && Offered(s.profiles, w.rows[i].content.profile, r, LimitFor(w.rows[i], w))
    && Pins(item, r, w, c, w.rows[i], s)
  }

  lemma DecideIsSound(r: Requirement, w: Reading, caller: Caller, now: nat)
    requires Decide(r, w, caller, now).Ok?
    ensures Sound(ItemOf(r, Decide(r, w, caller, now).value), r, w, caller, now)
  {
    hide Satisfies, Decide, Nobody, TiedAt, Best, Offered, Pins;
    FailsBeforeRows(r, w, caller, now);
    var c := w.capabilities[(r.capability, r.major)];
    assert Asked(r, w, c);
    FailsAtTheChoice(r, w, caller, now, c);
    NobodyTiedOrBest(w, r, c.id, caller);
    var i: nat :| Best(w, i, r, c.id, caller);
    BestIsARow(w, i, r, c.id, caller);
    BestRowAnswers(r, w, caller, now, c, i);
    assert Backs(c, i, w.cache(w.rows[i].content.snapshot).snapshot, ItemOf(r, Decide(r, w, caller, now).value), r, w, caller, now);
  }

  lemma BestIsARow(w: Reading, i: nat, r: Requirement, capability: nat, caller: Caller)
    requires Best(w, i, r, capability, caller)
    ensures i < |w.rows|
  {
  }

  /** A requirement is given an item exactly when some sound item there is. */
  lemma DecideSucceedsExactly(r: Requirement, w: Reading, caller: Caller, now: nat)
    ensures Decide(r, w, caller, now).Ok? <==> exists item :: Sound(item, r, w, caller, now)
  {
    hide Asked, Decide, Best, Offered, Pins;
    if Decide(r, w, caller, now).Ok? { DecideIsSound(r, w, caller, now); }
    if item :| Sound(item, r, w, caller, now) {
      var c, i: nat, s :| Backs(c, i, s, item, r, w, caller, now);
      BestRowAnswers(r, w, caller, now, c, i);
    }
  }

  lemma {:induction false} GatherIsSound(ids: seq<string>, rs: seq<Requirement>, w: nat -> Reading, caller: Caller, now: nat)
    requires Gather(ids, rs, w, caller, now).Ok?
    requires forall k :: 0 <= k < |ids| ==> Lookup(rs, ids[k]).Some?
    ensures var items := Gather(ids, rs, w, caller, now).value.items;
            |items| == |ids| && forall k :: 0 <= k < |ids| ==> Sound(items[k], Lookup(rs, ids[k]).value, w(k), caller, now)
    decreases |ids|
  {
    hide Decide, Sound;
    if ids != [] {
      var n := |ids| - 1;
      forall k | 0 <= k < n ensures Lookup(rs, ids[..n][k]).Some? { assert ids[..n][k] == ids[k]; }
      GatherIsSound(ids[..n], rs, w, caller, now);
      DecideIsSound(Lookup(rs, ids[n]).value, w(n), caller, now);
      var items := Gather(ids, rs, w, caller, now).value.items;
      forall k | 0 <= k < |ids| ensures Sound(items[k], Lookup(rs, ids[k]).value, w(k), caller, now) {
        if k < n { assert ids[..n][k] == ids[k]; }
      }
    }
  }

  lemma {:induction false} IdsAreFound(rs: seq<Requirement>, ids: seq<string>)
    requires multiset(ids) == multiset(Ids(rs))
    ensures forall k :: 0 <= k < |ids| ==> Lookup(rs, ids[k]).Some?
  {
    forall k | 0 <= k < |ids| ensures Lookup(rs, ids[k]).Some? {
      assert ids[k] in multiset(Ids(rs));
      var i :| 0 <= i < |rs| && Ids(rs)[i] == ids[k];
      LookupFinds(rs, ids[k]);
    }
  }

  /** A resolved plan has one item per requirement, in id order, each sound, every snapshot valid at
      the plan's creation; the plan expires within the configured maximum. */
  lemma PlansAreSound(req: Request, caller: Caller, cfg: Config, p: Policy, w: nat -> Reading, now: nat)
    requires Resolve(req, caller, cfg, p, w, now).Ok?
    ensures var plan := Resolve(req, caller, cfg, p, w, now).value; var ids := Sort(Ids(req.requirements));
            && plan.createdAt == now && now <= plan.expiresAt && (cfg.maxTTL > 0 ==> plan.expiresAt <= now + cfg.maxTTL)
            && |plan.items| == |ids| == |req.requirements| && multiset(ids) == multiset(Ids(req.requirements))
            && forall k :: 0 <= k < |ids| ==>
                 Lookup(req.requirements, ids[k]).Some?
                 && Sound(plan.items[k], Lookup(req.requirements, ids[k]).value, w(k), caller, plan.createdAt)
  {
    hide Valid, PolicyFilter, Gather, Sound;
    var ids := Sort(Ids(req.requirements));
    SortOrders(Ids(req.requirements));
    assert |multiset(ids)| == |ids|;
    IdsAreFound(req.requirements, ids);
    GatherIsSound(ids, req.requirements, w, caller, now);
  }

  /** The first requirement in id order that is given no item decides, with its own answer. */
  lemma {:induction false} GatherFailsWithTheFirst(ids: seq<string>, rs: seq<Requirement>, w: nat -> Reading, caller: Caller,
                                                   now: nat, k: nat)
    requires k < |ids| && Lookup(rs, ids[k]).Some? && Decide(Lookup(rs, ids[k]).value, w(k), caller, now).Err?
    requires forall j :: 0 <= j < k ==> Given(ids, rs, w, caller, now, j)
    ensures var d := Decide(Lookup(rs, ids[k]).value, w(k), caller, now);
            Gather(ids, rs, w, caller, now) == Err(d.code, d.requirement)
    decreases |ids|
  {
    hide Decide;
    var init := ids[..|ids| - 1];
    forall j | 0 <= j < |init| && j < k ensures Given(init, rs, w, caller, now, j) { assert Given(ids, rs, w, caller, now, j); }
    if k < |init| { GatherFailsWithTheFirst(init, rs, w, caller, now, k); } else { GatherSucceeds(init, rs, w, caller, now); }
  }

  predicate Given(ids: seq<string>, rs: seq<Requirement>, w: nat -> Reading, caller: Caller, now: nat, k: nat)
    requires k < |ids|
  {
    Lookup(rs, ids[k]).Some? && Decide(Lookup(rs, ids[k]).value, w(k), caller, now).Ok?
  }

  lemma {:induction false} GatherSucceeds(ids: seq<string>, rs: seq<Requirement>, w: nat -> Reading, caller: Caller, now: nat)
    requires forall k :: 0 <= k < |ids| ==> Given(ids, rs, w, caller, now, k)
    ensures Gather(ids, rs, w, caller, now).Ok?
    decreases |ids|
  {
    hide Decide;
    if ids != [] {
      var init := ids[..|ids| - 1];
      forall k | 0 <= k < |init| ensures Given(init, rs, w, caller, now, k) { assert Given(ids, rs, w, caller, now, k); }
      GatherSucceeds(init, rs, w, caller, now);
      assert Given(ids, rs, w, caller, now, |ids| - 1);
    }
  }

  /** The requirement that is k-th in id order. */
  function InIdOrder(req: Request, k: nat): Option<Requirement> {
    var ids := Sort(Ids(req.requirements));
    if k < |ids| then Lookup(req.requirements, ids[k]) else None
  }

  lemma IdOrderFinds(req: Request)
    ensures |Sort(Ids(req.requirements))| == |req.requirements|
    ensures forall k :: 0 <= k < |req.requirements| ==> InIdOrder(req, k).Some?
  {
    hide Sort, Ordered;
    var ids := Sort(Ids(req.requirements));
    SortOrders(Ids(req.requirements));
    assert |multiset(ids)| == |ids|;
    IdsAreFound(req.requirements, ids);
  }

  /** Some item is sound for the requirement that is k-th in id order. */
  ghost predicate Servable(req: Request, k: nat, w: nat -> Reading, caller: Caller, now: nat) {
    InIdOrder(req, k).Some? && exists item :: Sound(item, InIdOrder(req, k).value, w(k), caller, now)
  }

  /** A valid request that the policy lets pass resolves exactly when every requirement has a sound item. */
  lemma ResolveSucceedsExactly(req: Request, caller: Caller, cfg: Config, p: Policy, w: nat -> Reading, now: nat)
    requires Valid(req) && PolicyFilter(p, req.requirements, caller).Ok?
    ensures Resolve(req, caller, cfg, p, w, now).Ok? <==> forall k :: 0 <= k < |req.requirements| ==> Servable(req, k, w, caller, now)
  {
    hide Valid, PolicyFilter, Gather, Sound, Decide, Sort;
    IdOrderFinds(req);
    var rs, ids := req.requirements, Sort(Ids(req.requirements));
    forall k | 0 <= k < |ids| ensures Given(ids, rs, w, caller, now, k) <==> Servable(req, k, w, caller, now) {
      assert InIdOrder(req, k).Some?;
      DecideSucceedsExactly(InIdOrder(req, k).value, w(k), caller, now);
    }
    if forall k :: 0 <= k < |ids| ==> Given(ids, rs, w, caller, now, k) {
      GatherSucceeds(ids, rs, w, caller, now);
    } else {
      var k := FirstNotGiven(ids, rs, w, caller, now);
      assert InIdOrder(req, k).Some?;
      GatherFailsWithTheFirst(ids, rs, w, caller, now, k);
    }
  }

  lemma FirstNotGiven(ids: seq<string>, rs: seq<Requirement>, w: nat -> Reading, caller: Caller, now: nat) returns (k: nat)
    requires !forall k :: 0 <= k < |ids| ==> Given(ids, rs, w, caller, now, k)
    ensures k < |ids| && !Given(ids, rs, w, caller, now, k) && forall j :: 0 <= j < k ==> Given(ids, rs, w, caller, now, j)
  {
    hide Given;
    k := 0;
    while k < |ids| && Given(ids, rs, w, caller, now, k)
      invariant k <= |ids| && forall j :: 0 <= j < k ==> Given(ids, rs, w, caller, now, j)
    {
      k := k + 1;
    }
  }

  /** A valid request that the policy lets pass and that does not resolve is answered what its first requirement,
      in id order, without an item is answered. */
  lemma ResolveFailsWithTheFirst(req: Request, caller: Caller, cfg: Config, p: Policy, w: nat -> Reading, now: nat, k: nat)
    requires Valid(req) && PolicyFilter(p, req.requirements, caller).Ok? && k < |req.requirements|
    requires forall j :: 0 <= j <= k ==> InIdOrder(req, j).Some?
    requires forall j :: 0 <= j < k ==> Decide(InIdOrder(req, j).value, w(j), caller, now).Ok?
    requires Decide(InIdOrder(req, k).value, w(k), caller, now).Err?
    ensures var d := Decide(InIdOrder(req, k).value, w(k), caller, now);
            Resolve(req, caller, cfg, p, w, now) == Err(d.code, d.requirement)
  {
    hide Valid, PolicyFilter, Gather, Decide, Sort;
    IdOrderFinds(req);
    var ids := Sort(Ids(req.requirements));
    forall j | 0 <= j < k ensures Given(ids, req.requirements, w, caller, now, j) { assert InIdOrder(req, j).Some?; }
    GatherFailsWithTheFirst(ids, req.requirements, w, caller, now, k);
  }

  function PinnedBy(item: Item): Pin {
    Pin(item.capability, item.capabilityRevision, item.binding, item.bindingRevision, item.provider, item.snapshotVersion, item.profile)
  }

  function AllPins(items: seq<Item>): multiset<Pin>
    decreases |items|
  {
    if items == [] then multiset{} else AllPins(items[..|items| - 1]) + multiset{PinnedBy(items[|items| - 1])}
  }

  lemma {:induction false} GatherPins(ids: seq<string>, rs: seq<Requirement>, w: nat -> Reading, caller: Caller, now: nat)
    requires Gather(ids, rs, w, caller, now).Ok?
    ensures var d := Gather(ids, rs, w, caller, now).value; d.pins == AllPins(d.items)
    decreases |ids|
  {
    hide Decide;
    if ids != [] {
      GatherPins(ids[..|ids| - 1], rs, w, caller, now);
      var d := Gather(ids, rs, w, caller, now).value;
      if Lookup(rs, ids[|ids| - 1]).Some? { assert d.items[..|d.items| - 1] == Gather(ids[..|ids| - 1], rs, w, caller, now).value.items; }
    }
  }

  /** The plan carries the caller, the task, the policy revision and the request's digest; its fingerprint covers the
      normalized request, that revision and what each item pins; and it lives as long as asked, or as configured,
      but no longer than the maximum. */
  lemma PlanCarries(req: Request, caller: Caller, cfg: Config, p: Policy, w: nat -> Reading, now: nat)
    requires Resolve(req, caller, cfg, p, w, now).Ok?
    ensures var plan := Resolve(req, caller, cfg, p, w, now).value;
            var asked := if req.options.maxPlanTTLSeconds > 0 then req.options.maxPlanTTLSeconds * 1000 else cfg.defaultTTL;
            && plan.caller == caller && plan.taskRef == req.taskRef && plan.digest == DigestOf(Normalize(req))
            && (p.Active? ==> plan.policySet == p.set_ && plan.policyVersion == p.version)
            && (!p.Active? ==> plan.policySet == "" && plan.policyVersion == 0)
            && plan.fingerprint == FingerprintOf(Normalize(req), AllPins(plan.items), plan.policySet, plan.policyVersion)
            && plan.createdAt == now
            && plan.expiresAt == now + if cfg.maxTTL > 0 && cfg.maxTTL < asked then cfg.maxTTL else asked
  {
    hide Valid, PolicyFilter, Gather, Normalize;
    GatherPins(Sort(Ids(req.requirements)), req.requirements, w, caller, now);
  }

  // ---- reordering ----

  lemma {:induction false} AllAllowed(p: Policy, rs: seq<Requirement>, caller: Caller)
    requires p.Active?
    ensures PolicyFilter(p, rs, caller).Ok? <==> forall i :: 0 <= i < |rs| ==> p.evaluate(InputOf(rs[i], caller)) == Allow
    decreases |rs|
  {
    if rs != [] {
      var n := |rs| - 1;
      AllAllowed(p, rs[..n], caller);
      if forall i :: 0 <= i < |rs| ==> p.evaluate(InputOf(rs[i], caller)) == Allow {
        forall i | 0 <= i < n ensures p.evaluate(InputOf(rs[..n][i], caller)) == Allow { assert rs[..n][i] == rs[i]; }
      }
      if forall i :: 0 <= i < n ==> p.evaluate(InputOf(rs[..n][i], caller)) == Allow {
        forall i | 0 <= i < n ensures p.evaluate(InputOf(rs[i], caller)) == Allow { assert rs[..n][i] == rs[i]; }
      }
    }
  }

  lemma PolicyIgnoresOrder(p: Policy, a: seq<Requirement>, b: seq<Requirement>, caller: Caller)
    requires multiset(a) == multiset(b) && PolicyFilter(p, a, caller).Ok?
    ensures PolicyFilter(p, b, caller).Ok?
  {
    if p.Active? {
      AllAllowed(p, a, caller);
      AllAllowed(p, b, caller);
      forall i | 0 <= i < |b| ensures p.evaluate(InputOf(b[i], caller)) == Allow {
        assert b[i] in multiset(a);
        var k :| 0 <= k < |a| && a[k] == b[i];
      }
    }
  }

  lemma {:induction false} GatherIgnoresOrder(ids: seq<string>, a: seq<Requirement>, b: seq<Requirement>, w: nat -> Reading,
                                              caller: Caller, now: nat)
    requires multiset(a) == multiset(b) && UniqueIds(a)
    ensures Gather(ids, a, w, caller, now) == Gather(ids, b, w, caller, now)
    decreases |ids|
  {
    hide Decide;
    if ids != [] {
      GatherIgnoresOrder(ids[..|ids| - 1], a, b, w, caller, now);
      ReorderedKeepsLookup(a, b, ids[|ids| - 1]);
    }
  }

  /** Reordering the requirements of a request that resolves gives the very same plan: the same items
      in the same order, the same fingerprint, the same digest. */
  lemma ReorderingChangesNothing(a: Request, b: Request, caller: Caller, cfg: Config, p: Policy, w: nat -> Reading, now: nat)
    requires Reordered(a, b) && Resolve(a, caller, cfg, p, w, now).Ok?
    ensures Resolve(b, caller, cfg, p, w, now) == Resolve(a, caller, cfg, p, w, now)
  {
    hide PolicyFilter, Gather, RequirementOk;
    ReorderedKeepsValid(a, b);
    PolicyIgnoresOrder(p, a.requirements, b.requirements, caller);
    ReorderedKeepsSortedIds(a.requirements, b.requirements);
    GatherIgnoresOrder(Sort(Ids(a.requirements)), a.requirements, b.requirements, w, caller, now);
    DigestIgnoresOrder(a, b);
  }

  // ---- ambiguity ----

  /** Live bindings restrict tenants and regions only. */
  ghost predicate TenantsAndRegionsOnly(rows: seq<B.Row>) {
    forall i :: 0 <= i < |rows| && B.Live(rows[i]) ==>
      rows[i].content.scope.factories == [] && rows[i].content.scope.agents == []
  }

  lemma TiedMatchesBreakTheSlot(w: Reading, capability: nat, caller: Caller, region: string, a: B.Row, b: B.Row)
    requires T.AllRanked(w.rows) && TenantsAndRegionsOnly(w.rows) && region != ""
    requires Tied(w, capability, caller, region, a, b)
    ensures !G.AllDisjoint(w.rows)
  {
    var i, j :| 0 <= i < |w.rows| && 0 <= j < |w.rows| && i != j && w.rows[i] == a && w.rows[j] == b;
    assert T.Ranked(a, b) && T.Ranked(b, a);
    assert G.Ambiguous(w.rows[i], w.rows[j], S.Query(caller.tenant, "", region, ""));
  }

  /** A requirement that names a region is never ambiguous over what any unbroken run of the binding
      store holds, as long as live bindings leave factories and agents open. */
  lemma NamedRegionsAreNeverAmbiguous(steps: seq<B.Step>, w: Reading, r: Requirement, caller: Caller, now: nat)
    requires G.Unbroken(B.START, steps) && w.rows == B.Run(B.START, steps).rows
    requires TenantsAndRegionsOnly(w.rows) && RegionOf(r) != ""
    ensures Decide(r, w, caller, now).Err? ==> Decide(r, w, caller, now).code != AMBIGUOUS_BINDING
  {
    hide Candidates, Tied, B.Run, T.TableOk, G.Unbroken, TenantsAndRegionsOnly;
    T.StartHolds();
    T.RunKeepsInv(B.START, steps);
    T.TableRanked(w.rows);
    G.NoRequestMatchesTwoLiveBindings(steps);
    if FindCapability(r, w).Ok? {
      var c := FindCapability(r, w).value.id;
      ChoiceFailsExactlyWhen(w, c, caller, RegionOf(r), r.id);
      forall a, b | Tied(w, c, caller, RegionOf(r), a, b) ensures false {
        TiedMatchesBreakTheSlot(w, c, caller, RegionOf(r), a, b);
      }
    }
  }

  lemma {:induction false} PolicyIsNeverAmbiguous(p: Policy, rs: seq<Requirement>, caller: Caller)
    ensures PolicyFilter(p, rs, caller).Err? ==> PolicyFilter(p, rs, caller).code != AMBIGUOUS_BINDING
    decreases |rs|
  {
    if rs != [] { PolicyIsNeverAmbiguous(p, rs[..|rs| - 1], caller); }
  }

  /** The k-th reading sees what an unbroken run of the store holds, with live bindings open in factories
      and agents. */
  ghost predicate Reads(w: nat -> Reading, runs: nat -> seq<B.Step>, n: nat) {
    forall k :: 0 <= k < n ==> ReadsRun(w(k), runs(k))
  }

  ghost predicate ReadsRun(w: Reading, steps: seq<B.Step>) {
    G.Unbroken(B.START, steps) && w.rows == B.Run(B.START, steps).rows && TenantsAndRegionsOnly(w.rows)
  }

  lemma {:induction false} GatherIsNeverAmbiguous(ids: seq<string>, rs: seq<Requirement>, w: nat -> Reading,
                                                  runs: nat -> seq<B.Step>, caller: Caller, now: nat)
    requires Reads(w, runs, |ids|) && forall i :: 0 <= i < |rs| ==> RegionOf(rs[i]) != ""
    ensures Gather(ids, rs, w, caller, now).Err? ==> Gather(ids, rs, w, caller, now).code != AMBIGUOUS_BINDING
    decreases |ids|
  {
    hide Decide, ReadsRun;
    if ids != [] {
      var n := |ids| - 1;
      GatherIsNeverAmbiguous(ids[..n], rs, w, runs, caller, now);
      LookupFinds(rs, ids[n]);
      if Lookup(rs, ids[n]).Some? {
        assert ReadsRun(w(n), runs(n));
        OneReadingIsNeverAmbiguous(w(n), runs(n), Lookup(rs, ids[n]).value, caller, now);
      }
    }
  }

  lemma OneReadingIsNeverAmbiguous(w: Reading, steps: seq<B.Step>, r: Requirement, caller: Caller, now: nat)
    requires ReadsRun(w, steps) && RegionOf(r) != ""
    ensures Decide(r, w, caller, now).Err? ==> Decide(r, w, caller, now).code != AMBIGUOUS_BINDING
  {
    NamedRegionsAreNeverAmbiguous(steps, w, r, caller, now);
  }

  /** Resolve never answers AMBIGUOUS_BINDING to a request all of whose requirements name a region, though
      each requirement is read from the store at a different moment. */
  lemma ResolveIsNeverAmbiguous(req: Request, caller: Caller, cfg: Config, p: Policy, w: nat -> Reading, now: nat,
                                runs: nat -> seq<B.Step>)
    requires Reads(w, runs, |req.requirements|)
    requires forall i :: 0 <= i < |req.requirements| ==> RegionOf(req.requirements[i]) != ""
    ensures Resolve(req, caller, cfg, p, w, now).Err? ==> Resolve(req, caller, cfg, p, w, now).code != AMBIGUOUS_BINDING
  {
    hide Valid, Gather, PolicyFilter, ReadsRun;
    var ids := Sort(Ids(req.requirements));
    SortOrders(Ids(req.requirements));
    assert |ids| == |multiset(ids)| == |req.requirements|;
    PolicyIsNeverAmbiguous(p, req.requirements, caller);
    GatherIsNeverAmbiguous(ids, req.requirements, w, runs, caller, now);
  }

  // ---- both hypotheses are needed ----

  const CALLER := Caller("c", "t", "production")

  /** Two bindings created and published one after the other. */
  function TwoPublished(a: S.Scope, b: S.Scope): seq<B.Step> {
    [B.Create("a", R.ContentOf(a), "actor")] + R.Publishing("a", a, 1)
    + [B.Create("b", R.ContentOf(b), "actor")] + R.Publishing("b", b, 2)
  }

  lemma TwoPublish(a: S.Scope, b: S.Scope)
    requires !S.Overlaps(b, a) && a != b
    ensures B.Run(B.START, TwoPublished(a, b)).rows
         == [R.DraftRow("a", a), R.LiveRow("a", a), R.DraftRow("b", b), R.LiveRow("b", b)]
  {
    hide B.Run, S.Overlaps, R.ContentOf;
    var s1 := B.Apply(B.START, B.Create("a", R.ContentOf(a), "actor"));
    assert s1.rows == [] + [R.DraftRow("a", a)] by { Creates(B.START, "a", a); }
    B.RunOne(B.START, B.Create("a", R.ContentOf(a), "actor"));
    R.DraftPublishes(s1, [], "a", a, 1);
    var s2 := B.Run(s1, R.Publishing("a", a, 1));
    var s3 := B.Apply(s2, B.Create("b", R.ContentOf(b), "actor"));
    Creates(s2, "b", b);
    B.RunOne(s2, B.Create("b", R.ContentOf(b), "actor"));
    Unopposed(a, b);
    R.DraftPublishes(s3, [R.DraftRow("a", a), R.LiveRow("a", a)], "b", b, 2);
    B.RunConcat(B.START, [B.Create("a", R.ContentOf(a), "actor")], R.Publishing("a", a, 1));
    B.RunConcat(B.START, [B.Create("a", R.ContentOf(a), "actor")] + R.Publishing("a", a, 1),
                [B.Create("b", R.ContentOf(b), "actor")]);
    B.RunConcat(B.START, [B.Create("a", R.ContentOf(a), "actor")] + R.Publishing("a", a, 1)
                         + [B.Create("b", R.ContentOf(b), "actor")], R.Publishing("b", b, 2));
  }

  lemma Creates(s: B.State, key: string, scope: S.Scope)
    requires key != "" && s.txs == map[] && forall i :: 0 <= i < |s.rows| ==> s.rows[i].key != key
    ensures var t := B.Apply(s, B.Create(key, R.ContentOf(scope), "actor"));
            t.rows == s.rows + [R.DraftRow(key, scope)] && t.txs == map[] && t.events == s.events
  {
  }

  lemma Unopposed(a: S.Scope, b: S.Scope)
    requires !S.Overlaps(b, a) && a != b
    ensures R.Strange([R.DraftRow("a", a), R.LiveRow("a", a)], "b", R.ContentOf(b))
  {
  }

  /** Runs without a Resume are unbroken. */
  lemma {:induction false} PublishingIsUnbroken(s: B.State, steps: seq<B.Step>)
    requires T.Inv(s) && G.AllHarmless(s.txs)
    requires forall i :: 0 <= i < |steps| ==> !steps[i].BeginResume?
    ensures G.Unbroken(s, steps)
  {
    PublishingIsInformed(s, steps);
    G.InformedRunsAreUnbroken(s, steps);
  }

  lemma {:induction false} PublishingIsInformed(s: B.State, steps: seq<B.Step>)
    requires forall i :: 0 <= i < |steps| ==> !steps[i].BeginResume?
    ensures G.AllInformed(s, steps)
    decreases steps
  {
    hide B.Apply;
    if steps != [] { PublishingIsInformed(B.Apply(s, steps[0]), steps[1..]); }
  }

  function ReadingOf(rows: seq<B.Row>): Reading {
    Reading(true, map[("cap", 1) := Capability(1, 1, Schema({}, map[]))], true, rows, map[1 := Provider("p", true)], map[],
            _ => Unreachable)
  }

  function Asking(region: string): Requirement {
    Requirement("r", "cap", 1, "MODEL_PROVIDER", if region == "" then map[] else map["region" := Str(region)])
  }

  lemma TwoMatchesAreAmbiguous(rows: seq<B.Row>, a: S.Scope, b: S.Scope, region: string, now: nat)
    requires rows == [R.DraftRow("a", a), R.LiveRow("a", a), R.DraftRow("b", b), R.LiveRow("b", b)]
    requires ScopeMatches(a, "t", region) && ScopeMatches(b, "t", region)
    ensures Decide(Asking(region), ReadingOf(rows), CALLER, now) == Err(AMBIGUOUS_BINDING, "r")
  {
    hide Candidates;
    var w := ReadingOf(rows);
    assert FindCapability(Asking(region), w) == Ok(Capability(1, 1, Schema({}, map[])));
    assert RegionOf(Asking(region)) == region;
    assert Both(rows, rows[1], rows[3]);
    assert Tied(w, 1, CALLER, region, rows[1], rows[3]);
    ChoiceFailsExactlyWhen(w, 1, CALLER, region, "r");
  }

  const EAST := S.Scope([], [], ["east"], [])
  const WEST := S.Scope([], [], ["west"], [])
  const PLANT1 := S.Scope([], ["f1"], [], [])
  const PLANT2 := S.Scope([], ["f2"], [], [])

  /** A reachable state of an unbroken run in which the hypotheses fail one at a time and a requirement is
      ambiguous: bindings split by region meet a request without one; bindings split by factory meet
      a request that names a region. */
  lemma BothHypothesesAreNeeded(now: nat)
    ensures var s := B.Run(B.START, TwoPublished(EAST, WEST));
            G.Unbroken(B.START, TwoPublished(EAST, WEST)) && TenantsAndRegionsOnly(s.rows)
            && Decide(Asking(""), ReadingOf(s.rows), CALLER, now) == Err(AMBIGUOUS_BINDING, "r")
    ensures var s := B.Run(B.START, TwoPublished(PLANT1, PLANT2));
            G.Unbroken(B.START, TwoPublished(PLANT1, PLANT2))
            && RegionOf(Asking("east")) != ""
            && Decide(Asking("east"), ReadingOf(s.rows), CALLER, now) == Err(AMBIGUOUS_BINDING, "r")
  {
    hide B.Run, Decide, G.Unbroken;
    T.StartHolds();
    PublishingIsUnbroken(B.START, TwoPublished(EAST, WEST));
    PublishingIsUnbroken(B.START, TwoPublished(PLANT1, PLANT2));
    TwoPublish(EAST, WEST);
    TwoPublish(PLANT1, PLANT2);
    TwoMatchesAreAmbiguous(B.Run(B.START, TwoPublished(EAST, WEST)).rows, EAST, WEST, "", now);
    TwoMatchesAreAmbiguous(B.Run(B.START, TwoPublished(PLANT1, PLANT2)).rows, PLANT1, PLANT2, "east", now);
  }
}

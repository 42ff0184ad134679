/** The snapshot cache (internal/resolver/cache.go): fast path, single flight per id, degraded reads,
    eviction.  Callers run concurrently; every section under the cache's mutex is one step, and the
    loader answers in a step of its own. */
module SnapshotCache {
  import opened Base

  datatype Snapshot = Snapshot(id: nat, version: nat, validUntil: nat)

  /** Gone is ErrSnapshotUnavailable, a verdict; Down is any other error, an outage. */
  datatype Answer = Loaded(snap: Snapshot) | Gone | Down

  datatype Entry = Entry(snap: Snapshot, loaded: nat, softEnd: nat, degraded: bool)

  /** A loader call in progress with the callers waiting for it. */
  datatype Flight = Flight(answer: Option<Answer>, waiting: set<nat>)

  datatype Kind = Memory | Degraded | Fresh

  datatype Event =
    | Answered(id: nat, answer: Answer)
    | Evicted(id: nat)
    | Served(id: nat, snap: Snapshot, kind: Kind, at: nat, loaded: nat)

  /** What a call of Get for id returned; no snapshot is an error. */
  datatype Reading = Reading(id: nat, snap: Option<Snapshot>)

  /** missed holds the callers past the fast path, not yet in a flight; readings what each caller's last
      call returned; trace is the history. */
  datatype State = State(now: nat, ttl: nat, entries: map<nat, Entry>, flights: map<nat, Flight>,
                         missed: map<nat, nat>, readings: map<nat, Reading>, trace: seq<Event>)

  datatype Step =
    | Tick(ms: nat)
    | Get(caller: nat, id: nat)
    | Enter(caller: nat)
    | Reply(id: nat, answer: Answer)
    | Finish(id: nat)

  function Start(ttl: nat): State { State(0, ttl, map[], map[], map[], map[], []) }

  predicate IsFresh(e: Entry, now: nat) { e.snap.validUntil > now && !e.degraded && now < e.softEnd }

  /** The fast path. */
  function Lookup(s: State, caller: nat, id: nat): State {
    if id in s.entries && IsFresh(s.entries[id], s.now) then
      s.(trace := s.trace + [Served(id, s.entries[id].snap, Memory, s.now, s.entries[id].loaded)],
         readings := s.readings[caller := Reading(id, Some(s.entries[id].snap))])
    else s.(missed := s.missed[caller := id], readings := s.readings - {caller})
  }

  /** singleflight.Do: join the id's flight or start it. */
  function Join(s: State, caller: nat): State
    requires caller in s.missed
  {
    var id := s.missed[caller];
    var f := if id in s.flights then s.flights[id] else Flight(None, {});
    s.(missed := s.missed - {caller}, flights := s.flights[id := f.(waiting := f.waiting + {caller})])
  }

  /** What the flight does with the loader's answer. */
  function Land(s: State, id: nat, answer: Answer): State {
    var t := s.(flights := s.flights - {id});
    match answer
    case Loaded(snap) =>
      t.(entries := t.entries[id := Entry(snap, s.now, s.now + s.ttl, false)],
         trace := t.trace + [Served(id, snap, Fresh, s.now, s.now)])
    case Gone => t.(entries := t.entries - {id}, trace := t.trace + [Evicted(id)])
    case Down =>
      if id in t.entries && t.entries[id].snap.validUntil > s.now then
        t.(entries := t.entries[id := t.entries[id].(degraded := true)],
           trace := t.trace + [Served(id, t.entries[id].snap, Degraded, s.now, t.entries[id].loaded)])
      else t
  }

  /** What the flight returns. */
  function ResultOf(s: State, id: nat, answer: Answer): Option<Snapshot> {
    match answer
    case Loaded(snap) => Some(snap)
    case Gone => None
    case Down => if id in s.entries && s.entries[id].snap.validUntil > s.now then Some(s.entries[id].snap) else None
  }

  /** Every waiting caller gets the flight's result. */
  function Deliver(readings: map<nat, Reading>, callers: set<nat>, r: Reading): map<nat, Reading> {
    map c | c in readings.Keys + callers :: if c in callers then r else readings[c]
  }

  function Conclude(s: State, id: nat): State
    requires id in s.flights && s.flights[id].answer.Some?
  {
    var f := s.flights[id];
    Land(s, id, f.answer.value).(readings :=
      Deliver(s.readings, f.waiting, Reading(id, ResultOf(s, id, f.answer.value))))
  }

  function Apply(s: State, step: Step): State {
    match step
    case Tick(ms) => s.(now := s.now + ms)
    case Get(caller, id) => if caller in s.missed then s else Lookup(s, caller, id)
    case Enter(caller) => if caller in s.missed then Join(s, caller) else s
    case Reply(id, answer) =>
      if id in s.flights && s.flights[id].answer == None
      then s.(flights := s.flights[id := s.flights[id].(answer := Some(answer))], trace := s.trace + [Answered(id, answer)])
      else s
    case Finish(id) =>
      if id in s.flights && s.flights[id].answer.Some? then Conclude(s, id) else s
  }

  function Run(s: State, steps: seq<Step>): State
    decreases steps
  {
    if steps == [] then s else Run(Apply(s, steps[0]), steps[1..])
  }

  lemma {:induction false} RunConcat(s: State, a: seq<Step>, b: seq<Step>)
    ensures Run(s, a + b) == Run(Run(s, a), b)
    decreases a
  {
    if a == [] {
      assert a + b == b;
    } else {
      assert (a + b)[0] == a[0] && (a + b)[1..] == a[1..] + b;
      RunConcat(Apply(s, a[0]), a[1..], b);
    }
  }

  lemma RunOne(s: State, step: Step)
    ensures Run(s, [step]) == Apply(s, step)
  {
    assert Run(Apply(s, step), [step][1..]) == Apply(s, step);
  }

  // ---- invariant ----

  predicate NotEvicted(trace: seq<Event>, from: nat, id: nat) {
    forall k :: from <= k < |trace| ==> trace[k] != Evicted(id)
  }

  ghost predicate BackedAt(trace: seq<Event>, j: nat, id: nat, snap: Snapshot) {
    j < |trace| && trace[j] == Answered(id, Loaded(snap)) && NotEvicted(trace, j, id)
  }

  /** The loader returned snap for id, and id was not evicted since. */
  ghost predicate Backed(trace: seq<Event>, id: nat, snap: Snapshot) { exists j :: BackedAt(trace, j, id, snap) }

  lemma BackedStays(trace: seq<Event>, e: Event, id: nat, snap: Snapshot)
    requires Backed(trace, id, snap) && e != Evicted(id)
    ensures Backed(trace + [e], id, snap)
  {
    var j :| BackedAt(trace, j, id, snap);
    assert BackedAt(trace + [e], j, id, snap);
  }

  ghost predicate LandedAt(trace: seq<Event>, j: nat, id: nat, snap: Snapshot, loaded: nat) {
    j < |trace| && trace[j] == Served(id, snap, Fresh, loaded, loaded) && NotEvicted(trace, j, id)
  }

  /** A flight stored snap for id at time loaded, serving it to its callers, and id was not evicted since. */
  ghost predicate Landed(trace: seq<Event>, id: nat, snap: Snapshot, loaded: nat) {
    exists j :: LandedAt(trace, j, id, snap, loaded)
  }

  lemma LandedStays(trace: seq<Event>, e: Event, id: nat, snap: Snapshot, loaded: nat)
    requires Landed(trace, id, snap, loaded) && e != Evicted(id)
    ensures Landed(trace + [e], id, snap, loaded)
  {
    var j :| LandedAt(trace, j, id, snap, loaded);
    assert LandedAt(trace + [e], j, id, snap, loaded);
  }

  ghost predicate EntryOk(id: nat, e: Entry, s: State) {
    && Backed(s.trace, id, e.snap) && Landed(s.trace, id, e.snap, e.loaded)
    && e.loaded <= s.now && e.softEnd == e.loaded + s.ttl
  }

  ghost predicate FlightOk(id: nat, f: Flight, trace: seq<Event>) {
    f.answer.Some? && f.answer.value.Loaded? ==> Backed(trace, id, f.answer.value.snap)
  }

  /** What a served snapshot owes its caller. */
  ghost predicate ServeOk(e: Event, before: seq<Event>, ttl: nat) {
    e.Served? ==>
      && Backed(before, e.id, e.snap)
      && (e.kind != Fresh ==> e.snap.validUntil > e.at)
      && (e.kind != Fresh ==> Landed(before, e.id, e.snap, e.loaded) && e.loaded <= e.at)
      && (e.kind == Memory ==> e.at < e.loaded + ttl)
  }

  ghost predicate TraceOk(trace: seq<Event>, ttl: nat) {
    forall k :: 0 <= k < |trace| ==> ServeOk(trace[k], trace[..k], ttl)
  }

  ghost predicate Inv(s: State) {
    && (forall id :: id in s.entries ==> EntryOk(id, s.entries[id], s))
    && (forall id :: id in s.flights ==> FlightOk(id, s.flights[id], s.trace))
    && TraceOk(s.trace, s.ttl)
  }

  lemma TraceGrows(trace: seq<Event>, e: Event, ttl: nat)
    requires TraceOk(trace, ttl) && ServeOk(e, trace, ttl)
    ensures TraceOk(trace + [e], ttl)
  {
    var t := trace + [e];
    forall k | 0 <= k < |t| ensures ServeOk(t[k], t[..k], ttl) {
      if k < |trace| { assert t[..k] == trace[..k]; } else { assert t[..k] == trace; }
    }
  }

  /** One more event that evicts nothing leaves what is backed backed. */
  lemma EventKeeps(s: State, e: Event)
    requires Inv(s) && !e.Evicted? && ServeOk(e, s.trace, s.ttl)
    ensures Inv(s.(trace := s.trace + [e]))
  {
    hide Backed, Landed, ServeOk;
    var t := s.(trace := s.trace + [e]);
    TraceGrows(s.trace, e, s.ttl);
    forall id | id in t.entries ensures EntryOk(id, t.entries[id], t) {
      assert EntryOk(id, s.entries[id], s);
      BackedStays(s.trace, e, id, s.entries[id].snap);
      LandedStays(s.trace, e, id, s.entries[id].snap, s.entries[id].loaded);
    }
    forall id | id in t.flights ensures FlightOk(id, t.flights[id], t.trace) {
      assert FlightOk(id, s.flights[id], s.trace);
      if s.flights[id].answer.Some? && s.flights[id].answer.value.Loaded? {
        BackedStays(s.trace, e, id, s.flights[id].answer.value.snap);
      }
    }
  }

  lemma ReplyKeepsInv(s: State, id: nat, answer: Answer)
    requires Inv(s)
    ensures Inv(Apply(s, Reply(id, answer)))
  {
    if id in s.flights && s.flights[id].answer == None {
      var m := s.(trace := s.trace + [Answered(id, answer)]);
      EventKeeps(s, Answered(id, answer));
      var t := Apply(s, Reply(id, answer));
      if answer.Loaded? { assert BackedAt(m.trace, |s.trace|, id, answer.snap); }
      forall i | i in t.entries ensures EntryOk(i, t.entries[i], t) { assert EntryOk(i, m.entries[i], m); }
      forall i | i in t.flights ensures FlightOk(i, t.flights[i], t.trace) {
        assert i in m.flights && FlightOk(i, m.flights[i], m.trace);
      }
    }
  }

  lemma EvictionKeepsInv(s: State, id: nat)
    requires Inv(s)
    ensures Inv(Land(s, id, Gone))
  {
    var t := Land(s, id, Gone);
    TraceGrows(s.trace, Evicted(id), s.ttl);
    forall i | i in t.entries ensures EntryOk(i, t.entries[i], t) {
      assert EntryOk(i, s.entries[i], s);
      BackedStays(s.trace, Evicted(id), i, s.entries[i].snap);
      LandedStays(s.trace, Evicted(id), i, s.entries[i].snap, s.entries[i].loaded);
    }
    forall i | i in t.flights ensures FlightOk(i, t.flights[i], t.trace) {
      assert FlightOk(i, s.flights[i], s.trace);
      if s.flights[i].answer.Some? && s.flights[i].answer.value.Loaded? {
        BackedStays(s.trace, Evicted(id), i, s.flights[i].answer.value.snap);
      }
    }
  }

  /** Replacing one entry by a backed one and closing a flight. */
  lemma EntryWriteKeepsInv(s: State, id: nat, e: Entry)
    requires Inv(s) && EntryOk(id, e, s)
    ensures Inv(s.(entries := s.entries[id := e], flights := s.flights - {id}))
  {
    var t := s.(entries := s.entries[id := e], flights := s.flights - {id});
    forall i | i in t.entries ensures EntryOk(i, t.entries[i], t) { assert EntryOk(i, if i == id then e else s.entries[i], s); }
  }

  lemma LoadedKeepsInv(s: State, id: nat, snap: Snapshot)
    requires Inv(s) && Backed(s.trace, id, snap)
    ensures Inv(Land(s, id, Loaded(snap)))
  {
    hide Backed, TraceOk;
    var serve := Served(id, snap, Fresh, s.now, s.now);
    EventKeeps(s, serve);
    BackedStays(s.trace, serve, id, snap);
    assert LandedAt(s.trace + [serve], |s.trace|, id, snap, s.now);
    EntryWriteKeepsInv(s.(trace := s.trace + [serve]), id, Entry(snap, s.now, s.now + s.ttl, false));
  }

  lemma DegradedKeepsInv(s: State, id: nat)
    requires Inv(s) && id in s.entries && s.entries[id].snap.validUntil > s.now
    ensures Inv(Land(s, id, Down))
  {
    hide Backed, Landed, TraceOk;
    var e := s.entries[id].(degraded := true);
    assert EntryOk(id, s.entries[id], s);
    EntryWriteKeepsInv(s, id, e);
    EventKeeps(s.(entries := s.entries[id := e], flights := s.flights - {id}), Served(id, e.snap, Degraded, s.now, e.loaded));
  }

  lemma ReadingsDoNotMatter(s: State, readings: map<nat, Reading>)
    requires Inv(s)
    ensures Inv(s.(readings := readings))
  {
    hide Backed, Landed, TraceOk;
    var t := s.(readings := readings);
    forall id | id in t.entries ensures EntryOk(id, t.entries[id], t) { assert EntryOk(id, s.entries[id], s); }
  }

  lemma LandKeepsInv(s: State, id: nat, answer: Answer)
    requires Inv(s) && (answer.Loaded? ==> Backed(s.trace, id, answer.snap))
    ensures Inv(Land(s, id, answer))
  {
    hide Backed, TraceOk, EntryOk;
    match answer {
      case Loaded(snap) => LoadedKeepsInv(s, id, snap);
      case Gone => EvictionKeepsInv(s, id);
      case Down => if id in s.entries && s.entries[id].snap.validUntil > s.now { DegradedKeepsInv(s, id); } else { DropKeepsInv(s, id); }
    }
  }

  lemma FinishKeepsInv(s: State, id: nat)
    requires Inv(s)
    ensures Inv(Apply(s, Finish(id)))
  {
    hide Inv, Land, Deliver;
    if id in s.flights && s.flights[id].answer.Some? {
      var answer := s.flights[id].answer.value;
      assert FlightOk(id, s.flights[id], s.trace) by { FlightsAreOk(s, id); }
      LandKeepsInv(s, id, answer);
      ReadingsDoNotMatter(Land(s, id, answer), Apply(s, Finish(id)).readings);
    }
  }

  lemma FlightsAreOk(s: State, id: nat)
    requires Inv(s) && id in s.flights
    ensures FlightOk(id, s.flights[id], s.trace)
  {
  }

  lemma DropKeepsInv(s: State, id: nat)
    requires Inv(s)
    ensures Inv(s.(flights := s.flights - {id}))
  {
    hide Backed, Landed, TraceOk;
    var t := s.(flights := s.flights - {id});
    forall i | i in t.entries ensures EntryOk(i, t.entries[i], t) { assert EntryOk(i, s.entries[i], s); }
  }

  lemma GetKeepsInv(s: State, caller: nat, id: nat)
    requires Inv(s)
    ensures Inv(Apply(s, Get(caller, id)))
  {
    hide Backed, Landed, TraceOk;
    var t := Apply(s, Get(caller, id));
    if caller !in s.missed && id in s.entries && IsFresh(s.entries[id], s.now) {
      var e := Served(id, s.entries[id].snap, Memory, s.now, s.entries[id].loaded);
      assert EntryOk(id, s.entries[id], s);
      EventKeeps(s, e);
      ReadingsDoNotMatter(s.(trace := s.trace + [e]), t.readings);
    } else {
      forall i | i in t.entries ensures EntryOk(i, t.entries[i], t) { assert EntryOk(i, s.entries[i], s); }
    }
  }

  lemma EnterKeepsInv(s: State, caller: nat)
    requires Inv(s)
    ensures Inv(Apply(s, Enter(caller)))
  {
    hide Backed, Landed, TraceOk;
    var t := Apply(s, Enter(caller));
    forall i | i in t.entries ensures EntryOk(i, t.entries[i], t) { assert EntryOk(i, s.entries[i], s); }
    forall i | i in t.flights ensures FlightOk(i, t.flights[i], t.trace) {
      if i in s.flights { assert FlightOk(i, s.flights[i], s.trace); }
    }
  }

  lemma TickKeepsInv(s: State, ms: nat)
    requires Inv(s)
    ensures Inv(Apply(s, Tick(ms)))
  {
    hide Backed, Landed, TraceOk;
    var t := Apply(s, Tick(ms));
    forall i | i in t.entries ensures EntryOk(i, t.entries[i], t) { assert EntryOk(i, s.entries[i], s); }
  }

  lemma TraceExtends(s: State, step: Step)
    ensures Apply(s, step).ttl == s.ttl && s.trace <= Apply(s, step).trace
  {
  }

  lemma StepKeepsInv(s: State, step: Step)
    requires Inv(s)
    ensures Inv(Apply(s, step)) && Apply(s, step).ttl == s.ttl && s.trace <= Apply(s, step).trace
  {
    hide Inv, Apply;
    TraceExtends(s, step);
    match step {
      case Tick(ms) => TickKeepsInv(s, ms);
      case Get(caller, id) => GetKeepsInv(s, caller, id);
      case Enter(caller) => EnterKeepsInv(s, caller);
      case Reply(id, answer) => ReplyKeepsInv(s, id, answer);
      case Finish(id) => FinishKeepsInv(s, id);
    }
  }

  lemma {:induction false} RunKeepsInv(s: State, steps: seq<Step>)
    requires Inv(s)
    ensures Inv(Run(s, steps)) && Run(s, steps).ttl == s.ttl
    decreases steps
  {
    hide Inv, Apply;
    if steps != [] {
      StepKeepsInv(s, steps[0]);
      RunKeepsInv(Apply(s, steps[0]), steps[1..]);
    }
  }

  /** Over every run, with the loader failing, recovering and revoking: whatever is served for an id was
      returned by the loader for that id, with no eviction of the id in between; memory and degraded
      serves are unexpired and were stored by an earlier flight at their loading time, again with no
      eviction in between; a memory serve was stored less than the refresh interval ago. */
  lemma EveryServeIsJustified(ttl: nat, steps: seq<Step>, k: nat)
    requires var trace := Run(Start(ttl), steps).trace; k < |trace| && trace[k].Served?
    ensures var trace := Run(Start(ttl), steps).trace;
            && (exists j :: 0 <= j < k && trace[j] == Answered(trace[k].id, Loaded(trace[k].snap))
                            && forall m :: j <= m < k ==> trace[m] != Evicted(trace[k].id))
            && (trace[k].kind != Fresh ==> trace[k].snap.validUntil > trace[k].at)
            && (trace[k].kind != Fresh ==>
                  trace[k].loaded <= trace[k].at
                  && exists j :: 0 <= j < k && trace[j] == Served(trace[k].id, trace[k].snap, Fresh, trace[k].loaded, trace[k].loaded)
                                 && forall m :: j <= m < k ==> trace[m] != Evicted(trace[k].id))
            && (trace[k].kind == Memory ==> trace[k].at < trace[k].loaded + ttl)
  {
    RunKeepsInv(Start(ttl), steps);
    var trace := Run(Start(ttl), steps).trace;
    var before := trace[..k];
    assert ServeOk(trace[k], before, ttl);
    var j: nat :| BackedAt(before, j, trace[k].id, trace[k].snap);
    assert trace[j] == before[j];
    forall m | j <= m < k ensures trace[m] != Evicted(trace[k].id) { assert trace[m] == before[m]; }
    if trace[k].kind != Fresh {
      var i: nat :| LandedAt(before, i, trace[k].id, trace[k].snap, trace[k].loaded);
      assert trace[i] == before[i];
      forall m | i <= m < k ensures trace[m] != Evicted(trace[k].id) { assert trace[m] == before[m]; }
    }
  }

  /** The loader does not return a snapshot for id along these steps. */
  ghost predicate NotReloaded(steps: seq<Step>, id: nat) {
    forall i, snap :: 0 <= i < |steps| ==> steps[i] != Reply(id, Loaded(snap))
  }

  /** No event from position n on serves id. */
  ghost predicate NotServed(trace: seq<Event>, n: nat, id: nat) {
    forall k :: n <= k < |trace| ==> !(trace[k].Served? && trace[k].id == id)
  }

  ghost predicate Absent(s: State, id: nat) {
    id !in s.entries && (id in s.flights ==> s.flights[id].answer.None? || !s.flights[id].answer.value.Loaded?)
  }

  lemma AbsentStep(s: State, id: nat, step: Step)
    requires Absent(s, id) && (step.Reply? && step.id == id ==> !step.answer.Loaded?)
    ensures var t := Apply(s, step); Absent(t, id) && s.trace <= t.trace && NotServed(t.trace, |s.trace|, id)
  {
  }

  lemma {:induction false} AbsentStaysAbsent(s: State, id: nat, steps: seq<Step>)
    requires Absent(s, id) && NotReloaded(steps, id)
    ensures s.trace <= Run(s, steps).trace && NotServed(Run(s, steps).trace, |s.trace|, id)
    decreases steps
  {
    hide Apply;
    if steps != [] {
      var t := Apply(s, steps[0]);
      AbsentStep(s, id, steps[0]);
      forall i, snap | 0 <= i < |steps[1..]| ensures steps[1..][i] != Reply(id, Loaded(snap)) {
        assert steps[1..][i] == steps[i + 1];
      }
      AbsentStaysAbsent(t, id, steps[1..]);
    }
  }

  /** When the loader's verdict that the snapshot is gone lands, nothing is served for the id any more, by any
      interleaving, until the loader has returned a snapshot for it again; the landing itself serves nothing. */
  lemma GoneStaysGone(s: State, id: nat, steps: seq<Step>)
    requires id in s.flights && s.flights[id].answer == Some(Gone) && NotReloaded(steps, id)
    ensures NotServed(Run(s, [Finish(id)] + steps).trace, |s.trace|, id)
  {
    var t := Apply(s, Finish(id));
    assert ([Finish(id)] + steps)[1..] == steps;
    AbsentStaysAbsent(t, id, steps);
    assert t.trace == s.trace + [Evicted(id)];
    forall k | |s.trace| <= k < |Run(t, steps).trace|
      ensures !(Run(t, steps).trace[k].Served? && Run(t, steps).trace[k].id == id)
    {
      if k == |s.trace| { assert Run(t, steps).trace[k] == t.trace[k]; }
    }
  }

  // ---- what one call returns ----

  function GetTrace(caller: nat, id: nat, answer: Answer, g1: seq<Step>, g2: seq<Step>, g3: seq<Step>): seq<Step> {
    [Get(caller, id)] + g1 + ([Enter(caller)] + g2) + ([Reply(id, answer)] + g3) + [Finish(id)]
  }

  predicate Awaits(s: State, caller: nat, id: nat) { id in s.flights && caller in s.flights[id].waiting }

  /** The caller is in no flight but perhaps id's. */
  ghost predicate OnlyIn(s: State, caller: nat, id: nat) {
    forall i :: i in s.flights && i != id ==> caller !in s.flights[i].waiting
  }

  ghost predicate Idle(s: State, caller: nat) {
    caller !in s.missed && forall i :: i in s.flights ==> caller !in s.flights[i].waiting
  }

  /** snap was served for id at or after position n of the history. */
  ghost predicate ServedSince(trace: seq<Event>, n: nat, id: nat, snap: Snapshot) {
    exists k :: n <= k < |trace| && IsServe(trace[k], id, snap)
  }

  predicate IsServe(e: Event, id: nat, snap: Snapshot) { e.Served? && e.id == id && e.snap == snap }

  ghost predicate Missed(s: State, caller: nat, id: nat) {
    caller in s.missed && s.missed[caller] == id && !Awaits(s, caller, id) && OnlyIn(s, caller, id)
  }

  ghost predicate Waits(s: State, caller: nat, id: nat) {
    caller !in s.missed && Awaits(s, caller, id) && OnlyIn(s, caller, id)
  }

  /** The call is over: it returned a snapshot served for id since position n, or an error. */
  ghost predicate Answers(s: State, caller: nat, id: nat, n: nat) {
    && Idle(s, caller) && caller in s.readings && s.readings[caller].id == id
    && (s.readings[caller].snap.Some? ==> ServedSince(s.trace, n, id, s.readings[caller].snap.value))
  }

  /** The caller itself is busy with its call. */
  predicate NotBy(step: Step, caller: nat) { !(step.Get? && step.caller == caller) && !(step.Enter? && step.caller == caller) }

  predicate NoneBy(gap: seq<Step>, caller: nat) { forall i :: 0 <= i < |gap| ==> NotBy(gap[i], caller) }

  lemma ServedLater(a: seq<Event>, b: seq<Event>, n: nat, id: nat, snap: Snapshot)
    requires a <= b && ServedSince(a, n, id, snap)
    ensures ServedSince(b, n, id, snap)
  {
    var k :| n <= k < |a| && IsServe(a[k], id, snap);
    assert b[k] == a[k];
  }

  lemma ConcludeAnswers(s: State, caller: nat, id: nat, n: nat)
    requires Waits(s, caller, id) && s.flights[id].answer.Some? && n <= |s.trace|
    ensures Answers(Apply(s, Finish(id)), caller, id, n)
  {
    var t := Apply(s, Finish(id));
    if t.readings[caller].snap.Some? {
      assert |t.trace| == |s.trace| + 1 && IsServe(t.trace[|s.trace|], id, t.readings[caller].snap.value);
    }
  }

  lemma AnswersStay(s: State, caller: nat, id: nat, n: nat, step: Step)
    requires Answers(s, caller, id, n) && NotBy(step, caller)
    ensures Answers(Apply(s, step), caller, id, n)
  {
    hide ServedSince, Land;
    var t := Apply(s, step);
    TraceExtends(s, step);
    IdleStays(s, caller, step);
    assert t.readings[caller] == s.readings[caller];
    if s.readings[caller].snap.Some? { ServedLater(s.trace, t.trace, n, id, s.readings[caller].snap.value); }
  }

  lemma IdleStays(s: State, caller: nat, step: Step)
    requires Idle(s, caller) && NotBy(step, caller)
    ensures Idle(Apply(s, step), caller)
  {
  }

  /** Past the fast path the caller stays where it is until its own next step. */
  lemma MissedStays(s: State, caller: nat, id: nat, step: Step)
    requires Missed(s, caller, id) && NotBy(step, caller)
    ensures Missed(Apply(s, step), caller, id)
  {
  }

  /** A waiting caller goes on waiting, its flight's answer standing, or its flight lands. */
  lemma WaitsOrAnswers(s: State, caller: nat, id: nat, n: nat, step: Step)
    requires Waits(s, caller, id) && NotBy(step, caller) && n <= |s.trace|
    ensures var t := Apply(s, step);
            Answers(t, caller, id, n)
            || (Waits(t, caller, id) && (s.flights[id].answer.Some? ==> t.flights[id].answer == s.flights[id].answer))
  {
    if step == Finish(id) && s.flights[id].answer.Some? { ConcludeAnswers(s, caller, id, n); }
  }

  lemma {:induction false} MissedOverGap(s: State, caller: nat, id: nat, gap: seq<Step>)
    requires Missed(s, caller, id) && NoneBy(gap, caller)
    ensures Missed(Run(s, gap), caller, id) && s.trace <= Run(s, gap).trace
    decreases gap
  {
    hide Apply, Missed, NotBy;
    if gap != [] {
      MissedStays(s, caller, id, gap[0]);
      TraceExtends(s, gap[0]);
      MissedOverGap(Apply(s, gap[0]), caller, id, gap[1..]);
    }
  }

  lemma {:induction false} AnswersOverGap(s: State, caller: nat, id: nat, n: nat, gap: seq<Step>)
    requires Answers(s, caller, id, n) && NoneBy(gap, caller)
    ensures Answers(Run(s, gap), caller, id, n)
    decreases gap
  {
    hide Apply, Answers, NotBy;
    if gap != [] {
      AnswersStay(s, caller, id, n, gap[0]);
      AnswersOverGap(Apply(s, gap[0]), caller, id, n, gap[1..]);
    }
  }

  lemma {:induction false} WaitsOverGap(s: State, caller: nat, id: nat, n: nat, gap: seq<Step>)
    requires Waits(s, caller, id) && NoneBy(gap, caller) && n <= |s.trace|
    ensures var t := Run(s, gap);
            Answers(t, caller, id, n)
            || (Waits(t, caller, id) && n <= |t.trace|
                && (s.flights[id].answer.Some? ==> t.flights[id].answer == s.flights[id].answer))
    decreases gap
  {
    hide Apply, Answers, OnlyIn, NotBy;
    if gap != [] {
      var m := Apply(s, gap[0]);
      WaitsOrAnswers(s, caller, id, n, gap[0]);
      TraceExtends(s, gap[0]);
      if Answers(m, caller, id, n) { AnswersOverGap(m, caller, id, n, gap[1..]); } else { WaitsOverGap(m, caller, id, n, gap[1..]); }
    }
  }

  lemma LookAnswersOrMisses(s: State, caller: nat, id: nat)
    requires Idle(s, caller)
    ensures var t := Apply(s, Get(caller, id));
            s.trace <= t.trace
            && if id in s.entries && IsFresh(s.entries[id], s.now) then Answers(t, caller, id, |s.trace|) else Missed(t, caller, id)
  {
    var t := Apply(s, Get(caller, id));
    if id in s.entries && IsFresh(s.entries[id], s.now) {
      assert IsServe(t.trace[|s.trace|], id, t.readings[caller].snap.value);
    }
  }

  lemma MissedEnters(s: State, caller: nat, id: nat)
    requires Missed(s, caller, id)
    ensures Waits(Apply(s, Enter(caller)), caller, id) && Apply(s, Enter(caller)).trace == s.trace
  {
  }

  lemma ReplyArrives(s: State, caller: nat, id: nat, answer: Answer)
    requires Waits(s, caller, id)
    ensures var t := Apply(s, Reply(id, answer)); Waits(t, caller, id) && t.flights[id].answer.Some? && s.trace <= t.trace
  {
  }

  /** What is left of a call that entered its flight: the loader's answer, others, the landing. */
  lemma FlightAnswers(s: State, caller: nat, id: nat, n: nat, answer: Answer, g2: seq<Step>, g3: seq<Step>)
    requires Waits(s, caller, id) && NoneBy(g2, caller) && NoneBy(g3, caller) && n <= |s.trace|
    ensures Answers(Apply(Run(Apply(Run(s, g2), Reply(id, answer)), g3), Finish(id)), caller, id, n)
  {
    hide Apply, Run, Answers, OnlyIn, NoneBy;
    WaitsOverGap(s, caller, id, n, g2);
    var a := Run(s, g2);
    var b := Apply(a, Reply(id, answer));
    assert NotBy(Reply(id, answer), caller) && NotBy(Finish(id), caller);
    if Answers(a, caller, id, n) {
      AnswersStay(a, caller, id, n, Reply(id, answer));
      AnswersOverGap(b, caller, id, n, g3);
      AnswersStay(Run(b, g3), caller, id, n, Finish(id));
    } else {
      ReplyArrives(a, caller, id, answer);
      WaitsOverGap(b, caller, id, n, g3);
      var d := Run(b, g3);
      if Answers(d, caller, id, n) { AnswersStay(d, caller, id, n, Finish(id)); } else { ConcludeAnswers(d, caller, id, n); }
    }
  }

  lemma GetTraceUnfolds(s: State, caller: nat, id: nat, answer: Answer, g1: seq<Step>, g2: seq<Step>, g3: seq<Step>)
    ensures Run(s, GetTrace(caller, id, answer, g1, g2, g3))
         == Apply(Run(Apply(Run(Apply(Run(Apply(s, Get(caller, id)), g1), Enter(caller)), g2), Reply(id, answer)), g3), Finish(id))
  {
    hide Apply, Run;
    var a := [Get(caller, id)] + g1;
    var b := a + ([Enter(caller)] + g2);
    var d := b + ([Reply(id, answer)] + g3);
    RunConcat(s, [Get(caller, id)], g1);
    RunOne(s, Get(caller, id));
    Extend(s, a, Enter(caller), g2);
    Extend(s, b, Reply(id, answer), g3);
    RunConcat(s, d, [Finish(id)]);
    RunOne(Run(s, d), Finish(id));
  }

  /** What one call of Get does, others running in between. */
  function CallTrace(s: State, caller: nat, id: nat, answer: Answer, g1: seq<Step>, g2: seq<Step>, g3: seq<Step>): seq<Step> {
    if id in s.entries && IsFresh(s.entries[id], s.now) then [Get(caller, id)] else GetTrace(caller, id, answer, g1, g2, g3)
  }

  /** Whatever else runs in between, a call ends with an error or with a snapshot that was served for its id
      during the call. */
  lemma EveryCallIsAnswered(s: State, caller: nat, id: nat, answer: Answer, g1: seq<Step>, g2: seq<Step>, g3: seq<Step>)
    requires Idle(s, caller) && NoneBy(g1, caller) && NoneBy(g2, caller) && NoneBy(g3, caller)
    ensures Answers(Run(s, CallTrace(s, caller, id, answer, g1, g2, g3)), caller, id, |s.trace|)
  {
    hide Apply, Run, Idle, Missed, Waits, Answers, NoneBy, IsFresh;
    var a := Apply(s, Get(caller, id));
    LookAnswersOrMisses(s, caller, id);
    RunOne(s, Get(caller, id));
    if id in s.entries && IsFresh(s.entries[id], s.now) { return; }
    MissedOverGap(a, caller, id, g1);
    var b := Run(a, g1);
    MissedEnters(b, caller, id);
    FlightAnswers(Apply(b, Enter(caller)), caller, id, |s.trace|, answer, g2, g3);
    GetTraceUnfolds(s, caller, id, answer, g1, g2, g3);
  }

  // ---- the code ----

  class Cache {
    const ttl: nat
    var now: nat
    var entries: map<nat, Entry>
    var flights: map<nat, Flight>   // the single-flight group
    var missed: map<nat, nat>       // callers between the fast path and the group
    var readings: map<nat, Reading> // what the callers' last calls returned
    ghost var trace: seq<Event>

    ghost function Model(): State
      reads this
    {
      State(now, ttl, entries, flights, missed, readings, trace)
    }

    constructor (refreshTTL: nat)
      ensures Model() == Start(refreshTTL)
    {
      ttl := refreshTTL;
      now, entries, flights, missed, readings, trace := 0, map[], map[], map[], map[], [];
    }

    /** The fast path under the read lock. */
    method Look(caller: nat, id: nat) returns (hit: Option<Snapshot>)
      requires caller !in missed
      modifies this`missed, this`readings, this`trace
      ensures Model() == Apply(old(Model()), Step.Get(caller, id))
      ensures hit.Some? <==> id in entries && IsFresh(entries[id], now)
      ensures hit.Some? ==> hit.value == entries[id].snap && ReadingOf(Model(), caller) == hit
    {
      if id in entries {
        var e := entries[id];
        if e.snap.validUntil > now && !e.degraded && now < e.softEnd {
          trace := trace + [Served(id, e.snap, Memory, now, e.loaded)];
          readings := readings[caller := Reading(id, Some(e.snap))];
          return Some(e.snap);
        }
      }
      missed := missed[caller := id];
      readings := readings - {caller};
      return None;
    }

    method Enter(caller: nat)
      modifies this`missed, this`flights
      ensures Model() == Apply(old(Model()), Step.Enter(caller))
    {
      if caller !in missed { return; }
      var id := missed[caller];
      missed := missed - {caller};
      if id in flights {
        flights := flights[id := flights[id].(waiting := flights[id].waiting + {caller})];
      } else {
        flights := flights[id := Flight(None, {caller})];
        assert {} + {caller} == {caller};
      }
    }

    method Reply(id: nat, answer: Answer)
      modifies this`flights, this`trace
      ensures Model() == Apply(old(Model()), Step.Reply(id, answer))
    {
      if id in flights && flights[id].answer == None {
        flights := flights[id := flights[id].(answer := Some(answer))];
        trace := trace + [Answered(id, answer)];
      }
    }

    /** The loader's answer, used under the lock: evict on a verdict, serve degraded on an outage, store a
        loaded snapshot. */
    method Use(id: nat, answer: Answer) returns (result: Option<Snapshot>)
      modifies this`entries, this`flights, this`trace
      ensures Model() == Land(old(Model()), id, answer) && result == ResultOf(old(Model()), id, answer)
    {
      flights := flights - {id};
      match answer
      case Loaded(snap) =>
        entries := entries[id := Entry(snap, now, now + ttl, false)];
        trace := trace + [Served(id, snap, Fresh, now, now)];
        return Some(snap);
      case Gone =>
        entries := entries - {id};
        trace := trace + [Evicted(id)];
        return None;
      case Down =>
        if id in entries && entries[id].snap.validUntil > now {
          var e := entries[id];
          entries := entries[id := e.(degraded := true)];
          trace := trace + [Served(id, e.snap, Degraded, now, e.loaded)];
          return Some(e.snap);
        }
        return None;
    }

    /** The flight's end: its result goes to every waiting caller. */
    method Finish(id: nat)
      modifies this`entries, this`flights, this`readings, this`trace
      ensures Model() == Apply(old(Model()), Step.Finish(id))
    {
      if id !in flights || flights[id].answer == None { return; }
      var f := flights[id];
      var result := Use(id, f.answer.value);
      readings := Deliver(readings, f.waiting, Reading(id, result));
    }

    method Do(step: Step)
      modifies this
      ensures Model() == Apply(old(Model()), step)
    {
      match step
      case Tick(ms) => now := now + ms;
      case Get(caller, id) => if caller !in missed { var _ := Look(caller, id); }
      case Enter(caller) => Enter(caller);
      case Reply(id, answer) => Reply(id, answer);
      case Finish(id) => Finish(id);
    }

    /** What other callers, other loads and the clock do meanwhile. */
    method Others(gap: seq<Step>)
      modifies this
      ensures Model() == Run(old(Model()), gap)
    {
      hide Apply;
      ghost var start := Model();
      for i := 0 to |gap|
        invariant Model() == Run(start, gap[..i])
      {
        assert gap[..i + 1] == gap[..i] + [gap[i]];
        RunConcat(start, gap[..i], [gap[i]]);
        RunOne(Run(start, gap[..i]), gap[i]);
        Do(gap[i]);
      }
      assert gap[..|gap|] == gap;
    }

    /** Get: the fast path, or the flight with the loader's answer, others running in between. */
    method Get(caller: nat, id: nat, answer: Answer, g1: seq<Step>, g2: seq<Step>, g3: seq<Step>)
        returns (served: Option<Snapshot>)
      requires caller !in missed
      modifies this
      ensures Model() == Run(old(Model()), CallTrace(old(Model()), caller, id, answer, g1, g2, g3))
      ensures served == ReadingOf(Model(), caller)
    {
      hide Apply, Run;
      ghost var s := Model();
      RunOne(s, Step.Get(caller, id));
      served := Look(caller, id);
      if served.Some? { return; }
      Others(g1);
      RunConcat(s, [Step.Get(caller, id)], g1);
      ghost var a := [Step.Get(caller, id)] + g1;
      Enter(caller);
      Others(g2);
      Extend(s, a, Step.Enter(caller), g2);
      ghost var b := a + ([Step.Enter(caller)] + g2);
      Reply(id, answer);
      Others(g3);
      Extend(s, b, Step.Reply(id, answer), g3);
      ghost var c := b + ([Step.Reply(id, answer)] + g3);
      Finish(id);
      served := if caller in readings then readings[caller].snap else None;
      RunConcat(s, c, [Step.Finish(id)]);
      RunOne(Run(s, c), Step.Finish(id));
    }
  }

  function ReadingOf(s: State, caller: nat): Option<Snapshot> {
    if caller in s.readings then s.readings[caller].snap else None
  }

  lemma Extend(s: State, done: seq<Step>, step: Step, gap: seq<Step>)
    ensures Run(Apply(Run(s, done), step), gap) == Run(s, done + ([step] + gap))
  {
    RunConcat(s, done, [step] + gap);
    RunConcat(Run(s, done), [step], gap);
    RunOne(Run(s, done), step);
  }
}

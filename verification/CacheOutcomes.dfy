/** When the snapshot cache answers from memory, from a flight, from an old entry, or with an error. */
module CacheOutcomes {
  import opened Base
  import opened SnapshotCache

  /** A snapshot is answered from memory exactly when there is an unexpired entry, its refresh is not due, and no
      refresh has failed since; any other call goes on to the flight. */
  lemma LookExactly(s: State, caller: nat, id: nat)
    requires Inv(s) && caller !in s.missed
    ensures var t := Apply(s, Get(caller, id));
            var hit := id in s.entries && s.now < s.entries[id].snap.validUntil && !s.entries[id].degraded
                         && s.now < s.entries[id].loaded + s.ttl;
            if hit then t == s.(readings := s.readings[caller := Reading(id, Some(s.entries[id].snap))],
                                  trace := s.trace + [Served(id, s.entries[id].snap, Memory, s.now, s.entries[id].loaded)])
            else t == s.(missed := s.missed[caller := id], readings := s.readings - {caller})
  {
    if id in s.entries { assert EntryOk(id, s.entries[id], s); }
  }

  /** Every waiting caller, and nobody else, gets this answer. */
  ghost predicate Delivers(s: State, t: State, id: nat, snap: Option<Snapshot>)
    requires id in s.flights
  {
    && t.flights == s.flights - {id} && t.missed == s.missed
    && (forall c :: c in s.flights[id].waiting ==> c in t.readings && t.readings[c] == Reading(id, snap))
    && (forall c :: c !in s.flights[id].waiting ==> (c in t.readings <==> c in s.readings))
    && (forall c :: c in t.readings && c !in s.flights[id].waiting ==> t.readings[c] == s.readings[c])
  }

  /** There is an entry to fall back on. */
  predicate Usable(s: State, id: nat) { id in s.entries && s.now < s.entries[id].snap.validUntil }

  /** A loaded snapshot becomes the entry and the answer; a gone one is forgotten and the answer is an error; an outage
      is answered with the unexpired entry, which from then on is marked, and with an error if there is none. */
  lemma LandingExactly(s: State, id: nat)
    requires id in s.flights && s.flights[id].answer.Some?
    ensures var t := Apply(s, Finish(id));
            match s.flights[id].answer.value
            case Loaded(snap) =>
              Delivers(s, t, id, Some(snap)) && t.entries == s.entries[id := Entry(snap, s.now, s.now + s.ttl, false)]
              && t.trace == s.trace + [Served(id, snap, Fresh, s.now, s.now)]
            case Gone => Delivers(s, t, id, None) && t.entries == s.entries - {id} && t.trace == s.trace + [Evicted(id)]
            case Down =>
              if Usable(s, id) then
                Delivers(s, t, id, Some(s.entries[id].snap)) && t.entries == s.entries[id := s.entries[id].(degraded := true)]
                && t.trace == s.trace + [Served(id, s.entries[id].snap, Degraded, s.now, s.entries[id].loaded)]
              else Delivers(s, t, id, None) && t.entries == s.entries && t.trace == s.trace
  {
  }

  /** A caller waiting for a flight is answered with an error exactly when the snapshot is gone, or the loader is out
      and no unexpired entry is left. */
  lemma ErrorsExactly(s: State, id: nat, caller: nat)
    requires id in s.flights && s.flights[id].answer.Some? && caller in s.flights[id].waiting
    ensures var t := Apply(s, Finish(id));
            && caller in t.readings && t.readings[caller].id == id
            && (t.readings[caller].snap.None? <==>
                  s.flights[id].answer == Some(Gone) || (s.flights[id].answer == Some(Down) && !Usable(s, id)))
  {
    LandingExactly(s, id);
  }

  /** The first caller opens the flight, later ones join it, and the loader answers it once. */
  lemma JoinsExactly(s: State, caller: nat, answer: Answer)
    requires caller in s.missed
    ensures var id, t := s.missed[caller], Apply(s, Enter(caller));
            && t.missed == s.missed - {caller} && t.entries == s.entries && t.readings == s.readings && t.trace == s.trace
            && t.flights == s.flights[id := if id in s.flights then s.flights[id].(waiting := s.flights[id].waiting + {caller})
                                           else Flight(None, {caller})]
            && (id !in s.flights ==> Apply(t, Reply(id, answer)).flights[id].answer == Some(answer))
  {
    assert {} + {caller} == {caller};
  }

  // ---- a marked entry ----

  /** The entry, if it is still there, is marked, and no flight is about to replace it. */
  ghost predicate Marked(s: State, id: nat) {
    && (id in s.entries ==> s.entries[id].degraded)
    && (id in s.flights ==> s.flights[id].answer.None? || !s.flights[id].answer.value.Loaded?)
  }

  /** Nothing from position n on was answered from memory for id. */
  ghost predicate NotFromMemory(trace: seq<Event>, n: nat, id: nat) {
    forall k :: n <= k < |trace| ==> !IsMemory(trace[k], id)
  }

  predicate IsMemory(e: Event, id: nat) { e.Served? && e.id == id && e.kind == Memory }

  lemma MarkedStep(s: State, id: nat, step: Step)
    requires Marked(s, id) && (step.Reply? && step.id == id ==> !step.answer.Loaded?)
    ensures var t := Apply(s, step); Marked(t, id) && s.trace <= t.trace && NotFromMemory(t.trace, |s.trace|, id)
  {
  }

  lemma {:induction false} MarkedStaysMarked(s: State, id: nat, steps: seq<Step>)
    requires Marked(s, id) && NotReloaded(steps, id)
    ensures s.trace <= Run(s, steps).trace && NotFromMemory(Run(s, steps).trace, |s.trace|, id)
    decreases steps
  {
    hide Apply;
    if steps != [] {
      var t := Apply(s, steps[0]);
      MarkedStep(s, id, steps[0]);
      forall i, snap | 0 <= i < |steps[1..]| ensures steps[1..][i] != Reply(id, Loaded(snap)) {
        assert steps[1..][i] == steps[i + 1];
      }
      MarkedStaysMarked(t, id, steps[1..]);
    }
  }

  /** Once an outage has been answered from the entry, no call for the id is answered from memory, by any
      interleaving, until the loader returns a snapshot for it: every call tries the loader again. */
  lemma OutagesAreRetried(s: State, id: nat, steps: seq<Step>)
    requires id in s.flights && s.flights[id].answer == Some(Down) && Usable(s, id) && NotReloaded(steps, id)
    ensures NotFromMemory(Run(Apply(s, Finish(id)), steps).trace, |s.trace|, id)
  {
    var t := Apply(s, Finish(id));
    LandingExactly(s, id);
    MarkedStaysMarked(t, id, steps);
    forall k | |s.trace| <= k < |Run(t, steps).trace| ensures !IsMemory(Run(t, steps).trace[k], id) {
      if k == |s.trace| { assert Run(t, steps).trace[k] == t.trace[k]; }
    }
  }
}

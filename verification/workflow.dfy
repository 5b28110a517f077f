/** The DCR workflow of enclave/dcr.cpp as a value: the event store, the five outgoing relations
    and the two inverse ones, with the meaning of running and testing an event.

    `std::map::operator[]` gives a zeroed value for a missing key, so every lookup is total. */
module Workflows {
  import opened Uids

  datatype Event = Event(id: Uid, executed: bool, excluded: bool, pending: bool)

  type EventStore = map<Uid, Event>
  type Relation = map<Uid, seq<Uid>>

  const NO_EVENT := Event(EMPTY_UID, false, false, false)

  datatype Workflow = Workflow(
    events: EventStore,
    excludesTo: Relation,
    includesTo: Relation,
    responsesTo: Relation,
    conditionsTo: Relation,
    milestonesTo: Relation,
    conditionsFrom: Relation,
    milestonesFrom: Relation)

  function EventAt(store: EventStore, id: Uid): Event {
    if id in store then store[id] else NO_EVENT
  }

  function Related(relation: Relation, id: Uid): seq<Uid> {
    if id in relation then relation[id] else []
  }

  /** Whether the condition or milestone `id` does not hold its target back. */
  predicate ConditionMet(store: EventStore, id: Uid) {
    EventAt(store, id).executed || EventAt(store, id).excluded
  }

  predicate MilestoneMet(store: EventStore, id: Uid) {
    !EventAt(store, id).pending || EventAt(store, id).excluded
  }

  predicate Enabled(w: Workflow, id: Uid) {
    var event := EventAt(w.events, id);
    && !event.excluded
    && (forall c | c in Related(w.conditionsFrom, event.id) :: ConditionMet(w.events, c))
    && (forall m | m in Related(w.milestonesFrom, event.id) :: MilestoneMet(w.events, m))
  }

  /** The store after `event_store[x].excluded = value` for every x of a relation list in turn. */
  function SetExcluded(store: EventStore, ids: seq<Uid>, value: bool): EventStore {
    if ids == [] then store
    else
      var before := SetExcluded(store, ids[..|ids| - 1], value);
      var last := ids[|ids| - 1];
      before[last := EventAt(before, last).(excluded := value)]
  }

  /** The store after `event_store[x].pending = true` for every x of a relation list in turn. */
  function SetPending(store: EventStore, ids: seq<Uid>): EventStore {
    if ids == [] then store
    else
      var before := SetPending(store, ids[..|ids| - 1]);
      var last := ids[|ids| - 1];
      before[last := EventAt(before, last).(pending := true)]
  }

  function ExecuteIn(w: Workflow, id: Uid): EventStore {
    var event := EventAt(w.events, id);
    var s0 := w.events[id := event.(executed := true, pending := false)];
    var s1 := SetExcluded(s0, Related(w.excludesTo, event.id), true);
    var s2 := SetExcluded(s1, Related(w.includesTo, event.id), false);
    SetPending(s2, Related(w.responsesTo, event.id))
  }

  function Execute(w: Workflow, id: Uid): Workflow {
    w.(events := ExecuteIn(w, id))
  }

  /** Executes the events of a run from left to right. */
  function Run(w: Workflow, run: seq<Uid>): Workflow {
    if run == [] then w else Execute(Run(w, run[..|run| - 1]), run[|run| - 1])
  }

  /** The events whose state an execution of `id` may set. */
  function Effects(w: Workflow, id: Uid): set<Uid> {
    Elements(Related(w.excludesTo, id)) + Elements(Related(w.includesTo, id))
    + Elements(Related(w.responsesTo, id))
  }

  /** The events that have `id` as a condition or a milestone. */
  function Dependents(w: Workflow, id: Uid): set<Uid> {
    Elements(Related(w.conditionsTo, id)) + Elements(Related(w.milestonesTo, id))
  }

  function DependentsOf(w: Workflow, ids: set<Uid>): set<Uid> {
    set x, d | x in ids && d in Dependents(w, x) :: d
  }

  function LockSet(w: Workflow, id: Uid): set<Uid> {
    Effects(w, id) + DependentsOf(w, Effects(w, id))
  }

  function InformSet(w: Workflow, id: Uid): set<Uid> {
    LockSet(w, id) + Dependents(w, id)
  }

  // ---- The structural conditions a configured workflow meets

  predicate StaysInside(w: Workflow, relation: Relation, k: Uid) {
    && (Related(relation, k) != [] ==> k in w.events)
    && Elements(Related(relation, k)) <= w.events.Keys
  }

  predicate Closed(w: Workflow, relation: Relation) {
    forall k {:trigger StaysInside(w, relation, k)} | k in relation :: StaysInside(w, relation, k)
  }

  predicate Mutual(to: Relation, from: Relation, k: Uid, x: Uid) {
    x in Related(to, k) <==> k in Related(from, x)
  }

  ghost predicate InverseOf(to: Relation, from: Relation) {
    forall k, x {:trigger Mutual(to, from, k, x)} :: Mutual(to, from, k, x)
  }

  predicate IdsMatch(w: Workflow) {
    forall k | k in w.events :: w.events[k].id == k
  }

  predicate References(w: Workflow) {
    && Closed(w, w.excludesTo) && Closed(w, w.includesTo) && Closed(w, w.responsesTo)
    && Closed(w, w.conditionsTo) && Closed(w, w.milestonesTo)
    && Closed(w, w.conditionsFrom) && Closed(w, w.milestonesFrom)
  }

  ghost predicate Inverses(w: Workflow) {
    InverseOf(w.conditionsTo, w.conditionsFrom) && InverseOf(w.milestonesTo, w.milestonesFrom)
  }

  /** Ids equal their keys, relations stay inside the workflow, and each `*_from` map inverts the
      `*_to` map it is kept beside. */
  ghost predicate Structured(w: Workflow) {
    IdsMatch(w) && References(w) && Inverses(w)
  }
}

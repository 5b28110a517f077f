/** The flat form a workflow is shipped in (enclave/intermediate_types.h): writing it down and building
    it again preserves what the workflow means. */
module Flattening {
  import opened Uids
  import opened Workflows
  import opened DcrTheorems

  /** A relation as two arrays of one length: `outs[i]` is related to `ins[i]`. */
  datatype FlatRelation = FlatRelation(outs: seq<Uid>, ins: seq<Uid>)

  datatype Intermediate = Intermediate(
    eventIds: seq<Uid>, excluded: seq<Uid>, pending: seq<Uid>, executed: seq<Uid>,
    conditions: FlatRelation, milestones: FlatRelation,
    excludes: FlatRelation, includes: FlatRelation, responses: FlatRelation)

  const NO_PAIRS := FlatRelation([], [])

  datatype Flag = IsExcluded | IsPending | IsExecuted

  predicate HasFlag(event: Event, flag: Flag) {
    match flag
    case IsExcluded => event.excluded
    case IsPending => event.pending
    case IsExecuted => event.executed
  }

  // ---- Flattening

  function Copies(x: Uid, n: nat): seq<Uid> {
    seq(n, _ => x)
  }

  /** The lists of the keys `ks`, one after the other. */
  function FlatOf(relation: Relation, ks: seq<Uid>): FlatRelation {
    if ks == [] then NO_PAIRS
    else
      var before := FlatOf(relation, ks[..|ks| - 1]);
      var k := ks[|ks| - 1];
      FlatRelation(before.outs + Copies(k, |Related(relation, k)|), before.ins + Related(relation, k))
  }

  function Flagged(store: EventStore, ks: seq<Uid>, flag: Flag): seq<Uid> {
    if ks == [] then []
    else
      var before := Flagged(store, ks[..|ks| - 1], flag);
      var k := ks[|ks| - 1];
      if HasFlag(EventAt(store, k), flag) then before + [k] else before
  }

  /** create_intermediate: every list follows the order of the event store. */
  function Flatten(w: Workflow): Intermediate {
    FlattenKeys(w, InOrder(w.events.Keys))
  }

  function FlattenKeys(w: Workflow, ks: seq<Uid>): Intermediate {
    Intermediate(
      ks, Flagged(w.events, ks, IsExcluded), Flagged(w.events, ks, IsPending), Flagged(w.events, ks, IsExecuted),
      FlatOf(w.conditionsTo, ks), FlatOf(w.milestonesTo, ks),
      FlatOf(w.excludesTo, ks), FlatOf(w.includesTo, ks), FlatOf(w.responsesTo, ks))
  }

  // ---- Rebuilding

  predicate Paired(f: FlatRelation) {
    |f.outs| == |f.ins|
  }

  function Push(relation: Relation, k: Uid, x: Uid): Relation {
    relation[k := Related(relation, k) + [x]]
  }

  function BuildTo(f: FlatRelation): Relation
    requires Paired(f)
    decreases |f.outs|
  {
    var n := |f.outs|;
    if n == 0 then map[]
    else Push(BuildTo(FlatRelation(f.outs[..n - 1], f.ins[..n - 1])), f.outs[n - 1], f.ins[n - 1])
  }

  function Swapped(f: FlatRelation): FlatRelation {
    FlatRelation(f.ins, f.outs)
  }

  function BuildEvents(ids: seq<Uid>): EventStore {
    if ids == [] then map[]
    else
      var id := ids[|ids| - 1];
      BuildEvents(ids[..|ids| - 1])[id := NO_EVENT.(id := id)]
  }

  function SetExecuted(store: EventStore, ids: seq<Uid>): EventStore {
    if ids == [] then store
    else
      var before := SetExecuted(store, ids[..|ids| - 1]);
      var last := ids[|ids| - 1];
      before[last := EventAt(before, last).(executed := true)]
  }

  function BuildStore(i: Intermediate): EventStore {
    SetExecuted(SetPending(SetExcluded(BuildEvents(i.eventIds), i.excluded, true), i.pending), i.executed)
  }

  predicate Complete(i: Intermediate) {
    Paired(i.conditions) && Paired(i.milestones) && Paired(i.excludes) && Paired(i.includes) && Paired(i.responses)
  }

  /** make_workflow */
  function Rebuild(i: Intermediate): Workflow
    requires Complete(i)
  {
    Workflow(
      BuildStore(i),
      BuildTo(i.excludes), BuildTo(i.includes), BuildTo(i.responses), BuildTo(i.conditions), BuildTo(i.milestones),
      BuildTo(Swapped(i.conditions)), BuildTo(Swapped(i.milestones)))
  }

  // ---- The outgoing lists

  /** The partners of k in a flat relation, in order. */
  function Partners(f: FlatRelation, k: Uid): seq<Uid>
    requires Paired(f)
    decreases |f.outs|
  {
    var n := |f.outs|;
    if n == 0 then []
    else
      var before := Partners(FlatRelation(f.outs[..n - 1], f.ins[..n - 1]), k);
      if f.outs[n - 1] == k then before + [f.ins[n - 1]] else before
  }

  lemma {:induction false} BuiltList(f: FlatRelation, k: Uid)
    requires Paired(f)
    ensures Related(BuildTo(f), k) == Partners(f, k)
    decreases |f.outs|
  {
    var n := |f.outs|;
    if n > 0 {
      BuiltList(FlatRelation(f.outs[..n - 1], f.ins[..n - 1]), k);
    }
  }

  lemma {:induction false} FlatIsPaired(relation: Relation, ks: seq<Uid>)
    ensures Paired(FlatOf(relation, ks))
  {
    if ks != [] {
      FlatIsPaired(relation, ks[..|ks| - 1]);
    }
  }

  lemma FlattenIsComplete(w: Workflow)
    ensures Complete(Flatten(w))
  {
    var ks := InOrder(w.events.Keys);
    FlatIsPaired(w.conditionsTo, ks);
    FlatIsPaired(w.milestonesTo, ks);
    FlatIsPaired(w.excludesTo, ks);
    FlatIsPaired(w.includesTo, ks);
    FlatIsPaired(w.responsesTo, ks);
  }

  /** Writing one more key's list adds to the partners of that key only. */
  lemma {:induction false} PartnersOfMore(f: FlatRelation, k: Uid, xs: seq<Uid>, other: Uid)
    requires Paired(f)
    ensures Partners(FlatRelation(f.outs + Copies(k, |xs|), f.ins + xs), other)
         == Partners(f, other) + if other == k then xs else []
  {
    if xs == [] {
      assert FlatRelation(f.outs + Copies(k, 0), f.ins + xs) == f;
    } else {
      var n := |xs| - 1;
      PartnersOfMore(f, k, xs[..n], other);
      var g := FlatRelation(f.outs + Copies(k, |xs|), f.ins + xs);
      assert g.outs[..|g.outs| - 1] == f.outs + Copies(k, n);
      assert g.ins[..|g.outs| - 1] == f.ins + xs[..n];
      assert xs == xs[..n] + [xs[n]];
    }
  }

  lemma {:induction false} FlatPartners(relation: Relation, ks: seq<Uid>, k: Uid)
    requires forall i, j | 0 <= i < j < |ks| :: ks[i] != ks[j]
    ensures Paired(FlatOf(relation, ks))
    ensures Partners(FlatOf(relation, ks), k) == if k in ks then Related(relation, k) else []
  {
    FlatIsPaired(relation, ks);
    if ks != [] {
      var front, last := ks[..|ks| - 1], ks[|ks| - 1];
      FlatPartners(relation, front, k);
      assert ks == front + [last];
      PartnersOfMore(FlatOf(relation, front), last, Related(relation, last), k);
    }
  }

  /** What the flattened relation gives back for one key. */
  lemma RebuiltList(w: Workflow, relation: Relation, k: Uid)
    ensures Paired(FlatOf(relation, InOrder(w.events.Keys)))
    ensures Related(BuildTo(FlatOf(relation, InOrder(w.events.Keys))), k)
         == if k in w.events then Related(relation, k) else []
  {
    var ks := InOrder(w.events.Keys);
    FlatPartners(relation, ks, k);
    BuiltList(FlatOf(relation, ks), k);
  }

  // ---- The inverse lists

  lemma {:induction false} SwappedCount(f: FlatRelation, k: Uid, x: Uid)
    requires Paired(f)
    ensures multiset(Partners(Swapped(f), x))[k] == multiset(Partners(f, k))[x]
    decreases |f.outs|
  {
    var n := |f.outs|;
    if n > 0 {
      SwappedCount(FlatRelation(f.outs[..n - 1], f.ins[..n - 1]), k, x);
    }
  }

  /** A rebuilt inverse list names k as often as the outgoing list of k names its owner. */
  lemma RebuiltInverse(w: Workflow, relation: Relation, k: Uid, x: Uid)
    requires k in w.events || Related(relation, k) == []
    ensures Paired(FlatOf(relation, InOrder(w.events.Keys)))
    ensures multiset(Related(BuildTo(Swapped(FlatOf(relation, InOrder(w.events.Keys)))), x))[k]
         == multiset(Related(relation, k))[x]
  {
    var ks := InOrder(w.events.Keys);
    FlatPartners(relation, ks, k);
    var f := FlatOf(relation, ks);
    BuiltList(Swapped(f), x);
    SwappedCount(f, k, x);
  }

  // ---- The event store

  lemma {:induction false} BuiltEvents(ids: seq<Uid>)
    ensures BuildEvents(ids).Keys == Elements(ids)
    ensures forall id | id in ids :: BuildEvents(ids)[id] == NO_EVENT.(id := id)
  {
    if ids != [] {
      BuiltEvents(ids[..|ids| - 1]);
      assert ids == ids[..|ids| - 1] + [ids[|ids| - 1]];
    }
  }

  lemma {:induction false} SetExecutedAt(store: EventStore, ids: seq<Uid>, k: Uid)
    ensures EventAt(SetExecuted(store, ids), k)
         == if k in ids then EventAt(store, k).(executed := true) else EventAt(store, k)
    ensures SetExecuted(store, ids).Keys == store.Keys + Elements(ids)
  {
    if ids != [] {
      SetExecutedAt(store, ids[..|ids| - 1], k);
      assert ids == ids[..|ids| - 1] + [ids[|ids| - 1]];
      assert Elements(ids) == Elements(ids[..|ids| - 1]) + {ids[|ids| - 1]};
    }
  }

  lemma {:induction false} FlaggedAre(store: EventStore, ks: seq<Uid>, flag: Flag, k: Uid)
    ensures k in Flagged(store, ks, flag) <==> k in ks && HasFlag(EventAt(store, k), flag)
  {
    if ks != [] {
      FlaggedAre(store, ks[..|ks| - 1], flag, k);
      assert ks == ks[..|ks| - 1] + [ks[|ks| - 1]];
    }
  }

  lemma FlaggedInside(store: EventStore, ks: seq<Uid>, flag: Flag)
    ensures Elements(Flagged(store, ks, flag)) <= Elements(ks)
  {
    forall k ensures k in Flagged(store, ks, flag) ==> k in ks {
      FlaggedAre(store, ks, flag, k);
    }
  }

  predicate FlagsInside(i: Intermediate) {
    && Elements(i.excluded) <= Elements(i.eventIds)
    && Elements(i.pending) <= Elements(i.eventIds)
    && Elements(i.executed) <= Elements(i.eventIds)
  }

  lemma BuiltKeys(i: Intermediate)
    requires FlagsInside(i)
    ensures BuildStore(i).Keys == Elements(i.eventIds)
  {
    var s0 := BuildEvents(i.eventIds);
    var s1 := SetExcluded(s0, i.excluded, true);
    BuiltEvents(i.eventIds);
    SetKeys(s0, i.excluded, true);
    SetKeys(s1, i.pending, true);
    SetExecutedAt(SetPending(s1, i.pending), i.executed, EMPTY_UID);
  }

  lemma BuiltEventAt(i: Intermediate, k: Uid)
    requires k in i.eventIds
    ensures EventAt(BuildStore(i), k) == Event(k, k in i.executed, k in i.excluded, k in i.pending)
  {
    var s0 := BuildEvents(i.eventIds);
    var s1 := SetExcluded(s0, i.excluded, true);
    BuiltEvents(i.eventIds);
    SetExcludedAt(s0, i.excluded, true, k);
    SetPendingAt(s1, i.pending, k);
    SetExecutedAt(SetPending(s1, i.pending), i.executed, k);
  }

  lemma RebuiltKeys(w: Workflow)
    ensures BuildStore(Flatten(w)).Keys == w.events.Keys
  {
    var ks := InOrder(w.events.Keys);
    FlaggedInside(w.events, ks, IsExcluded);
    FlaggedInside(w.events, ks, IsPending);
    FlaggedInside(w.events, ks, IsExecuted);
    BuiltKeys(Flatten(w));
  }

  /** Every rebuilt event has the flags it had; its id is its key. */
  lemma RebuiltEvent(w: Workflow, k: Uid)
    requires k in w.events
    ensures EventAt(BuildStore(Flatten(w)), k) == w.events[k].(id := k)
  {
    var ks := InOrder(w.events.Keys);
    BuiltEventAt(Flatten(w), k);
    FlaggedAre(w.events, ks, IsExcluded, k);
    FlaggedAre(w.events, ks, IsPending, k);
    FlaggedAre(w.events, ks, IsExecuted, k);
  }

  // ---- The round trip

  function RoundTrip(w: Workflow): Workflow {
    FlattenIsComplete(w);
    Rebuild(Flatten(w))
  }

  lemma OwnIdsIff(w: Workflow, store: EventStore)
    requires store.Keys == w.events.Keys
    requires forall k | k in w.events :: EventAt(store, k) == w.events[k].(id := k)
    ensures store == w.events <==> IdsMatch(w)
  {
    forall k | k in w.events ensures store[k] == w.events[k].(id := k) {
      assert store[k] == EventAt(store, k);
    }
    if IdsMatch(w) {
      assert forall k | k in w.events :: store[k] == w.events[k];
    }
  }

  lemma StoreReturnsIff(w: Workflow)
    ensures BuildStore(Flatten(w)) == w.events <==> IdsMatch(w)
  {
    RebuiltKeys(w);
    forall k | k in w.events ensures EventAt(BuildStore(Flatten(w)), k) == w.events[k].(id := k) {
      RebuiltEvent(w, k);
    }
    OwnIdsIff(w, BuildStore(Flatten(w)));
  }

  /** The event store comes back exactly when every event carries its own key as id. */
  lemma EventsReturnIff(w: Workflow)
    ensures RoundTrip(w).events == w.events <==> IdsMatch(w)
  {
    FlattenIsComplete(w);
    StoreReturnsIff(w);
  }

  /** A list is lost exactly when it is not empty and its key is not an event. */
  lemma ListReturnsIff(w: Workflow, k: Uid)
    ensures Related(RoundTrip(w).excludesTo, k) == Related(w.excludesTo, k) <==> (k in w.events || Related(w.excludesTo, k) == [])
    ensures Related(RoundTrip(w).includesTo, k) == Related(w.includesTo, k) <==> (k in w.events || Related(w.includesTo, k) == [])
    ensures Related(RoundTrip(w).responsesTo, k) == Related(w.responsesTo, k) <==> (k in w.events || Related(w.responsesTo, k) == [])
    ensures Related(RoundTrip(w).conditionsTo, k) == Related(w.conditionsTo, k) <==> (k in w.events || Related(w.conditionsTo, k) == [])
    ensures Related(RoundTrip(w).milestonesTo, k) == Related(w.milestonesTo, k) <==> (k in w.events || Related(w.milestonesTo, k) == [])
  {
    FlattenIsComplete(w);
    RebuiltList(w, w.excludesTo, k);
    RebuiltList(w, w.includesTo, k);
    RebuiltList(w, w.responsesTo, k);
    RebuiltList(w, w.conditionsTo, k);
    RebuiltList(w, w.milestonesTo, k);
  }

  // ---- The round trip preserves meaning

  predicate SameOutgoing(w: Workflow, v: Workflow, k: Uid) {
    && Related(v.excludesTo, k) == Related(w.excludesTo, k)
    && Related(v.includesTo, k) == Related(w.includesTo, k)
    && Related(v.responsesTo, k) == Related(w.responsesTo, k)
    && Related(v.conditionsTo, k) == Related(w.conditionsTo, k)
    && Related(v.milestonesTo, k) == Related(w.milestonesTo, k)
  }

  predicate SameIncoming(w: Workflow, v: Workflow, x: Uid) {
    && Elements(Related(v.conditionsFrom, x)) == Elements(Related(w.conditionsFrom, x))
    && Elements(Related(v.milestonesFrom, x)) == Elements(Related(w.milestonesFrom, x))
  }

  /** Equal events and outgoing lists, and incoming lists with the same members. */
  ghost predicate Alike(w: Workflow, v: Workflow) {
    && v.events == w.events
    && (forall k {:trigger SameOutgoing(w, v, k)} :: SameOutgoing(w, v, k))
    && (forall x {:trigger SameIncoming(w, v, x)} :: SameIncoming(w, v, x))
  }

  lemma AlikeExecute(w: Workflow, v: Workflow, e: Uid)
    requires Alike(w, v)
    ensures Alike(Execute(w, e), Execute(v, e))
  {
    var w', v' := Execute(w, e), Execute(v, e);
    assert SameOutgoing(w, v, EventAt(w.events, e).id);
    forall k ensures SameOutgoing(w', v', k) {
      assert SameOutgoing(w, v, k);
    }
    forall x ensures SameIncoming(w', v', x) {
      assert SameIncoming(w, v, x);
    }
  }

  lemma {:induction false} AlikeRun(w: Workflow, v: Workflow, run: seq<Uid>)
    requires Alike(w, v)
    ensures Alike(Run(w, run), Run(v, run))
  {
    if run != [] {
      AlikeRun(w, v, run[..|run| - 1]);
      AlikeExecute(Run(w, run[..|run| - 1]), Run(v, run[..|run| - 1]), run[|run| - 1]);
    }
  }

  lemma AlikeEnabled(w: Workflow, v: Workflow, e: Uid)
    requires Alike(w, v)
    ensures Enabled(v, e) <==> Enabled(w, e)
  {
    var id := EventAt(w.events, e).id;
    assert SameIncoming(w, v, id);
    forall c ensures c in Related(v.conditionsFrom, id) <==> c in Related(w.conditionsFrom, id) {
      assert c in Elements(Related(v.conditionsFrom, id)) <==> c in Elements(Related(w.conditionsFrom, id));
    }
    forall m ensures m in Related(v.milestonesFrom, id) <==> m in Related(w.milestonesFrom, id) {
      assert m in Elements(Related(v.milestonesFrom, id)) <==> m in Elements(Related(w.milestonesFrom, id));
    }
  }

  lemma AlikeSets(w: Workflow, v: Workflow, e: Uid)
    requires Alike(w, v)
    ensures LockSet(v, e) == LockSet(w, e) && InformSet(v, e) == InformSet(w, e)
  {
    forall k ensures Effects(v, k) == Effects(w, k) && Dependents(v, k) == Dependents(w, k) {
      assert SameOutgoing(w, v, k);
    }
  }

  /** Without any assumption on the inverse maps the workflow came with: each rebuilt inverse list names
      its members as often as the outgoing lists name its owner. */
  lemma InversesAreRebuilt(w: Workflow, k: Uid, x: Uid)
    requires References(w)
    ensures multiset(Related(RoundTrip(w).conditionsFrom, x))[k] == multiset(Related(w.conditionsTo, k))[x]
    ensures multiset(Related(RoundTrip(w).milestonesFrom, x))[k] == multiset(Related(w.milestonesTo, k))[x]
  {
    FlattenIsComplete(w);
    assert StaysInside(w, w.conditionsTo, k) || k !in w.conditionsTo;
    assert StaysInside(w, w.milestonesTo, k) || k !in w.milestonesTo;
    RebuiltInverse(w, w.conditionsTo, k, x);
    RebuiltInverse(w, w.milestonesTo, k, x);
  }

  ghost predicate CountedInverse(to: Relation, from: Relation) {
    forall k, x {:trigger multiset(Related(from, x))[k]} ::
      multiset(Related(from, x))[k] == multiset(Related(to, k))[x]
  }

  lemma SameCounts(a: seq<Uid>, b: seq<Uid>)
    requires forall k {:trigger multiset(a)[k]} :: multiset(a)[k] == multiset(b)[k]
    ensures multiset(a) == multiset(b)
  {}

  /** Where the inverse maps counted right before, they come back equal as multisets. */
  lemma InversesReturn(w: Workflow, x: Uid)
    requires References(w)
    requires CountedInverse(w.conditionsTo, w.conditionsFrom) && CountedInverse(w.milestonesTo, w.milestonesFrom)
    ensures multiset(Related(RoundTrip(w).conditionsFrom, x)) == multiset(Related(w.conditionsFrom, x))
    ensures multiset(Related(RoundTrip(w).milestonesFrom, x)) == multiset(Related(w.milestonesFrom, x))
  {
    var v := RoundTrip(w);
    var conditions, milestones := Related(v.conditionsFrom, x), Related(v.milestonesFrom, x);
    forall k
      ensures multiset(conditions)[k] == multiset(Related(w.conditionsTo, k))[x]
      ensures multiset(milestones)[k] == multiset(Related(w.milestonesTo, k))[x]
    {
      InversesAreRebuilt(w, k, x);
    }
    BothInvert(w.conditionsTo, w.conditionsFrom, conditions, x);
    BothInvert(w.milestonesTo, w.milestonesFrom, milestones, x);
  }

  lemma BothInvert(to: Relation, from: Relation, rebuilt: seq<Uid>, x: Uid)
    requires CountedInverse(to, from) && Counts(rebuilt, to, x)
    ensures multiset(rebuilt) == multiset(Related(from, x))
  {
    SameCounts(rebuilt, Related(from, x));
  }

  lemma Counted(a: seq<Uid>, k: Uid, b: seq<Uid>, x: Uid)
    requires multiset(a)[k] == multiset(b)[x]
    ensures k in a <==> x in b
  {
    assert k in a <==> k in multiset(a);
    assert x in b <==> x in multiset(b);
  }

  ghost predicate Counts(rebuilt: seq<Uid>, to: Relation, x: Uid) {
    forall k {:trigger multiset(rebuilt)[k]} :: multiset(rebuilt)[k] == multiset(Related(to, k))[x]
  }

  lemma SameMembers(to: Relation, from: Relation, rebuilt: seq<Uid>, x: Uid)
    requires InverseOf(to, from) && Counts(rebuilt, to, x)
    ensures Elements(rebuilt) == Elements(Related(from, x))
  {
    forall k ensures k in rebuilt <==> k in Related(from, x) {
      Counted(rebuilt, k, Related(to, k), x);
      assert Mutual(to, from, k, x);
    }
  }

  lemma IncomingReturns(w: Workflow, x: Uid)
    requires Structured(w)
    ensures SameIncoming(w, RoundTrip(w), x)
  {
    forall k
      ensures multiset(Related(RoundTrip(w).conditionsFrom, x))[k] == multiset(Related(w.conditionsTo, k))[x]
      ensures multiset(Related(RoundTrip(w).milestonesFrom, x))[k] == multiset(Related(w.milestonesTo, k))[x]
    {
      InversesAreRebuilt(w, k, x);
    }
    SameMembers(w.conditionsTo, w.conditionsFrom, Related(RoundTrip(w).conditionsFrom, x), x);
    SameMembers(w.milestonesTo, w.milestonesFrom, Related(RoundTrip(w).milestonesFrom, x), x);
  }

  lemma RoundTripIsAlike(w: Workflow)
    requires Structured(w)
    ensures Alike(w, RoundTrip(w))
  {
    EventsReturnIff(w);
    forall k ensures SameOutgoing(w, RoundTrip(w), k) {
      OutgoingReturns(w, k);
    }
    forall x ensures SameIncoming(w, RoundTrip(w), x) {
      IncomingReturns(w, x);
    }
  }

  lemma OutgoingReturns(w: Workflow, k: Uid)
    requires References(w)
    ensures SameOutgoing(w, RoundTrip(w), k)
  {
    ListReturnsIff(w, k);
    assert StaysInside(w, w.excludesTo, k) || k !in w.excludesTo;
    assert StaysInside(w, w.includesTo, k) || k !in w.includesTo;
    assert StaysInside(w, w.responsesTo, k) || k !in w.responsesTo;
    assert StaysInside(w, w.conditionsTo, k) || k !in w.conditionsTo;
    assert StaysInside(w, w.milestonesTo, k) || k !in w.milestonesTo;
  }

  /** Flattening a workflow and building it again preserves its meaning: every execution sequence gives
      the same marking, enables the same events, and locks and informs the same clusters. */
  lemma RoundTripPreservesMeaning(w: Workflow, run: seq<Uid>, e: Uid)
    requires Structured(w)
    ensures Run(RoundTrip(w), run).events == Run(w, run).events
    ensures Enabled(Run(RoundTrip(w), run), e) <==> Enabled(Run(w, run), e)
    ensures LockSet(RoundTrip(w), e) == LockSet(w, e) && InformSet(RoundTrip(w), e) == InformSet(w, e)
  {
    RoundTripIsAlike(w);
    AlikeRun(w, RoundTrip(w), run);
    AlikeEnabled(Run(w, run), Run(RoundTrip(w), run), e);
    AlikeSets(w, RoundTrip(w), e);
  }
}

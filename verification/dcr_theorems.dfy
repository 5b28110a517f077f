/** Properties of executing DCR events that the distributed protocol rests on. */
module DcrTheorems {
  import opened Uids
  import opened Workflows

  predicate IsEvent(w: Workflow, e: Uid) {
    e in w.events && w.events[e].id == e
  }

  predicate AllEvents(w: Workflow, run: seq<Uid>) {
    forall i | 0 <= i < |run| :: IsEvent(w, run[i])
  }

  // ---- What one execution does to one event

  /** The state of event k after e is executed; an include wins over an exclude. */
  function StateAfter(w: Workflow, e: Uid, k: Uid): Event {
    var was := EventAt(w.events, k);
    was.(executed := was.executed || k == e,
         pending := k in Related(w.responsesTo, e) || (was.pending && k != e),
         excluded := k !in Related(w.includesTo, e) && (k in Related(w.excludesTo, e) || was.excluded))
  }

  lemma {:induction false} SetExcludedAt(store: EventStore, ids: seq<Uid>, value: bool, k: Uid)
    ensures EventAt(SetExcluded(store, ids, value), k)
         == if k in ids then EventAt(store, k).(excluded := value) else EventAt(store, k)
  {
    if ids != [] {
      SetExcludedAt(store, ids[..|ids| - 1], value, k);
      assert ids == ids[..|ids| - 1] + [ids[|ids| - 1]];
    }
  }

  lemma {:induction false} SetPendingAt(store: EventStore, ids: seq<Uid>, k: Uid)
    ensures EventAt(SetPending(store, ids), k)
         == if k in ids then EventAt(store, k).(pending := true) else EventAt(store, k)
  {
    if ids != [] {
      SetPendingAt(store, ids[..|ids| - 1], k);
      assert ids == ids[..|ids| - 1] + [ids[|ids| - 1]];
    }
  }

  lemma {:induction false} SetKeys(store: EventStore, ids: seq<Uid>, value: bool)
    ensures SetExcluded(store, ids, value).Keys == store.Keys + Elements(ids)
    ensures SetPending(store, ids).Keys == store.Keys + Elements(ids)
  {
    if ids != [] {
      SetKeys(store, ids[..|ids| - 1], value);
      assert ids == ids[..|ids| - 1] + [ids[|ids| - 1]];
      assert Elements(ids) == Elements(ids[..|ids| - 1]) + {ids[|ids| - 1]};
    }
  }

  lemma ExecuteAt(w: Workflow, e: Uid, k: Uid)
    requires IsEvent(w, e)
    ensures EventAt(Execute(w, e).events, k) == StateAfter(w, e, k)
  {
    var s0 := w.events[e := w.events[e].(executed := true, pending := false)];
    var s1 := SetExcluded(s0, Related(w.excludesTo, e), true);
    var s2 := SetExcluded(s1, Related(w.includesTo, e), false);
    SetExcludedAt(s0, Related(w.excludesTo, e), true, k);
    SetExcludedAt(s1, Related(w.includesTo, e), false, k);
    SetPendingAt(s2, Related(w.responsesTo, e), k);
  }

  lemma ClosedAt(w: Workflow, r: Relation, k: Uid)
    requires Closed(w, r)
    ensures Elements(Related(r, k)) <= w.events.Keys
  {
    assert k in r ==> StaysInside(w, r, k);
  }

  lemma EffectsInside(w: Workflow, e: Uid)
    requires References(w)
    ensures Effects(w, e) <= w.events.Keys
  {
    ClosedAt(w, w.excludesTo, e);
    ClosedAt(w, w.includesTo, e);
    ClosedAt(w, w.responsesTo, e);
  }

  lemma ExecuteKeys(w: Workflow, e: Uid)
    requires References(w) && IsEvent(w, e)
    ensures Execute(w, e).events.Keys == w.events.Keys
  {
    EffectsInside(w, e);
    var s0 := w.events[e := w.events[e].(executed := true, pending := false)];
    var s1 := SetExcluded(s0, Related(w.excludesTo, e), true);
    var s2 := SetExcluded(s1, Related(w.includesTo, e), false);
    SetKeys(s0, Related(w.excludesTo, e), true);
    SetKeys(s1, Related(w.includesTo, e), false);
    SetKeys(s2, Related(w.responsesTo, e), false);
  }

  lemma ClosedStays(w: Workflow, w': Workflow, r: Relation)
    requires Closed(w, r) && w.events.Keys <= w'.events.Keys
    ensures Closed(w', r)
  {
    forall k | k in r ensures StaysInside(w', r, k) {
      assert StaysInside(w, r, k);
    }
  }

  lemma ReferencesStay(w: Workflow, w': Workflow)
    requires References(w) && w' == w.(events := w'.events) && w.events.Keys <= w'.events.Keys
    ensures References(w')
  {
    ClosedStays(w, w', w.excludesTo);
    ClosedStays(w, w', w.includesTo);
    ClosedStays(w, w', w.responsesTo);
    ClosedStays(w, w', w.conditionsTo);
    ClosedStays(w, w', w.milestonesTo);
    ClosedStays(w, w', w.conditionsFrom);
    ClosedStays(w, w', w.milestonesFrom);
  }

  lemma ExecuteKeepsStructure(w: Workflow, e: Uid)
    requires Structured(w) && IsEvent(w, e)
    ensures Structured(Execute(w, e)) && Execute(w, e).events.Keys == w.events.Keys
  {
    ExecuteKeys(w, e);
    var w' := Execute(w, e);
    ReferencesStay(w, w');
    forall k | k in w'.events ensures w'.events[k].id == k {
      ExecuteAt(w, e, k);
      assert w'.events[k] == EventAt(w'.events, k);
    }
  }

  lemma SameStore(a: EventStore, b: EventStore)
    requires a.Keys == b.Keys && forall k | k in a :: EventAt(a, k) == EventAt(b, k)
    ensures a == b
  {
    forall k | k in a ensures a[k] == b[k] {
      assert EventAt(a, k) == a[k] && EventAt(b, k) == b[k];
    }
  }

  // ---- The set semantics of DCR graphs

  function Executed(w: Workflow): set<Uid> {
    set k | k in w.events && w.events[k].executed
  }

  function Pending(w: Workflow): set<Uid> {
    set k | k in w.events && w.events[k].pending
  }

  function Included(w: Workflow): set<Uid> {
    set k | k in w.events && !w.events[k].excluded
  }

  /** The loops over the relation lists, repeated entries and all, compute the marking that the
      semantics of DCR graphs prescribes. */
  lemma ExecutionIsDcr(w: Workflow, e: Uid)
    requires Structured(w) && IsEvent(w, e)
    ensures Executed(Execute(w, e)) == Executed(w) + {e}
    ensures Pending(Execute(w, e)) == (Pending(w) - {e}) + Elements(Related(w.responsesTo, e))
    ensures Included(Execute(w, e))
         == (Included(w) - Elements(Related(w.excludesTo, e))) + Elements(Related(w.includesTo, e))
  {
    var w' := Execute(w, e);
    EffectsInside(w, e);
    ExecuteKeys(w, e);
    ExecutedMarking(w, e, w');
  }

  lemma ExecutedMarking(w: Workflow, e: Uid, w': Workflow)
    requires IsEvent(w, e) && w' == Execute(w, e) && w'.events.Keys == w.events.Keys && Effects(w, e) <= w.events.Keys
    ensures Executed(w') == Executed(w) + {e}
    ensures Pending(w') == (Pending(w) - {e}) + Elements(Related(w.responsesTo, e))
    ensures Included(w') == (Included(w) - Elements(Related(w.excludesTo, e))) + Elements(Related(w.includesTo, e))
  {
    forall k | k in w.events ensures w'.events[k] == StateAfter(w, e, k) {
      ExecuteAt(w, e, k);
      assert w'.events[k] == EventAt(w'.events, k);
    }
  }

  /** The event is included, its included conditions are executed and none of its included milestones is
      pending. */
  predicate EnabledInMarking(w: Workflow, e: Uid) {
    && e in Included(w)
    && Elements(Related(w.conditionsFrom, e)) * Included(w) <= Executed(w)
    && Elements(Related(w.milestonesFrom, e)) * Included(w) * Pending(w) == {}
  }

  /** Enabledness in the same terms. */
  lemma EnabledIsDcr(w: Workflow, e: Uid)
    requires References(w) && IsEvent(w, e)
    ensures Enabled(w, e) <==> EnabledInMarking(w, e)
  {
    ClosedAt(w, w.conditionsFrom, e);
    ClosedAt(w, w.milestonesFrom, e);
    var cs, ms := Related(w.conditionsFrom, e), Related(w.milestonesFrom, e);
    forall c | c in cs ensures ConditionMet(w.events, c) <==> (c in Included(w) ==> c in Executed(w)) {
      assert c in Elements(cs);
    }
    forall m | m in ms ensures MilestoneMet(w.events, m) <==> !(m in Included(w) && m in Pending(w)) {
      assert m in Elements(ms);
    }
    if Elements(cs) * Included(w) <= Executed(w) {
      forall c | c in cs ensures ConditionMet(w.events, c) {
        assert c in Included(w) ==> c in Elements(cs) * Included(w);
      }
    }
    if Elements(ms) * Included(w) * Pending(w) == {} {
      forall m | m in ms ensures MilestoneMet(w.events, m) {
        assert m !in Elements(ms) * Included(w) * Pending(w);
      }
    }
    if Enabled(w, e) {
      assert forall c | c in Elements(cs) * Included(w) :: c in cs && ConditionMet(w.events, c);
      assert forall m | m in Elements(ms) * Included(w) * Pending(w) :: m in ms && MilestoneMet(w.events, m);
    }
  }

  /** No execution takes an event away or renames it. */
  lemma ExecuteKeepsEvent(w: Workflow, e: Uid, k: Uid)
    requires IsEvent(w, k)
    ensures IsEvent(Execute(w, e), k)
  {
    var event := EventAt(w.events, e);
    var excludes, includes := Related(w.excludesTo, event.id), Related(w.includesTo, event.id);
    var s0 := w.events[e := event.(executed := true, pending := false)];
    var s1 := SetExcluded(s0, excludes, true);
    var s2 := SetExcluded(s1, includes, false);
    SetKeys(s0, excludes, true);
    SetKeys(s1, includes, false);
    SetKeys(s2, Related(w.responsesTo, event.id), false);
    SetExcludedAt(s0, excludes, true, k);
    SetExcludedAt(s1, includes, false, k);
    SetPendingAt(s2, Related(w.responsesTo, event.id), k);
  }

  /** Executing an event twice in a row is executing it once. */
  lemma ExecutionIsIdempotent(w: Workflow, e: Uid)
    requires Structured(w) && IsEvent(w, e)
    ensures Execute(Execute(w, e), e) == Execute(w, e)
  {
    var w1 := Execute(w, e);
    ExecuteKeepsStructure(w, e);
    ExecuteKeys(w, e);
    ExecuteKeys(w1, e);
    forall k ensures EventAt(Execute(w1, e).events, k) == EventAt(w1.events, k) {
      ExecuteAt(w, e, k);
      ExecuteAt(w1, e, k);
    }
    SameStore(Execute(w1, e).events, w1.events);
  }

  // ---- Runs

  lemma {:induction false} RunKeeps(w: Workflow, run: seq<Uid>)
    requires Structured(w) && AllEvents(w, run)
    ensures Structured(Run(w, run)) && Run(w, run) == w.(events := Run(w, run).events)
    ensures Run(w, run).events.Keys == w.events.Keys
  {
    if run != [] {
      var front, e := run[..|run| - 1], run[|run| - 1];
      RunKeeps(w, front);
      assert IsEvent(w, e);
      ExecuteKeepsStructure(Run(w, front), e);
      ExecuteKeys(Run(w, front), e);
    }
  }

  /** The last step of a run: one execution of an event, in a workflow that kept its structure. */
  lemma RunLast(w: Workflow, run: seq<Uid>)
    requires Structured(w) && AllEvents(w, run) && run != []
    ensures AllEvents(w, run[..|run| - 1]) && IsEvent(w, run[|run| - 1])
    ensures Structured(Run(w, run[..|run| - 1])) && IsEvent(Run(w, run[..|run| - 1]), run[|run| - 1])
    ensures Run(w, run[..|run| - 1]) == w.(events := Run(w, run[..|run| - 1]).events)
    ensures Run(w, run[..|run| - 1]).events.Keys == w.events.Keys
    ensures Run(w, run) == Execute(Run(w, run[..|run| - 1]), run[|run| - 1])
  {
    assert IsEvent(w, run[|run| - 1]);
    RunKeeps(w, run[..|run| - 1]);
  }

  // ---- Lock and inform sets are large enough

  /** Executing e disables no enabled event outside the lock set of e, even one that has e as a
      condition or a milestone. */
  lemma LockSetSuffices(w: Workflow, e: Uid, f: Uid)
    requires Inverses(w) && IsEvent(w, e) && IsEvent(w, f)
    requires Enabled(w, f) && f !in LockSet(w, e)
    ensures Enabled(Execute(w, e), f)
  {
    var w' := Execute(w, e);
    ExecuteAt(w, e, f);
    assert f !in Effects(w, e);
    forall c | c in Related(w.conditionsFrom, f) ensures ConditionMet(w'.events, c) {
      ExecuteAt(w, e, c);
      assert ConditionMet(w.events, c);
      NoDependentAffected(w, e, c, f);
    }
    forall m | m in Related(w.milestonesFrom, f) ensures MilestoneMet(w'.events, m) {
      ExecuteAt(w, e, m);
      assert MilestoneMet(w.events, m);
      NoDependentAffected(w, e, m, f);
    }
  }

  /** An event outside the lock set of e depends on nothing whose state an execution of e sets. */
  lemma NoDependentAffected(w: Workflow, e: Uid, x: Uid, f: Uid)
    requires Inverses(w) && f !in LockSet(w, e)
    requires x in Related(w.conditionsFrom, f) || x in Related(w.milestonesFrom, f)
    ensures f in Dependents(w, x) && x !in Effects(w, e)
    ensures x !in Related(w.excludesTo, e) && x !in Related(w.includesTo, e) && x !in Related(w.responsesTo, e)
  {
    if x in Related(w.conditionsFrom, f) {
      assert Mutual(w.conditionsTo, w.conditionsFrom, x, f);
    } else {
      assert Mutual(w.milestonesTo, w.milestonesFrom, x, f);
    }
  }

  /** The state enabledness of g looks at. */
  ghost predicate SameView(w: Workflow, v: Workflow, g: Uid) {
    && v == w.(events := v.events)
    && EventAt(v.events, g).id == EventAt(w.events, g).id
    && EventAt(v.events, g).excluded == EventAt(w.events, g).excluded
    && (forall c | c in Related(w.conditionsFrom, g) :: EventAt(v.events, c) == EventAt(w.events, c))
    && (forall m | m in Related(w.milestonesFrom, g) :: EventAt(v.events, m) == EventAt(w.events, m))
  }

  lemma SameViewSameAnswer(w: Workflow, v: Workflow, g: Uid)
    requires IsEvent(w, g) && SameView(w, v, g)
    ensures Enabled(w, g) <==> Enabled(v, g)
  {}

  /** Executing an event that does not inform g changes nothing g looks at. */
  lemma UninformedKeepsView(w: Workflow, e: Uid, g: Uid)
    requires Inverses(w) && IsEvent(w, e) && g !in InformSet(w, e)
    ensures SameView(w, Execute(w, e), g)
  {
    ExecuteAt(w, e, g);
    assert g !in Effects(w, e);
    forall c | c in Related(w.conditionsFrom, g) ensures EventAt(Execute(w, e).events, c) == EventAt(w.events, c) {
      NoDependentAffected(w, e, c, g);
      ExecuteAt(w, e, c);
    }
    forall m | m in Related(w.milestonesFrom, g) ensures EventAt(Execute(w, e).events, m) == EventAt(w.events, m) {
      NoDependentAffected(w, e, m, g);
      ExecuteAt(w, e, m);
    }
  }

  /** Executing e changes the answer for no event outside its inform set, in either direction. */
  lemma InformSetSuffices(w: Workflow, e: Uid, g: Uid)
    requires Inverses(w) && IsEvent(w, e) && IsEvent(w, g) && g !in InformSet(w, e)
    ensures Enabled(Execute(w, e), g) <==> Enabled(w, g)
  {
    UninformedKeepsView(w, e, g);
    SameViewSameAnswer(w, Execute(w, e), g);
  }

  // ---- A replica that applies only what it is informed of

  lemma ViewStep(w: Workflow, v: Workflow, e: Uid, g: Uid)
    requires IsEvent(w, e) && IsEvent(v, e) && SameView(w, v, g)
    ensures SameView(Execute(w, e), Execute(v, e), g)
  {
    ExecuteAt(w, e, g);
    ExecuteAt(v, e, g);
    forall x | x in Related(w.conditionsFrom, g) || x in Related(w.milestonesFrom, g)
      ensures EventAt(Execute(v, e).events, x) == EventAt(Execute(w, e).events, x)
    {
      ExecuteAt(w, e, x);
      ExecuteAt(v, e, x);
    }
  }

  /** `heard` drops from `run` only events that do not inform g. */
  ghost predicate Hears(w: Workflow, g: Uid, run: seq<Uid>, heard: seq<Uid>) {
    if run == [] then heard == []
    else
      var last := run[|run| - 1];
      || (heard != [] && heard[|heard| - 1] == last && Hears(w, g, run[..|run| - 1], heard[..|heard| - 1]))
      || (g !in InformSet(w, last) && Hears(w, g, run[..|run| - 1], heard))
  }

  lemma {:induction false} HeardAreEvents(w: Workflow, g: Uid, run: seq<Uid>, heard: seq<Uid>)
    requires AllEvents(w, run) && Hears(w, g, run, heard)
    ensures AllEvents(w, heard)
  {
    if run != [] {
      var front, last := run[..|run| - 1], run[|run| - 1];
      if heard != [] && heard[|heard| - 1] == last && Hears(w, g, front, heard[..|heard| - 1]) {
        HeardAreEvents(w, g, front, heard[..|heard| - 1]);
        assert IsEvent(w, run[|run| - 1]);
        assert heard == heard[..|heard| - 1] + [last];
      } else {
        HeardAreEvents(w, g, front, heard);
      }
    }
  }

  lemma SameViewOnwards(w: Workflow, v: Workflow, u: Workflow, g: Uid)
    requires SameView(w, v, g) && SameView(w, u, g)
    ensures SameView(u, v, g)
  {}

  lemma {:induction false} HeardView(w: Workflow, g: Uid, run: seq<Uid>, heard: seq<Uid>)
    requires Structured(w) && AllEvents(w, run) && Hears(w, g, run, heard)
    ensures SameView(Run(w, run), Run(w, heard), g)
  {
    if run != [] {
      var front, last := run[..|run| - 1], run[|run| - 1];
      RunLast(w, run);
      if heard != [] && heard[|heard| - 1] == last && Hears(w, g, front, heard[..|heard| - 1]) {
        HeardView(w, g, front, heard[..|heard| - 1]);
        HeardAreEvents(w, g, run, heard);
        RunLast(w, heard);
        ViewStep(Run(w, front), Run(w, heard[..|heard| - 1]), last, g);
      } else {
        HeardView(w, g, front, heard);
        SameInformSet(w, Run(w, front), last);
        UninformedKeepsView(Run(w, front), last, g);
        SameViewOnwards(Run(w, front), Run(w, heard), Run(w, run), g);
      }
    }
  }

  lemma SameInformSet(w: Workflow, v: Workflow, e: Uid)
    requires v == w.(events := v.events)
    ensures InformSet(v, e) == InformSet(w, e)
  {
    assert forall x :: Dependents(v, x) == Dependents(w, x);
    assert Effects(v, e) == Effects(w, e);
  }

  /** Local views project the global run: a replica of g's cluster that applies at least the events
      that inform g answers for g exactly as one that applies them all. */
  lemma LocalViewAnswersGlobally(w: Workflow, g: Uid, run: seq<Uid>, heard: seq<Uid>)
    requires Structured(w) && IsEvent(w, g) && AllEvents(w, run) && Hears(w, g, run, heard)
    ensures Enabled(Run(w, heard), g) <==> Enabled(Run(w, run), g)
  {
    HeardView(w, g, run, heard);
    RunKeeps(w, run);
    SameViewSameAnswer(Run(w, run), Run(w, heard), g);
  }

  /** What send_execution delivers to g's cluster. */
  function Informed(w: Workflow, g: Uid, run: seq<Uid>): seq<Uid> {
    if run == [] then []
    else
      var front := Informed(w, g, run[..|run| - 1]);
      if g in InformSet(w, run[|run| - 1]) then front + [run[|run| - 1]] else front
  }

  lemma {:induction false} InformedHears(w: Workflow, g: Uid, run: seq<Uid>)
    ensures Hears(w, g, run, Informed(w, g, run))
  {
    if run != [] {
      InformedHears(w, g, run[..|run| - 1]);
      var front := Informed(w, g, run[..|run| - 1]);
      assert (front + [run[|run| - 1]])[..|front|] == front;
    }
  }

  /** A replica that applies only what send_execution sends it, for every workflow, event and run. */
  lemma InformedAnswersGlobally(w: Workflow, g: Uid, run: seq<Uid>)
    requires Structured(w) && IsEvent(w, g) && AllEvents(w, run)
    ensures Enabled(Run(w, Informed(w, g, run)), g) <==> Enabled(Run(w, run), g)
  {
    InformedHears(w, g, run);
    LocalViewAnswersGlobally(w, g, run, Informed(w, g, run));
  }

  // ---- Serializability

  /** The events an execution of e writes to. */
  function Touched(w: Workflow, e: Uid): set<Uid> {
    {e} + Effects(w, e)
  }

  /** What executing e locks, itself included. */
  function Footprint(w: Workflow, e: Uid): set<Uid> {
    {e} + LockSet(w, e)
  }

  ghost predicate Independent(w: Workflow, run: seq<Uid>) {
    forall i, j | 0 <= i < j < |run| :: Footprint(w, run[i]) !! Footprint(w, run[j])
  }

  lemma ExecuteUntouched(w: Workflow, e: Uid, k: Uid)
    requires IsEvent(w, e) && k !in Touched(w, e)
    ensures EventAt(Execute(w, e).events, k) == EventAt(w.events, k)
  {
    ExecuteAt(w, e, k);
  }

  lemma {:induction false} RunUntouched(w: Workflow, run: seq<Uid>, k: Uid)
    requires Structured(w) && AllEvents(w, run)
    requires forall i | 0 <= i < |run| :: k !in Touched(w, run[i])
    ensures EventAt(Run(w, run).events, k) == EventAt(w.events, k)
  {
    if run != [] {
      RunLast(w, run);
      RunUntouched(w, run[..|run| - 1], k);
      assert k !in Touched(w, run[|run| - 1]);
      ExecuteUntouched(Run(w, run[..|run| - 1]), run[|run| - 1], k);
    }
  }

  lemma TouchedLast(w: Workflow, run: seq<Uid>, k: Uid)
    requires Structured(w) && AllEvents(w, run) && run != []
    requires forall i | 0 <= i < |run| - 1 :: k !in Touched(w, run[i])
    ensures EventAt(Run(w, run).events, k) == StateAfter(w, run[|run| - 1], k)
  {
    RunLast(w, run);
    RunUntouched(w, run[..|run| - 1], k);
    ExecuteAt(Run(w, run[..|run| - 1]), run[|run| - 1], k);
  }

  lemma {:induction false} RunTouchedOnce(w: Workflow, run: seq<Uid>, k: Uid, n: nat)
    requires Structured(w) && AllEvents(w, run) && n < |run|
    requires forall i | 0 <= i < |run| && i != n :: k !in Touched(w, run[i])
    ensures EventAt(Run(w, run).events, k) == StateAfter(w, run[n], k)
  {
    if n == |run| - 1 {
      TouchedLast(w, run, k);
    } else {
      RunLast(w, run);
      RunTouchedOnce(w, run[..|run| - 1], k, n);
      assert k !in Touched(w, run[|run| - 1]);
      ExecuteUntouched(Run(w, run[..|run| - 1]), run[|run| - 1], k);
    }
  }

  lemma TouchedOnce(w: Workflow, run: seq<Uid>, k: Uid, n: nat)
    requires Independent(w, run) && n < |run| && k in Touched(w, run[n])
    ensures forall i | 0 <= i < |run| && i != n :: k !in Touched(w, run[i])
  {
    forall i | 0 <= i < |run| && i != n ensures k !in Touched(w, run[i]) {
      assert k in Footprint(w, run[n]);
      if i < n {
        assert Footprint(w, run[i]) !! Footprint(w, run[n]);
      } else {
        assert Footprint(w, run[n]) !! Footprint(w, run[i]);
      }
    }
  }

  /** Events that are all enabled and lock disjoint footprints can be executed in any order: each is
      still enabled when its turn comes. */
  lemma {:induction false} IndependentRunIsLegal(w: Workflow, run: seq<Uid>, n: nat)
    requires Structured(w) && AllEvents(w, run) && Independent(w, run) && n < |run|
    requires forall i | 0 <= i < |run| :: Enabled(w, run[i])
    ensures Enabled(Run(w, run[..n]), run[n])
  {
    StaysEnabled(w, run, n, n);
  }

  lemma {:induction false} StaysEnabled(w: Workflow, run: seq<Uid>, m: nat, n: nat)
    requires Structured(w) && AllEvents(w, run) && Independent(w, run) && m <= n < |run|
    requires Enabled(w, run[n])
    ensures Enabled(Run(w, run[..m]), run[n])
    decreases m
  {
    if m > 0 {
      StaysEnabled(w, run, m - 1, n);
      IndependentStep(w, run, m, n);
    }
  }

  lemma IndependentStep(w: Workflow, run: seq<Uid>, m: nat, n: nat)
    requires Structured(w) && AllEvents(w, run) && Independent(w, run) && 0 < m <= n < |run|
    requires Enabled(Run(w, run[..m - 1]), run[n])
    ensures Enabled(Run(w, run[..m]), run[n])
  {
    assert run[..m][..m - 1] == run[..m - 1];
    RunLast(w, run[..m]);
    var v, e := Run(w, run[..m - 1]), run[m - 1];
    SameLockSet(w, v, e);
    assert IsEvent(w, run[n]);
    assert Footprint(w, run[m - 1]) !! Footprint(w, run[n]);
    LockSetSuffices(v, e, run[n]);
  }

  lemma SameLockSet(w: Workflow, v: Workflow, e: Uid)
    requires v == w.(events := v.events)
    ensures LockSet(v, e) == LockSet(w, e)
  {
    assert forall x :: Dependents(v, x) == Dependents(w, x);
    assert Effects(v, e) == Effects(w, e);
  }

  lemma IndependentAt(w: Workflow, a: seq<Uid>, b: seq<Uid>, k: Uid)
    requires Structured(w) && AllEvents(w, a) && AllEvents(w, b) && Independent(w, a) && Independent(w, b)
    requires Elements(a) == Elements(b)
    ensures EventAt(Run(w, a).events, k) == EventAt(Run(w, b).events, k)
  {
    if n :| 0 <= n < |a| && k in Touched(w, a[n]) {
      assert a[n] in Elements(a);
      var m :| 0 <= m < |b| && b[m] == a[n];
      TouchedOnce(w, a, k, n);
      TouchedOnce(w, b, k, m);
      RunTouchedOnce(w, a, k, n);
      RunTouchedOnce(w, b, k, m);
    } else {
      forall m | 0 <= m < |b| ensures k !in Touched(w, b[m]) {
        assert b[m] in Elements(b);
        var n :| 0 <= n < |a| && a[n] == b[m];
      }
      RunUntouched(w, a, k);
      RunUntouched(w, b, k);
    }
  }

  /** All orders of such events end in the same marking. */
  lemma IndependentOrdersAgree(w: Workflow, a: seq<Uid>, b: seq<Uid>)
    requires Structured(w) && AllEvents(w, a) && AllEvents(w, b) && Independent(w, a) && Independent(w, b)
    requires Elements(a) == Elements(b)
    ensures Run(w, a) == Run(w, b)
  {
    RunKeeps(w, a);
    RunKeeps(w, b);
    forall k ensures EventAt(Run(w, a).events, k) == EventAt(Run(w, b).events, k) {
      IndependentAt(w, a, b, k);
    }
    SameStore(Run(w, a).events, Run(w, b).events);
  }

  /** Serializability: enabled events with disjoint footprints, executed in any order, are legal at each
      step and give one final marking. */
  lemma Serializability(w: Workflow, a: seq<Uid>, b: seq<Uid>)
    requires Structured(w) && AllEvents(w, a) && Independent(w, a)
    requires forall i | 0 <= i < |a| :: Enabled(w, a[i])
    requires multiset(b) == multiset(a)
    ensures forall n | 0 <= n < |b| :: Enabled(Run(w, b[..n]), b[n])
    ensures Run(w, b) == Run(w, a)
  {
    PermutationIsIndependent(w, a, b);
    forall i | 0 <= i < |b| ensures IsEvent(w, b[i]) && Enabled(w, b[i]) {
      assert b[i] in multiset(b);
      var j :| 0 <= j < |a| && a[j] == b[i];
      assert IsEvent(w, a[j]);
    }
    forall n | 0 <= n < |b| ensures Enabled(Run(w, b[..n]), b[n]) {
      IndependentRunIsLegal(w, b, n);
    }
    SameElements(a, b);
    IndependentOrdersAgree(w, b, a);
  }

  lemma SameElements(a: seq<Uid>, b: seq<Uid>)
    requires multiset(b) == multiset(a)
    ensures Elements(a) == Elements(b)
  {
    forall x ensures x in Elements(a) <==> x in Elements(b) {
      assert x in a <==> x in multiset(a);
      assert x in b <==> x in multiset(b);
    }
  }

  lemma {:induction false} OccursTwice(s: seq<Uid>, i: nat, j: nat)
    requires i < j < |s| && s[i] == s[j]
    ensures multiset(s)[s[i]] >= 2
  {
    assert s == s[..i] + [s[i]] + s[i + 1..j] + [s[j]] + s[j + 1..];
  }

  lemma {:induction false} OccursOnce(s: seq<Uid>, i: nat)
    requires i < |s| && forall j | 0 <= j < |s| && j != i :: s[j] != s[i]
    ensures multiset(s)[s[i]] == 1
  {
    assert s == s[..i] + [s[i]] + s[i + 1..];
    assert s[i] !in multiset(s[..i]) && s[i] !in multiset(s[i + 1..]);
  }

  lemma PermutationIsIndependent(w: Workflow, a: seq<Uid>, b: seq<Uid>)
    requires Independent(w, a) && multiset(b) == multiset(a)
    ensures Independent(w, b)
  {
    forall i, j | 0 <= i < j < |b| ensures Footprint(w, b[i]) !! Footprint(w, b[j]) {
      assert b[i] in multiset(b) && b[j] in multiset(b);
      var k :| 0 <= k < |a| && a[k] == b[i];
      var l :| 0 <= l < |a| && a[l] == b[j];
      if k == l {
        OccursTwice(b, i, j);
        DistinctFootprints(w, a, k);
        OccursOnce(a, k);
        assert false;
      } else if k < l {
        assert Footprint(w, a[k]) !! Footprint(w, a[l]);
      } else {
        assert Footprint(w, a[l]) !! Footprint(w, a[k]);
      }
    }
  }

  lemma DistinctFootprints(w: Workflow, a: seq<Uid>, k: nat)
    requires Independent(w, a) && k < |a|
    ensures forall j | 0 <= j < |a| && j != k :: a[j] != a[k]
  {
    forall j | 0 <= j < |a| && j != k ensures a[j] != a[k] {
      assert a[k] in Footprint(w, a[k]) && a[j] in Footprint(w, a[j]);
      assert if j < k then Footprint(w, a[j]) !! Footprint(w, a[k]) else Footprint(w, a[k]) !! Footprint(w, a[j]);
    }
  }

  // ---- Dropping a repeated execution

  /** What a replay does between two executions of e, when it writes to nothing e writes to. */
  lemma RepeatAt(w: Workflow, e: Uid, between: seq<Uid>, k: Uid)
    requires Structured(Execute(w, e)) && IsEvent(w, e) && AllEvents(Execute(w, e), between)
    requires forall i | 0 <= i < |between| :: Touched(w, between[i]) !! Touched(w, e)
    requires k in Touched(w, e)
    ensures EventAt(Run(Execute(w, e), between).events, k) == StateAfter(w, e, k)
  {
    ExecuteAt(w, e, k);
    var w1 := Execute(w, e);
    forall i | 0 <= i < |between| ensures k !in Touched(w1, between[i]) {
      assert Touched(w, between[i]) !! Touched(w, e);
      assert Effects(w1, between[i]) == Effects(w, between[i]);
    }
    RunUntouched(w1, between, k);
  }

  lemma EventsStay(w: Workflow, w': Workflow, run: seq<Uid>)
    requires AllEvents(w, run) && IdsMatch(w') && w'.events.Keys == w.events.Keys
    ensures AllEvents(w', run)
  {
    forall i | 0 <= i < |run| ensures IsEvent(w', run[i]) {
      assert IsEvent(w, run[i]);
    }
  }

  /** Executing e again changes nothing where the state is what e left. */
  lemma RepeatChangesNothingAt(w: Workflow, e: Uid, w2: Workflow, k: Uid)
    requires w2 == w.(events := w2.events) && IsEvent(w2, e)
    requires k in Touched(w, e) ==> EventAt(w2.events, k) == StateAfter(w, e, k)
    ensures EventAt(Execute(w2, e).events, k) == EventAt(w2.events, k)
  {
    ExecuteAt(w2, e, k);
  }

  /** In a replay, an EXEC of e that repeats an earlier one can be dropped if nothing executed in
      between writes to what e writes to. */
  lemma RepeatedExecutionCanBeDropped(w: Workflow, e: Uid, between: seq<Uid>)
    requires Structured(w) && IsEvent(w, e) && AllEvents(w, between)
    requires forall i | 0 <= i < |between| :: Touched(w, between[i]) !! Touched(w, e)
    ensures Execute(Run(Execute(w, e), between), e) == Run(Execute(w, e), between)
  {
    var w1 := Execute(w, e);
    ExecuteKeepsStructure(w, e);
    EventsStay(w, w1, between);
    RunKeeps(w1, between);
    var w2 := Run(w1, between);
    ExecuteKeys(w2, e);
    forall k ensures EventAt(Execute(w2, e).events, k) == EventAt(w2.events, k) {
      if k in Touched(w, e) {
        RepeatAt(w, e, between, k);
      }
      RepeatChangesNothingAt(w, e, w2, k);
    }
    SameStore(Execute(w2, e).events, w2.events);
  }
}

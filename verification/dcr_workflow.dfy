/** The class `dcr_workflow` of enclave/dcr.h: its maps, and the loops of enclave/dcr.cpp over them. */
module DcrWorkflows {
  import opened Uids
  import opened Workflows
  import opened DcrTheorems
  import opened Flattening

  lemma DependentsOfMore(w: Workflow, ids: seq<Uid>, i: nat)
    requires i < |ids|
    ensures DependentsOf(w, Elements(ids[..i + 1])) == DependentsOf(w, Elements(ids[..i])) + Dependents(w, ids[i])
  {
    assert ids[..i + 1] == ids[..i] + [ids[i]];
    assert Elements(ids[..i + 1]) == Elements(ids[..i]) + {ids[i]};
  }

  /** What one round of the loop over the event store adds. */
  function WithEvent(w: Workflow, r: Intermediate, k: Uid): Intermediate
    requires k in w.events
  {
    var event := w.events[k];
    Intermediate(
      r.eventIds + [k],
      if event.excluded then r.excluded + [k] else r.excluded,
      if event.pending then r.pending + [k] else r.pending,
      if event.executed then r.executed + [k] else r.executed,
      WithList(r.conditions, k, Related(w.conditionsTo, k)), WithList(r.milestones, k, Related(w.milestonesTo, k)),
      WithList(r.excludes, k, Related(w.excludesTo, k)), WithList(r.includes, k, Related(w.includesTo, k)),
      WithList(r.responses, k, Related(w.responsesTo, k)))
  }

  lemma FlattenNext(w: Workflow, ks: seq<Uid>, i: nat)
    requires i < |ks| && ks[i] in w.events
    ensures FlattenKeys(w, ks[..i + 1]) == WithEvent(w, FlattenKeys(w, ks[..i]), ks[i])
  {
    assert ks[..i + 1] == ks[..i] + [ks[i]];
    FlattenOneMore(w, ks[..i], ks[i]);
  }

  lemma FlattenOneMore(w: Workflow, ks: seq<Uid>, k: Uid)
    requires k in w.events
    ensures FlattenKeys(w, ks + [k]) == WithEvent(w, FlattenKeys(w, ks), k)
  {
    assert (ks + [k])[..|ks|] == ks;
    assert EventAt(w.events, k) == w.events[k];
    FlatOneMore(w.conditionsTo, ks, k);
    FlatOneMore(w.milestonesTo, ks, k);
    FlatOneMore(w.excludesTo, ks, k);
    FlatOneMore(w.includesTo, ks, k);
    FlatOneMore(w.responsesTo, ks, k);
    FlaggedOneMore(w.events, ks, k, IsExcluded);
    FlaggedOneMore(w.events, ks, k, IsPending);
    FlaggedOneMore(w.events, ks, k, IsExecuted);
  }

  function WithList(f: FlatRelation, k: Uid, xs: seq<Uid>): FlatRelation {
    FlatRelation(f.outs + Copies(k, |xs|), f.ins + xs)
  }

  lemma FlatOneMore(relation: Relation, ks: seq<Uid>, k: Uid)
    ensures FlatOf(relation, ks + [k]) == WithList(FlatOf(relation, ks), k, Related(relation, k))
  {
    assert (ks + [k])[..|ks|] == ks;
  }

  lemma FlaggedOneMore(store: EventStore, ks: seq<Uid>, k: Uid, flag: Flag)
    ensures Flagged(store, ks + [k], flag)
         == if HasFlag(EventAt(store, k), flag) then Flagged(store, ks, flag) + [k] else Flagged(store, ks, flag)
  {
    assert (ks + [k])[..|ks|] == ks;
  }

  class DcrWorkflow {
    var eventStore: EventStore
    var excludesTo: Relation
    var includesTo: Relation
    var responsesTo: Relation
    var conditionsTo: Relation
    var milestonesTo: Relation
    var conditionsFrom: Relation
    var milestonesFrom: Relation

    function Value(): Workflow
      reads this
    {
      Workflow(eventStore, excludesTo, includesTo, responsesTo, conditionsTo, milestonesTo, conditionsFrom, milestonesFrom)
    }

    /** `event_store[id]`, which leaves a zeroed event where there was none. */
    method LookUp(id: Uid) returns (event: Event)
      modifies this`eventStore
      ensures event == EventAt(old(eventStore), id)
      ensures eventStore == old(eventStore)[id := event]
    {
      event := EventAt(eventStore, id);
      eventStore := eventStore[id := event];
    }

    /** The scan of the conditions, which stops at the first one that holds the event back. */
    method ConditionsMet(ids: seq<Uid>) returns (met: bool)
      modifies this`eventStore
      ensures met <==> forall c | c in ids :: ConditionMet(old(eventStore), c)
      ensures forall k :: EventAt(eventStore, k) == EventAt(old(eventStore), k)
      ensures Elements(ids) <= old(eventStore).Keys ==> eventStore == old(eventStore)
    {
      for i := 0 to |ids|
        invariant forall j | 0 <= j < i :: ConditionMet(old(eventStore), ids[j])
        invariant forall k :: EventAt(eventStore, k) == EventAt(old(eventStore), k)
        invariant Elements(ids) <= old(eventStore).Keys ==> eventStore == old(eventStore)
      {
        assert ids[i] in Elements(ids);
        var condition := LookUp(ids[i]);
        if !condition.executed && !condition.excluded {
          assert !ConditionMet(old(eventStore), ids[i]);
          return false;
        }
      }
      return true;
    }

    method MilestonesMet(ids: seq<Uid>) returns (met: bool)
      modifies this`eventStore
      ensures met <==> forall m | m in ids :: MilestoneMet(old(eventStore), m)
      ensures forall k :: EventAt(eventStore, k) == EventAt(old(eventStore), k)
      ensures Elements(ids) <= old(eventStore).Keys ==> eventStore == old(eventStore)
    {
      for i := 0 to |ids|
        invariant forall j | 0 <= j < i :: MilestoneMet(old(eventStore), ids[j])
        invariant forall k :: EventAt(eventStore, k) == EventAt(old(eventStore), k)
        invariant Elements(ids) <= old(eventStore).Keys ==> eventStore == old(eventStore)
      {
        assert ids[i] in Elements(ids);
        var milestone := LookUp(ids[i]);
        if milestone.pending && !milestone.excluded {
          assert !MilestoneMet(old(eventStore), ids[i]);
          return false;
        }
      }
      return true;
    }

    /** is_event_enabled. Asking about an event of a closed workflow changes nothing; asking about
        another id may leave zeroed events behind, which no lookup can tell from missing ones. */
    method IsEventEnabled(id: Uid) returns (enabled: bool)
      modifies this`eventStore
      ensures enabled <==> Enabled(old(Value()), id)
      ensures forall k :: EventAt(eventStore, k) == EventAt(old(eventStore), k)
      ensures id in old(eventStore) && References(old(Value())) ==> Value() == old(Value())
    {
      var event := LookUp(id);
      if event.excluded {
        return false;
      }
      ghost var before := Value();
      if References(old(Value())) {
        ClosedAt(old(Value()), conditionsFrom, event.id);
        ClosedAt(old(Value()), milestonesFrom, event.id);
      }
      assert forall x :: ConditionMet(before.events, x) <==> ConditionMet(old(eventStore), x);
      var met := ConditionsMet(Related(conditionsFrom, event.id));
      if !met {
        return false;
      }
      assert forall x :: MilestoneMet(eventStore, x) <==> MilestoneMet(old(eventStore), x);
      enabled := MilestonesMet(Related(milestonesFrom, event.id));
    }

    /** The loop that sets `excluded` of each event of a list. */
    method MarkExcluded(ids: seq<Uid>, value: bool)
      modifies this`eventStore
      ensures eventStore == SetExcluded(old(eventStore), ids, value)
    {
      for i := 0 to |ids|
        invariant eventStore == SetExcluded(old(eventStore), ids[..i], value)
      {
        eventStore := eventStore[ids[i] := EventAt(eventStore, ids[i]).(excluded := value)];
        assert ids[..i + 1][..i] == ids[..i];
      }
      assert ids[..|ids|] == ids;
    }

    method MarkPending(ids: seq<Uid>)
      modifies this`eventStore
      ensures eventStore == SetPending(old(eventStore), ids)
    {
      for i := 0 to |ids|
        invariant eventStore == SetPending(old(eventStore), ids[..i])
      {
        eventStore := eventStore[ids[i] := EventAt(eventStore, ids[i]).(pending := true)];
        assert ids[..i + 1][..i] == ids[..i];
      }
      assert ids[..|ids|] == ids;
    }

    method MarkExecuted(ids: seq<Uid>)
      modifies this`eventStore
      ensures eventStore == SetExecuted(old(eventStore), ids)
    {
      for i := 0 to |ids|
        invariant eventStore == SetExecuted(old(eventStore), ids[..i])
      {
        eventStore := eventStore[ids[i] := EventAt(eventStore, ids[i]).(executed := true)];
        assert ids[..i + 1][..i] == ids[..i];
      }
      assert ids[..|ids|] == ids;
    }

    /** set_event_executed */
    method SetEventExecuted(id: Uid)
      modifies this`eventStore
      ensures Value() == Execute(old(Value()), id)
    {
      var event := LookUp(id);
      eventStore := eventStore[id := EventAt(eventStore, id).(executed := true)];
      eventStore := eventStore[id := EventAt(eventStore, id).(pending := false)];
      assert eventStore == old(eventStore)[id := event.(executed := true, pending := false)];
      MarkExcluded(Related(excludesTo, event.id), true);
      MarkExcluded(Related(includesTo, event.id), false);
      MarkPending(Related(responsesTo, event.id));
    }

    /** The loop over the locked events that collects what depends on them. */
    method GetConstraints(lockSet: set<Uid>) returns (constraints: set<Uid>)
      ensures constraints == DependentsOf(Value(), lockSet)
    {
      var locks := InOrder(lockSet);
      constraints := {};
      for i := 0 to |locks|
        invariant constraints == DependentsOf(Value(), Elements(locks[..i]))
      {
        DependentsOfMore(Value(), locks, i);
        constraints := constraints + Elements(Related(conditionsTo, locks[i]));
        constraints := constraints + Elements(Related(milestonesTo, locks[i]));
      }
      assert locks[..|locks|] == locks;
      assert Elements(locks) == lockSet;
    }

    /** get_lock_set */
    method GetLockSet(id: Uid) returns (lockSet: set<Uid>)
      ensures lockSet == LockSet(Value(), id)
    {
      lockSet := Elements(Related(excludesTo, id)) + Elements(Related(includesTo, id)) + Elements(Related(responsesTo, id));
      var constraints := GetConstraints(lockSet);
      lockSet := lockSet + constraints;
    }

    /** get_inform_set */
    method GetInformSet(id: Uid) returns (informSet: set<Uid>)
      ensures informSet == InformSet(Value(), id)
    {
      var lockSet := GetLockSet(id);
      informSet := lockSet + Elements(Related(conditionsTo, id)) + Elements(Related(milestonesTo, id));
    }

    /** The loop that writes one key's list into a pair of flat lists. */
    method AppendPairs(f: FlatRelation, k: Uid, xs: seq<Uid>) returns (r: FlatRelation)
      ensures r == WithList(f, k, xs)
    {
      var outs, ins := f.outs, f.ins;
      for i := 0 to |xs|
        invariant outs == f.outs + Copies(k, i) && ins == f.ins + xs[..i]
      {
        ins := ins + [xs[i]];
        outs := outs + [k];
      }
      assert xs[..|xs|] == xs;
      r := FlatRelation(outs, ins);
    }

    /** One round of the loop over the event store in create_intermediate. */
    method AddEvent(r: Intermediate, k: Uid) returns (r': Intermediate)
      requires k in eventStore
      ensures r' == WithEvent(Value(), r, k)
    {
      var event := eventStore[k];
      var conditions := AppendPairs(r.conditions, k, Related(conditionsTo, k));
      var milestones := AppendPairs(r.milestones, k, Related(milestonesTo, k));
      var excludes := AppendPairs(r.excludes, k, Related(excludesTo, k));
      var includes := AppendPairs(r.includes, k, Related(includesTo, k));
      var responses := AppendPairs(r.responses, k, Related(responsesTo, k));
      r' := Intermediate(
        r.eventIds + [k],
        if event.excluded then r.excluded + [k] else r.excluded,
        if event.pending then r.pending + [k] else r.pending,
        if event.executed then r.executed + [k] else r.executed,
        conditions, milestones, excludes, includes, responses);
    }

    /** create_intermediate */
    method CreateIntermediate() returns (r: Intermediate)
      ensures r == Flatten(Value())
    {
      var ks := InOrder(eventStore.Keys);
      r := Intermediate([], [], [], [], NO_PAIRS, NO_PAIRS, NO_PAIRS, NO_PAIRS, NO_PAIRS);
      for i := 0 to |ks|
        invariant r == FlattenKeys(Value(), ks[..i])
      {
        assert ks[i] in ks;
        FlattenNext(Value(), ks, i);
        r := AddEvent(r, ks[i]);
      }
      assert ks[..|ks|] == ks;
    }

    /** The loop that builds an outgoing relation and the relation that inverts it. */
    static method BuildRelation(f: FlatRelation) returns (to: Relation, from: Relation)
      requires Paired(f)
      ensures to == BuildTo(f) && from == BuildTo(Swapped(f))
    {
      to, from := map[], map[];
      for i := 0 to |f.outs|
        invariant to == BuildTo(FlatRelation(f.outs[..i], f.ins[..i]))
        invariant from == BuildTo(Swapped(FlatRelation(f.outs[..i], f.ins[..i])))
      {
        to := Push(to, f.outs[i], f.ins[i]);
        from := Push(from, f.ins[i], f.outs[i]);
        assert f.outs[..i + 1][..i] == f.outs[..i] && f.ins[..i + 1][..i] == f.ins[..i];
      }
      assert f.outs[..|f.outs|] == f.outs && f.ins[..|f.ins|] == f.ins;
    }

    /** The part of make_workflow that fills the event store. */
    method LoadEvents(i: Intermediate)
      requires eventStore == map[]
      modifies this`eventStore
      ensures eventStore == BuildStore(i)
    {
      for n := 0 to |i.eventIds|
        invariant eventStore == BuildEvents(i.eventIds[..n])
      {
        eventStore := eventStore[i.eventIds[n] := NO_EVENT.(id := i.eventIds[n])];
        assert i.eventIds[..n + 1][..n] == i.eventIds[..n];
      }
      assert i.eventIds[..|i.eventIds|] == i.eventIds;
      MarkExcluded(i.excluded, true);
      MarkPending(i.pending);
      MarkExecuted(i.executed);
    }

    /** make_workflow. The relations, which no other part reads, are built before the events. */
    constructor FromIntermediate(i: Intermediate)
      requires Complete(i)
      ensures Value() == Rebuild(i)
    {
      var conditions, conditionsBack := BuildRelation(i.conditions);
      var milestones, milestonesBack := BuildRelation(i.milestones);
      var excludes, excludesBack := BuildRelation(i.excludes);
      var includes, includesBack := BuildRelation(i.includes);
      var responses, responsesBack := BuildRelation(i.responses);
      conditionsTo, conditionsFrom := conditions, conditionsBack;
      milestonesTo, milestonesFrom := milestones, milestonesBack;
      excludesTo, includesTo, responsesTo := excludes, includes, responses;
      eventStore := map[];
      new;
      LoadEvents(i);
    }
  }
}

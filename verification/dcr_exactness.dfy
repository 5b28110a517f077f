/** Lock and inform sets hold nothing they need not hold: an event is in one exactly when, in some marking, an
    execution changes what its enabledness depends on. */
module DcrExactness {
  import opened Uids
  import opened Workflows
  import opened DcrTheorems

  /** Another marking of the same events and relations. */
  ghost predicate MarkingOf(w: Workflow, v: Workflow) {
    v == w.(events := v.events) && v.events.Keys == w.events.Keys && IdsMatch(v)
  }

  /** In this marking, executing e changes whether x is included, or makes x pending. */
  predicate Disturbs(v: Workflow, e: Uid, x: Uid) {
    var before, after := EventAt(v.events, x), EventAt(Execute(v, e).events, x);
    after.excluded != before.excluded || (after.pending && !before.pending)
  }

  predicate Alters(v: Workflow, e: Uid, x: Uid) {
    EventAt(Execute(v, e).events, x) != EventAt(v.events, x)
  }

  ghost predicate CanDisturb(w: Workflow, e: Uid, x: Uid) {
    exists v :: MarkingOf(w, v) && Disturbs(v, e, x)
  }

  ghost predicate CanAlter(w: Workflow, e: Uid, x: Uid) {
    exists v :: MarkingOf(w, v) && Alters(v, e, x)
  }

  /** The conditions and milestones of f. */
  predicate Awaits(w: Workflow, f: Uid, x: Uid) {
    x in Related(w.conditionsFrom, f) || x in Related(w.milestonesFrom, f)
  }

  /** The marking of w with other flags for x. */
  function Marked(w: Workflow, x: Uid, executed: bool, excluded: bool, pending: bool): Workflow {
    w.(events := w.events[x := Event(x, executed, excluded, pending)])
  }

  lemma MarkedIsMarking(w: Workflow, x: Uid, executed: bool, excluded: bool, pending: bool)
    requires IdsMatch(w) && x in w.events
    ensures MarkingOf(w, Marked(w, x, executed, excluded, pending))
  {}

  lemma MarkingKeepsEvent(w: Workflow, v: Workflow, e: Uid)
    requires IsEvent(w, e) && MarkingOf(w, v)
    ensures IsEvent(v, e)
  {
    assert e in v.events;
  }

  lemma EffectCanDisturb(w: Workflow, e: Uid, x: Uid)
    requires IdsMatch(w) && References(w) && IsEvent(w, e) && x in Effects(w, e)
    ensures CanDisturb(w, e, x)
  {
    EffectsInside(w, e);
    var v := Marked(w, x, false, x in Related(w.includesTo, e), false);
    MarkedIsMarking(w, x, false, x in Related(w.includesTo, e), false);
    MarkingKeepsEvent(w, v, e);
    ExecuteAt(v, e, x);
    assert MarkingOf(w, v) && Disturbs(v, e, x);
  }

  lemma DisturbedIsEffect(w: Workflow, e: Uid, x: Uid)
    requires IsEvent(w, e) && CanDisturb(w, e, x)
    ensures x in Effects(w, e)
  {
    var v :| MarkingOf(w, v) && Disturbs(v, e, x);
    MarkingKeepsEvent(w, v, e);
    ExecuteAt(v, e, x);
  }

  lemma AwaitedIffDependent(w: Workflow, f: Uid, x: Uid)
    requires Inverses(w)
    ensures Awaits(w, f, x) <==> f in Dependents(w, x)
  {
    assert Mutual(w.conditionsTo, w.conditionsFrom, x, f);
    assert Mutual(w.milestonesTo, w.milestonesFrom, x, f);
  }

  /** The lock set is exact: f is locked for an execution of e just when, in some marking, that execution
      includes, excludes or makes pending f itself or an event f waits for. */
  lemma LockSetIsExact(w: Workflow, e: Uid, f: Uid)
    requires Structured(w) && IsEvent(w, e)
    ensures f in LockSet(w, e) <==> exists x :: (x == f || Awaits(w, f, x)) && CanDisturb(w, e, x)
  {
    if f in LockSet(w, e) {
      var x := f;
      if f !in Effects(w, e) {
        x :| x in Effects(w, e) && f in Dependents(w, x);
        AwaitedIffDependent(w, f, x);
      }
      EffectCanDisturb(w, e, x);
    }
    if x :| (x == f || Awaits(w, f, x)) && CanDisturb(w, e, x) {
      DisturbedIsEffect(w, e, x);
      AwaitedIffDependent(w, f, x);
    }
  }

  lemma EffectCanAlter(w: Workflow, e: Uid, x: Uid)
    requires CanDisturb(w, e, x)
    ensures CanAlter(w, e, x)
  {
    var v :| MarkingOf(w, v) && Disturbs(v, e, x);
    assert Alters(v, e, x);
  }

  lemma ItselfCanAlter(w: Workflow, e: Uid)
    requires IdsMatch(w) && IsEvent(w, e)
    ensures CanAlter(w, e, e)
  {
    var v := Marked(w, e, false, false, false);
    MarkedIsMarking(w, e, false, false, false);
    ExecuteAt(v, e, e);
    assert Alters(v, e, e);
  }

  lemma AlteredIsEffect(w: Workflow, e: Uid, x: Uid)
    requires IsEvent(w, e) && CanAlter(w, e, x)
    ensures x == e || x in Effects(w, e)
  {
    var v :| MarkingOf(w, v) && Alters(v, e, x);
    MarkingKeepsEvent(w, v, e);
    ExecuteAt(v, e, x);
  }

  lemma AlteredIff(w: Workflow, e: Uid, x: Uid)
    requires IdsMatch(w) && References(w) && IsEvent(w, e)
    ensures CanAlter(w, e, x) <==> x == e || x in Effects(w, e)
  {
    if x in Effects(w, e) {
      EffectCanDisturb(w, e, x);
      EffectCanAlter(w, e, x);
    }
    ItselfCanAlter(w, e);
    if CanAlter(w, e, x) {
      AlteredIsEffect(w, e, x);
    }
  }

  /** The inform set is exact: f is informed of e just when, in some marking, executing e includes, excludes or
      makes pending f, or changes an event f waits for in any way. */
  lemma InformSetIsExact(w: Workflow, e: Uid, f: Uid)
    requires Structured(w) && IsEvent(w, e)
    ensures f in InformSet(w, e) <==> CanDisturb(w, e, f) || exists x :: Awaits(w, f, x) && CanAlter(w, e, x)
  {
    LockSetIsExact(w, e, f);
    AwaitedIffDependent(w, f, e);
    AlteredIff(w, e, e);
    forall x | Awaits(w, f, x) ensures CanAlter(w, e, x) <==> x == e || CanDisturb(w, e, x) {
      AlteredIff(w, e, x);
      if x in Effects(w, e) {
        EffectCanDisturb(w, e, x);
      }
      if CanDisturb(w, e, x) {
        DisturbedIsEffect(w, e, x);
      }
    }
  }
}

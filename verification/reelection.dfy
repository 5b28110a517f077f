/** Why P3 holds of a run in which no peer leads a second time: only leaders record reports and collect
    locks, and a win is the only step P3 speaks of. */
module Reelections {
  import opened Uids
  import opened Workflows
  import opened PeerSpec
  import opened Clusters
  import opened ClusterSafety
  import opened Locks
  import opened LockRuns

  // ---- Only leaders collect

  predicate SameCollection(p: PeerState, p': PeerState) {
    p'.indices == p.indices && p'.lockedEvents == p.lockedEvents
  }

  lemma VotingCollectsNothing(p: PeerState, source: Uid, m: Message)
    requires |p.log| > 0
    ensures m.ElectionReq? ==> SameCollection(p, RecvElectionReq(p, source, m).peer)
    ensures m.ElectionRsp? ==> SameCollection(p, RecvElectionRsp(p, source, m).peer)
  {}

  lemma AcceptingCollectsNothing(p: PeerState, source: Uid, m: Message)
    requires m.AppendReq?
    ensures SameCollection(p, RecvAppendReq(p, source, m).peer)
  {}

  lemma OthersCollectNothing(p: PeerState, source: Uid, m: Message)
    requires p.role != Leader && m.AppendRsp? && AppendRspInBounds(p, source, m)
    ensures SameCollection(p, RecvAppendRsp(p, source, m).peer)
  {}

  lemma DeliveryCollectsNothing(p: PeerState, source: Uid, m: Message)
    requires p.role != Leader && |p.log| > 0 && (m.AppendRsp? ==> AppendRspInBounds(p, source, m))
    ensures SameCollection(p, Handle(p, source, m).peer)
  {
    match m
    case ElectionReq(_, _, _) => VotingCollectsNothing(p, source, m);
    case ElectionRsp(_, _, _) => VotingCollectsNothing(p, source, m);
    case AppendReq(_, _, _, _, _) => AcceptingCollectsNothing(p, source, m);
    case AppendRsp(_, _, _, _, _, _) => OthersCollectNothing(p, source, m);
  }

  /** A step of a peer that is not a leader leaves its reports and locks alone, also when it wins. */
  lemma OnlyLeadersCollect(cfg: Config, c: Cluster, s: Step)
    requires CanHappen(cfg, c, s) && InBounds(cfg, c, s) && !s.Lose? && c.peers[Actor(s)].role != Leader
    ensures SameCollection(c.peers[Actor(s)], EffectOf(cfg, c, s).peer)
  {
    if s.Deliver? {
      DeliveryCollectsNothing(c.peers[s.link.target], s.link.source, c.queues[s.link][0]);
    }
  }

  lemma StepCollectsNothing(cfg: Config, c: Cluster, s: Step, c': Cluster, p: Uid)
    requires CanHappen(cfg, c, s) && InBounds(cfg, c, s) && c' == Take(cfg, c, s)
    requires p in c.peers && p in c'.peers && c.peers[p].role != Leader
    ensures SameCollection(c.peers[p], c'.peers[p])
  {
    PeersAfterStep(cfg, c, s);
    if !s.Lose? && Actor(s) == p {
      OnlyLeadersCollect(cfg, c, s);
    }
  }

  // ---- A peer that never led

  ghost predicate LedAt(states: seq<Cluster>, i: nat, p: Uid) {
    i < |states| && p in states[i].peers && states[i].peers[p].role == Leader
  }

  /** Until moment n, peer p has not led. */
  ghost predicate NeverLed(states: seq<Cluster>, n: nat, p: Uid) {
    forall i {:trigger LedAt(states, i, p)} | 0 <= i <= n :: !LedAt(states, i, p)
  }

  lemma NoLeaderCollectsNothing(cfg: Config, states: seq<Cluster>, steps: seq<Step>, i: nat, p: Uid)
    requires IsDefinedRun(cfg, states, steps) && i < |steps| && p in states[i + 1].peers && !LedAt(states, i, p)
    ensures p in states[i].peers && SameCollection(PeerAt(states, i, p), PeerAt(states, i + 1, p))
  {
    StepOfDefinedRun(cfg, states, steps, i);
    PeersStay(cfg, states, steps, i, p);
    StepCollectsNothing(cfg, states[i], steps[i], states[i + 1], p);
  }

  lemma PeersStay(cfg: Config, states: seq<Cluster>, steps: seq<Step>, i: nat, p: Uid)
    requires IsDefinedRun(cfg, states, steps) && i < |steps| && p in states[i + 1].peers
    ensures p in states[i].peers
  {
    StepOfDefinedRun(cfg, states, steps, i);
    PeersAfterStep(cfg, states[i], steps[i]);
    if !steps[i].Lose? {
      ActorIsPeer(cfg, states[i], steps[i]);
    }
  }

  lemma {:induction false} NeverLedIsFresh(cfg: Config, states: seq<Cluster>, steps: seq<Step>, n: nat, p: Uid)
    requires InDefinedRun(cfg, states, steps, n, p) && NeverLed(states, n, p)
    ensures PeerAt(states, n, p).indices == map[] && PeerAt(states, n, p).lockedEvents == {}
    decreases n
  {
    assert !LedAt(states, n, p);
    if n > 0 {
      assert !LedAt(states, n - 1, p);
      NoLeaderCollectsNothing(cfg, states, steps, n - 1, p);
      NeverLedIsFresh(cfg, states, steps, n - 1, p);
    }
  }

  // ---- Runs in which no peer leads twice

  /** A step under P1, P2 and P4. */
  ghost predicate AdmittedAt(cfg: Config, states: seq<Cluster>, steps: seq<Step>, i: nat)
    requires i < |steps| && i + 1 < |states|
  {
    && Admitted(cfg, states[i], steps[i])
    && (InBounds(cfg, states[i], steps[i]) ==> states[i + 1] == Take(cfg, states[i], steps[i]))
  }

  /** A run in which P3 may fail. */
  ghost predicate IsAdmittedRun(cfg: Config, states: seq<Cluster>, steps: seq<Step>) {
    && ValidConfig(cfg)
    && |states| == |steps| + 1
    && Init(cfg, states[0])
    && forall i {:trigger AdmittedAt(cfg, states, steps, i)} | 0 <= i < |steps| :: AdmittedAt(cfg, states, steps, i)
  }

  /** This step makes the target of a message leader. */
  ghost predicate Wins(c: Cluster, s: Step) {
    && s.Deliver? && s.link in c.queues && c.queues[s.link] != [] && s.link.target in c.peers
    && var p, m := c.peers[s.link.target], c.queues[s.link][0];
       && |p.log| > 0 && m.ElectionRsp? && p.role != Leader
       && RecvElectionRsp(p, s.link.source, m).peer.role == Leader
  }

  /** Whoever wins has not led before. */
  ghost predicate NobodyLeadsTwice(states: seq<Cluster>, steps: seq<Step>) {
    && |states| == |steps| + 1
    && forall i {:trigger Wins(states[i], steps[i])} | 0 <= i < |steps| && Wins(states[i], steps[i]) ::
         NeverLed(states, i, steps[i].link.target)
  }

  lemma NoWinNeedsNoP3(cfg: Config, c: Cluster, s: Step)
    requires CanHappen(cfg, c, s) && (Wins(c, s) ==> c.peers[s.link.target].indices == map[])
    ensures P3At(cfg, c, s)
  {}

  lemma ExtendRun(cfg: Config, states: seq<Cluster>, steps: seq<Step>, n: nat)
    requires n < |steps| && n + 1 < |states| && IsRun(cfg, states[..n + 1], steps[..n])
    requires Next(cfg, states[n], steps[n], states[n + 1])
    ensures IsRun(cfg, states[..n + 2], steps[..n + 1])
  {
    var all, taken := states[..n + 2], steps[..n + 1];
    forall i | 0 <= i < |taken| ensures StepAt(cfg, all, taken, i) {
      if i < n {
        assert StepAt(cfg, states[..n + 1], steps[..n], i);
      }
    }
  }

  lemma NeverLedBefore(states: seq<Cluster>, n: nat, p: Uid, before: seq<Cluster>)
    requires n < |states| && NeverLed(states, n, p) && before == states[..n + 1]
    ensures NeverLed(before, n, p)
  {
    forall i | 0 <= i <= n ensures !LedAt(before, i, p) {
      assert !LedAt(states, i, p);
    }
  }

  lemma WinnerIsFresh(cfg: Config, states: seq<Cluster>, steps: seq<Step>, n: nat)
    requires n < |steps| && |states| == |steps| + 1 && IsRun(cfg, states[..n + 1], steps[..n])
    requires Wins(states[n], steps[n]) && NeverLed(states, n, steps[n].link.target)
    ensures states[n].peers[steps[n].link.target].indices == map[]
  {
    var p, before := steps[n].link.target, states[..n + 1];
    NeverLedBefore(states, n, p, before);
    RunIsDefined(cfg, before, steps[..n]);
    NeverLedIsFresh(cfg, before, steps[..n], n, p);
    assert before[n] == states[n];
  }

  lemma NextStepIsPossible(cfg: Config, states: seq<Cluster>, steps: seq<Step>, n: nat)
    requires IsAdmittedRun(cfg, states, steps) && NobodyLeadsTwice(states, steps) && n < |steps|
    requires IsRun(cfg, states[..n + 1], steps[..n])
    ensures Next(cfg, states[n], steps[n], states[n + 1])
  {
    if Wins(states[n], steps[n]) {
      WinnerIsFresh(cfg, states, steps, n);
    }
    assert AdmittedAt(cfg, states, steps, n);
    NoWinNeedsNoP3(cfg, states[n], steps[n]);
  }

  lemma FirstStateIsRun(cfg: Config, states: seq<Cluster>, steps: seq<Step>)
    requires IsAdmittedRun(cfg, states, steps)
    ensures IsRun(cfg, states[..1], steps[..0])
  {}

  lemma {:induction false} PrefixIsRun(cfg: Config, states: seq<Cluster>, steps: seq<Step>, n: nat)
    requires IsAdmittedRun(cfg, states, steps) && NobodyLeadsTwice(states, steps) && n <= |steps|
    ensures IsRun(cfg, states[..n + 1], steps[..n])
  {
    if n == 0 {
      FirstStateIsRun(cfg, states, steps);
    } else {
      PrefixIsRun(cfg, states, steps, n - 1);
      NextStepIsPossible(cfg, states, steps, n - 1);
      ExtendRun(cfg, states, steps, n - 1);
    }
  }

  /** Where no peer leads twice, P3 need not be assumed. */
  lemma LeadingOnceMeetsP3(cfg: Config, states: seq<Cluster>, steps: seq<Step>)
    requires IsAdmittedRun(cfg, states, steps) && NobodyLeadsTwice(states, steps)
    ensures IsRun(cfg, states, steps)
  {
    PrefixIsRun(cfg, states, steps, |steps|);
    assert states[..|steps| + 1] == states && steps[..|steps|] == steps;
  }

  /** Nor, under P1 and P2 alone, its counterpart for locks. */
  lemma LeadingOnceIsOrderly(cfg: Config, states: seq<Cluster>, steps: seq<Step>)
    requires IsDefinedRun(cfg, states, steps) && NobodyLeadsTwice(states, steps)
    requires forall i {:trigger steps[i]} | 0 <= i < |steps| :: StepIsOrderly(states[i], steps[i], NO_EVENTS)
    ensures IsOrderlyRun(cfg, states, steps, ALL_EVENTS)
  {
    forall i | 0 <= i < |steps| ensures StepIsOrderly(states[i], steps[i], ALL_EVENTS) {
      assert StepIsOrderly(states[i], steps[i], NO_EVENTS);
      if Wins(states[i], steps[i]) {
        NeverLedIsFresh(cfg, states, steps, i, steps[i].link.target);
      }
    }
  }

  // ---- Locks a leader holds although nothing of its own is locked

  /** A leader holds collected locks only while a LOCK of its own event is open. */
  ghost predicate LocksBelong(p: PeerState) {
    p.role == Leader && p.lockedEvents != {} ==> exists t :: HasOwnLock(p, t)
  }

  /** Whoever wins has no collected locks, or finds a LOCK of its own event open. */
  ghost predicate WinsWithoutStrayLocks(c: Cluster, s: Step) {
    Wins(c, s) ==> c.peers[s.link.target].lockedEvents == {} || exists t :: HasOwnLock(c.peers[s.link.target], t)
  }

  lemma WinKeepsLocks(p: PeerState, source: Uid, m: Message)
    requires |p.log| > 0 && m.ElectionRsp?
    ensures var p' := RecvElectionRsp(p, source, m).peer;
      p'.lockedEvents == p.lockedEvents && p'.log == p.log && SameIdentity(p, p')
  {}

  lemma WinnerBelongsIff(p: PeerState, p': PeerState)
    requires p'.lockedEvents == p.lockedEvents && p'.log == p.log && SameIdentity(p, p') && p'.role == Leader
    ensures LocksBelong(p') <==> p.lockedEvents == {} || exists t :: HasOwnLock(p, t)
  {
    SameLocks(p, p');
  }

  lemma CollectingBelongs(w: Workflow, p: PeerState, p': PeerState, tag: Tag, answers: set<Uid>)
    requires KeepsCollecting(w, p, p', tag, answers, ALL_EVENTS) && LocksBelong(p)
    ensures LocksBelong(p')
  {
    if p'.role == Leader && p'.lockedEvents != {} {
      assert Within(p'.lockedEvents, ALL_EVENTS) == p'.lockedEvents;
      if p.lockedEvents != {} {
        var t :| HasOwnLock(p, t);
        assert HasOwnLock(p', t);
      } else {
        assert answers != {};
      }
    }
  }

  lemma LosersKeepOrder(c: Cluster, s: Step)
    requires StepIsOrderly(c, s, NO_EVENTS) && !Wins(c, s)
    ensures StepIsOrderly(c, s, ALL_EVENTS)
  {}

  lemma StepKeepsBelonging(cfg: Config, c: Cluster, s: Step, p: PeerState, p': PeerState)
    requires CanHappen(cfg, c, s) && InBounds(cfg, c, s) && !s.Lose?
    requires p == c.peers[Actor(s)] && p' == EffectOf(cfg, c, s).peer
    requires Orderly(cfg.workflow, p) && StepIsOrderly(c, s, ALL_EVENTS) && !IsAppendReq(c, s) && LocksBelong(p)
    ensures LocksBelong(p')
  {
    assert Within(p.lockedEvents, ALL_EVENTS) == p.lockedEvents;
    StepKeepsCollecting(cfg, c, s, p, ALL_EVENTS);
    CollectingBelongs(cfg.workflow, p, p', StepTag(s), StepAnswers(p, s));
  }

  /** A step of the peer itself that is neither a win nor an append request. */
  lemma ActorKeepsBelonging(cfg: Config, states: seq<Cluster>, steps: seq<Step>, i: nat, p: Uid)
    requires IsOrderlyRun(cfg, states, steps, NO_EVENTS) && i < |steps| && p in states[i].peers && p in states[i + 1].peers
    requires !steps[i].Lose? && Actor(steps[i]) == p && !IsAppendReq(states[i], steps[i]) && !Wins(states[i], steps[i])
    requires LocksBelong(PeerAt(states, i, p))
    ensures LocksBelong(PeerAt(states, i + 1, p))
  {
    LocksHold(cfg, states, steps, i, p, NO_EVENTS);
    PeerIsOrderly(cfg, states, steps, i, p, NO_EVENTS);
    StepOfDefinedRun(cfg, states, steps, i);
    PeersAfterStep(cfg, states[i], steps[i]);
    assert StepIsOrderly(states[i], steps[i], NO_EVENTS);
    LosersKeepOrder(states[i], steps[i]);
    StepKeepsBelonging(cfg, states[i], steps[i], PeerAt(states, i, p), PeerAt(states, i + 1, p));
  }

  lemma WinBecomes(cfg: Config, c: Cluster, s: Step, p: PeerState, p': PeerState)
    requires CanHappen(cfg, c, s) && InBounds(cfg, c, s) && Wins(c, s)
    requires p == c.peers[s.link.target] && p' == EffectOf(cfg, c, s).peer
    ensures p'.lockedEvents == p.lockedEvents && p'.log == p.log && SameIdentity(p, p') && p'.role == Leader
  {
    WinKeepsLocks(p, s.link.source, c.queues[s.link][0]);
  }

  lemma WinnerInRun(cfg: Config, states: seq<Cluster>, steps: seq<Step>, i: nat)
    requires IsDefinedRun(cfg, states, steps) && i < |steps| && Wins(states[i], steps[i])
    ensures steps[i].link.target in states[i + 1].peers
    ensures LocksBelong(states[i + 1].peers[steps[i].link.target]) <==> WinsWithoutStrayLocks(states[i], steps[i])
  {
    var p := states[i].peers[steps[i].link.target];
    StepOfDefinedRun(cfg, states, steps, i);
    PeersAfterStep(cfg, states[i], steps[i]);
    var p' := EffectOf(cfg, states[i], steps[i]).peer;
    WinBecomes(cfg, states[i], steps[i], p, p');
    WinnerBelongsIff(p, p');
  }

  lemma {:induction false} LocksBelongAt(cfg: Config, states: seq<Cluster>, steps: seq<Step>, i: nat, p: Uid)
    requires IsOrderlyRun(cfg, states, steps, NO_EVENTS) && i < |states| && p in states[i].peers
    requires forall j | 0 <= j < |steps| :: WinsWithoutStrayLocks(states[j], steps[j])
    ensures LocksBelong(PeerAt(states, i, p))
    decreases i
  {
    if i > 0 {
      var j := i - 1;
      PeersStay(cfg, states, steps, j, p);
      LocksBelongAt(cfg, states, steps, j, p);
      if steps[j].Lose? || Actor(steps[j]) != p {
        OthersKeepLocks(cfg, states, steps, j, p);
      } else if IsAppendReq(states[j], steps[j]) {
        var _, _ := AppendedLog(cfg, states, steps, j);
      } else if Wins(states[j], steps[j]) {
        assert WinsWithoutStrayLocks(states[j], steps[j]);
        WinnerInRun(cfg, states, steps, j);
      } else {
        ActorKeepsBelonging(cfg, states, steps, j, p);
      }
    }
  }

  /** Over a whole run, leaders hold collected locks only for an open LOCK of their own event exactly when
      no peer wins with locks of an earlier reign and no such LOCK in its log. */
  lemma LocksBelongIff(cfg: Config, states: seq<Cluster>, steps: seq<Step>)
    requires IsOrderlyRun(cfg, states, steps, NO_EVENTS)
    ensures (forall i, p | 0 <= i < |states| && p in states[i].peers :: LocksBelong(states[i].peers[p]))
      <==> forall j | 0 <= j < |steps| :: WinsWithoutStrayLocks(states[j], steps[j])
  {
    if forall j | 0 <= j < |steps| :: WinsWithoutStrayLocks(states[j], steps[j]) {
      forall i, p | 0 <= i < |states| && p in states[i].peers ensures LocksBelong(states[i].peers[p]) {
        LocksBelongAt(cfg, states, steps, i, p);
      }
    }
    if forall i, p | 0 <= i < |states| && p in states[i].peers :: LocksBelong(states[i].peers[p]) {
      forall j | 0 <= j < |steps| ensures WinsWithoutStrayLocks(states[j], steps[j]) {
        if Wins(states[j], steps[j]) {
          WinnerInRun(cfg, states, steps, j);
        }
      }
    }
  }
}

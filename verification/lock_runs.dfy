/** The lock protocol of one cluster over whole runs: every log stays disciplined, and an event is
    executed only after everything it locks has answered. The runs are those of which P1 and P2 are
    assumed; besides

    P3  a peer that wins an election has not collected, in an earlier reign, locks of the events in
        `scope`; results about collected locks say which scope they need, the others need none;
    P5  requests and answers from other clusters are honest: no ABORT, EXEC requests name their own
        event, and lock answers are to requests this cluster made;
    P6  no LOCK is in flight when a leader appends a LOCK or a CHECKPOINT, and nothing that would resolve
        an own LOCK is in flight when it counts a lock answer. */
module LockRuns {
  import opened Uids
  import opened Workflows
  import opened PeerSpec
  import opened Clusters
  import opened ClusterSafety
  import opened CatchingUp
  import opened DcrTheorems
  import opened Sending
  import opened Locks

  /** The part of a set that lies in a scope. */
  ghost function Within(s: set<Uid>, scope: iset<Uid>): set<Uid> {
    set x | x in s && x in scope
  }

  ghost const NO_EVENTS: iset<Uid> := iset{}
  ghost const ALL_EVENTS: iset<Uid> := iset x: Uid | true

  ghost predicate P3NoLocks(p: PeerState, source: Uid, m: Message, scope: iset<Uid>)
    requires |p.log| > 0
  {
    m.ElectionRsp? && p.role != Leader && RecvElectionRsp(p, source, m).peer.role == Leader ==>
      Within(p.lockedEvents, scope) == {}
  }

  ghost predicate StepIsOrderly(c: Cluster, s: Step, scope: iset<Uid>) {
    !s.Lose? && Actor(s) in c.peers ==>
      var p := c.peers[Actor(s)];
      && P5Honest(p, s) && P6Settled(p, s)
      && (s.Deliver? && s.link in c.queues && c.queues[s.link] != [] && |p.log| > 0 ==>
            P3NoLocks(p, s.link.source, c.queues[s.link][0], scope))
  }

  ghost predicate IsOrderlyRun(cfg: Config, states: seq<Cluster>, steps: seq<Step>, scope: iset<Uid>) {
    && IsDefinedRun(cfg, states, steps)
    && forall i {:trigger StepIsOrderly(states[i], steps[i], scope)} | 0 <= i < |steps| ::
         StepIsOrderly(states[i], steps[i], scope)
  }

  // ---- Who has answered

  predicate Answers(s: Step, p: Uid, tag: Tag) {
    s.CommandAnswer? && s.peer == p && s.rsp.tag == tag && (s.rsp.success || s.rsp.leader == EMPTY_UID)
  }

  /** The events whose clusters have answered p about the LOCK with this tag before step i. */
  function Answered(cfg: Config, steps: seq<Step>, i: nat, p: Uid, tag: Tag): set<Uid> {
    set j | 0 <= j < i && j < |steps| && Answers(steps[j], p, tag) :: EventIn(cfg.peerToEvent, steps[j].rsp.source)
  }

  lemma AnsweredGrows(cfg: Config, steps: seq<Step>, i: nat, p: Uid, tag: Tag)
    ensures Answered(cfg, steps, i, p, tag) <= Answered(cfg, steps, i + 1, p, tag)
  {}

  /** An own LOCK with this tag is open. */
  predicate HasOwnLock(p: PeerState, tag: Tag) {
    && |p.log| > 0 && tag.kind == Lock
    && exists k :: 0 <= k < |p.log| && OwnOpenLock(p.log, p.clusterEvent, tag.uid, |p.log|, k)
  }

  ghost predicate Sound(w: Workflow, p: PeerState) {
    Disciplined(w, p.clusterEvent, p.log) && (p.role == Leader ==> Anchored(p))
  }

  predicate SameIdentity(p: PeerState, p': PeerState) {
    p'.id == p.id && p'.clusterEvent == p.clusterEvent && p'.peerToEvent == p.peerToEvent
  }

  /** A peer that is not a leader, or an unchanged leader. */
  ghost predicate LocksUntouched(p: PeerState, p': PeerState) {
    && p'.log == p.log
    && (p'.role == Leader ==> p.role == Leader && p'.lastCheckpoint == p.lastCheckpoint && p'.lockedEvents == p.lockedEvents)
  }

  /** What a call may do to an own LOCK and to the locks of the scope collected for it; `answers` are the
      events that answer in this call, about the LOCK with tag `tag`. */
  ghost predicate KeepsCollecting(w: Workflow, p: PeerState, p': PeerState, tag: Tag, answers: set<Uid>, scope: iset<Uid>) {
    && Sound(w, p')
    && (p'.role == Leader && Within(p'.lockedEvents, scope) != {} ==>
          && p.role == Leader
          && p'.lockedEvents <= p.lockedEvents + answers
          && (forall t | HasOwnLock(p, t) :: HasOwnLock(p', t))
          && (answers != {} ==> HasOwnLock(p', tag) && forall t | HasOwnLock(p, t) :: t == tag))
  }

  // ---- Calls of the leader

  predicate IsCheckpointOr(log: seq<Entry>, k: nat, default: nat) {
    k == default || (k < |log| && log[k].tag.kind == Checkpoint)
  }

  lemma {:induction false} CheckpointInLog(log: seq<Entry>, lo: nat, hi: nat, default: nat)
    requires lo <= hi <= |log| && forall i | 0 <= i < |log| :: log[i].index == i
    ensures IsCheckpointOr(log, CheckpointIn(log[lo..hi], default), default)
    decreases hi
  {
    if lo < hi && log[hi - 1].tag.kind != Checkpoint {
      assert log[lo..hi][..hi - lo - 1] == log[lo..hi - 1];
      CheckpointInLog(log, lo, hi - 1, default);
    }
  }

  lemma CommitKeepsAnchor(p: PeerState, n: nat)
    requires Anchored(p) && n < |p.log| && forall i | 0 <= i < |p.log| :: p.log[i].index == i
    ensures Anchored(UpdateCommitIndex(p, n))
  {
    if n > p.commitIndex {
      CheckpointInLog(p.log, p.commitIndex + 1, n + 1, p.lastCheckpoint);
    }
  }

  /** append_to_log leaves everything but the log and the commit bookkeeping alone. */
  lemma AppendKeepsAnchor(p: PeerState, e: Entry)
    requires p.role == Leader && Anchored(p) && e.index == |p.log|
    requires forall i | 0 <= i < |p.log| :: p.log[i].index == i
    ensures var p' := AppendToLog(p, e).peer;
      && p'.log == p.log + [e] && p'.role == Leader && Anchored(p') && SameIdentity(p, p')
      && p'.lockedEvents == p.lockedEvents
  {
    var p1 := p.(log := p.log + [e]);
    assert p1.log[p1.lastCheckpoint] == p.log[p.lastCheckpoint];
    CommitKeepsAnchor(p1, |p1.log| - 1);
  }

  lemma OwnLockStays(p: PeerState, p': PeerState, e: Entry, t: Tag)
    requires p'.log == p.log + [e] && SameIdentity(p, p') && HasOwnLock(p, t)
    requires e.tag.kind == Lock || e.event != p.clusterEvent
    ensures HasOwnLock(p', t)
  {
    var k :| 0 <= k < |p.log| && OwnOpenLock(p.log, p.clusterEvent, t.uid, |p.log|, k);
    assert p'.log[k] == p.log[k];
    SameScansAfter(p.log, e, k);
    assert OwnOpenLock(p'.log, p'.clusterEvent, t.uid, |p'.log|, k);
  }

  lemma CommandKeepsCollecting(w: Workflow, p: PeerState, req: CommandReq, scope: iset<Uid>)
    requires Orderly(w, p) && p.role == Leader && HonestRequest(p, req) && CommandReqInBounds(p, req)
    requires AppendsLock(p, req) ==> NoLockInFlight(p)
    ensures KeepsCollecting(w, p, RecvCommandReq(p, req).peer, req.tag, {}, scope)
  {
    var entries, p' := EntryForCommand(p, req), RecvCommandReq(p, req).peer;
    if entries != [] {
      var e := entries[0];
      AppendKeepsAnchor(p, e);
      CommandIsWellPlaced(w, p, req);
      ExtensionIsDisciplined(w, p.clusterEvent, p.log, e);
      forall t | HasOwnLock(p, t) ensures HasOwnLock(p', t) {
        ImmediateHasNoOwnLock(w, p, req);
        OwnLockStays(p, p', e, t);
      }
    }
  }

  /** With an own LOCK in the log, the own event locks something, so nothing is executed at once. */
  lemma ImmediateHasNoOwnLock(w: Workflow, p: PeerState, req: CommandReq)
    requires Orderly(w, p) && HonestRequest(p, req) && CommandReqInBounds(p, req) && EntryForCommand(p, req) != []
    requires exists t :: HasOwnLock(p, t)
    ensures EntryForCommand(p, req)[0].tag.kind == Lock || EntryForCommand(p, req)[0].event != p.clusterEvent
  {
    var t :| HasOwnLock(p, t);
    var k :| 0 <= k < |p.log| && OwnOpenLock(p.log, p.clusterEvent, t.uid, |p.log|, k);
    assert WellPlaced(w, p.clusterEvent, p.log, k);
  }

  lemma CheckpointKeepsCollecting(w: Workflow, p: PeerState, e: Entry, p': PeerState, tag: Tag, scope: iset<Uid>)
    requires Orderly(w, p) && p.role == Leader && NoLockInFlight(p)
    requires p.commitIndex < |p.log| && !HasOpenLock(p.log, p.commitIndex, p.lastCheckpoint)
    requires e.tag.kind == Checkpoint && e.index == |p.log| && p' == AppendToLog(p, e).peer.(lastCheckpoint := e.index)
    requires Within(p.lockedEvents, scope) != {} ==> exists t :: HasOwnLock(p, t)
    ensures KeepsCollecting(w, p, p', tag, {}, scope)
  {
    AppendKeepsAnchor(p, e);
    CheckpointIsWellPlaced(w, p, e);
    ExtensionIsDisciplined(w, p.clusterEvent, p.log, e);
    NoOpenLockFound(w, p);
  }

  lemma TimerKeepsCollecting(w: Workflow, p: PeerState, idle: bool, tagUid: Uid, tag: Tag, scope: iset<Uid>)
    requires Orderly(w, p) && p.role == Leader && TimerInBounds(p, idle) && (CheckpointDue(p, idle) ==> NoLockInFlight(p))
    requires Within(p.lockedEvents, scope) != {} ==> exists t :: HasOwnLock(p, t)
    ensures KeepsCollecting(w, p, PeerSpec.Timeout(p, idle, tagUid).peer, tag, {}, scope)
  {
    if CheckpointDue(p, idle) {
      var e := NewEntry(p, p.clusterEvent, p.id, Tag(tagUid, Checkpoint));
      CheckpointKeepsCollecting(w, p, e, AppendToLog(p, e).peer.(lastCheckpoint := e.index), tag, scope);
    } else {
      UntouchedKeepsCollecting(w, p, PeerSpec.Timeout(p, idle, tagUid).peer, tag, scope);
    }
  }

  lemma AnswerIsForTheOpenLock(w: Workflow, p: PeerState, rsp: CommandRsp)
    requires Orderly(w, p) && NoOwnResolutionInFlight(p) && HonestAnswer(p, rsp)
    requires CommandRspInBounds(p, rsp) && LockAnswerCounts(p, rsp)
    ensures HasOwnLock(p, rsp.tag)
    ensures forall t | HasOwnLock(p, t) :: t == rsp.tag
  {
    AnsweredLock(w, p, rsp);
    var n := IndexOfTag(p.log, rsp.tag);
    forall t | HasOwnLock(p, t) ensures t == rsp.tag {
      var k :| 0 <= k < |p.log| && OwnOpenLock(p.log, p.clusterEvent, t.uid, |p.log|, k);
      OneOpenLock(w, p.clusterEvent, p.log, |p.log| - 1, k, n);
    }
  }

  /** With the last answer, all collected locks are spent. */
  lemma AllAnsweredKeepsCollecting(w: Workflow, p: PeerState, p1: PeerState, rsp: CommandRsp, scope: iset<Uid>)
    requires Orderly(w, p) && p.role == Leader && HonestAnswer(p, rsp) && CommandRspInBounds(p, rsp)
    requires LockAnswerCounts(p, rsp) && NoOwnResolutionInFlight(p)
    requires p1 == p.(lockedEvents := p.lockedEvents + {EventOfPeer(p, rsp.source)}) && LocksAcquired(p1)
    ensures KeepsCollecting(w, p, RecvCommandRsp(p, rsp).peer, rsp.tag, {EventOfPeer(p, rsp.source)}, scope)
  {
    var e := NewEntry(p1, p.clusterEvent, p.id, Tag(rsp.tag.uid, Exec));
    AppendKeepsAnchor(p1, e);
    CollectedExecIsWellPlaced(w, p, rsp, e);
    ExtensionIsDisciplined(w, p.clusterEvent, p.log, e);
  }

  lemma AnswerKeepsCollecting(w: Workflow, p: PeerState, rsp: CommandRsp, scope: iset<Uid>)
    requires Orderly(w, p) && p.role == Leader && HonestAnswer(p, rsp) && CommandRspInBounds(p, rsp)
    requires LockAnswerCounts(p, rsp) ==> NoOwnResolutionInFlight(p)
    ensures KeepsCollecting(w, p, RecvCommandRsp(p, rsp).peer, rsp.tag,
                            if LockAnswerCounts(p, rsp) then {EventOfPeer(p, rsp.source)} else {}, scope)
  {
    if LockAnswerCounts(p, rsp) {
      var p1 := p.(lockedEvents := p.lockedEvents + {EventOfPeer(p, rsp.source)});
      AnswerIsForTheOpenLock(w, p, rsp);
      if LocksAcquired(p1) {
        AllAnsweredKeepsCollecting(w, p, p1, rsp, scope);
      } else {
        SameLocks(p, p1);
      }
    }
  }

  lemma SameLocks(p: PeerState, p': PeerState)
    requires p'.log == p.log && SameIdentity(p, p')
    ensures forall t :: HasOwnLock(p, t) <==> HasOwnLock(p', t)
  {}

  /** The log does not change, and a leader stays as it was. */
  lemma UntouchedKeepsCollecting(w: Workflow, p: PeerState, p': PeerState, tag: Tag, scope: iset<Uid>)
    requires Sound(w, p) && SameIdentity(p, p') && LocksUntouched(p, p')
    ensures KeepsCollecting(w, p, p', tag, {}, scope)
  {
    SameLocks(p, p');
  }

  lemma WinKeepsCollecting(w: Workflow, p: PeerState, source: Uid, m: Message, tag: Tag, scope: iset<Uid>)
    requires Sound(w, p) && m.ElectionRsp? && P3NoLocks(p, source, m, scope)
    ensures KeepsCollecting(w, p, RecvElectionRsp(p, source, m).peer, tag, {}, scope)
  {
    LatestIsCheckpoint(p.log);
    if p.role == Leader {
      SameLocks(p, RecvElectionRsp(p, source, m).peer);
    }
  }

  lemma ReportedKeepsCollecting(w: Workflow, p: PeerState, p': PeerState, n: nat, tag: Tag, scope: iset<Uid>)
    requires Orderly(w, p) && p.role == Leader && n < |p.log|
    requires p' == p || p' == UpdateCommitIndex(p, n)
    ensures KeepsCollecting(w, p, p', tag, {}, scope)
  {
    CommitKeepsAnchor(p, n);
    SameLocks(p, p');
  }

  lemma OtherIndices(w: Workflow, p: PeerState, p1: PeerState, p': PeerState, tag: Tag, scope: iset<Uid>)
    requires KeepsCollecting(w, p1, p', tag, {}, scope) && p1 == p.(indices := p1.indices)
    ensures KeepsCollecting(w, p, p', tag, {}, scope)
  {
    SameLocks(p, p1);
  }

  lemma ReportKeepsCollecting(w: Workflow, p: PeerState, source: Uid, m: Message, tag: Tag, scope: iset<Uid>)
    requires Orderly(w, p) && m.AppendRsp? && AppendRspInBounds(p, source, m)
    ensures KeepsCollecting(w, p, RecvAppendRsp(p, source, m).peer, tag, {}, scope)
  {
    var p' := RecvAppendRsp(p, source, m).peer;
    if m.term <= p.term && p.role == Leader && m.success {
      var p1 := p.(indices := p.indices[source := m.lastIndex]);
      ReportedKeepsCollecting(w, p1, p', CommitRule.MajorityIndex(p1.indices), tag, scope);
      OtherIndices(w, p, p1, p', tag, scope);
    } else {
      UntouchedKeepsCollecting(w, p, p', tag, scope);
    }
  }

  // ---- Any step

  function StepTag(s: Step): Tag {
    if s.CommandAnswer? then s.rsp.tag else EMPTY_ENTRY.tag
  }

  function StepAnswers(p: PeerState, s: Step): set<Uid>
    requires s.CommandAnswer? ==> CommandRspInBounds(p, s.rsp)
  {
    if s.CommandAnswer? && LockAnswerCounts(p, s.rsp) then {EventOfPeer(p, s.rsp.source)} else {}
  }

  lemma AppendKeepsIdentity(p: PeerState, e: Entry)
    requires |p.log| > 0
    ensures SameIdentity(p, AppendToLog(p, e).peer)
  {}

  lemma RequestKeepsIdentity(p: PeerState, req: CommandReq)
    requires CommandReqInBounds(p, req)
    ensures SameIdentity(p, RecvCommandReq(p, req).peer)
  {
    var entries := EntryForCommand(p, req);
    if entries != [] {
      AppendKeepsIdentity(p, entries[0]);
    }
  }

  lemma TimerKeepsIdentity(p: PeerState, idle: bool, tagUid: Uid)
    requires TimerInBounds(p, idle)
    ensures SameIdentity(p, PeerSpec.Timeout(p, idle, tagUid).peer)
  {
    if p.role == Leader {
      AppendKeepsIdentity(p, NewEntry(p, p.clusterEvent, p.id, Tag(tagUid, Checkpoint)));
    }
  }

  lemma AnswerKeepsIdentity(p: PeerState, rsp: CommandRsp)
    requires CommandRspInBounds(p, rsp)
    ensures SameIdentity(p, RecvCommandRsp(p, rsp).peer)
  {
    if LockAnswerCounts(p, rsp) {
      var p1 := p.(lockedEvents := p.lockedEvents + {EventOfPeer(p, rsp.source)});
      AppendKeepsIdentity(p1, NewEntry(p1, p.clusterEvent, p.id, Tag(rsp.tag.uid, Exec)));
    }
  }

  lemma VoteKeepsIdentity(p: PeerState, source: Uid, m: Message)
    requires |p.log| > 0
    ensures m.ElectionReq? ==> SameIdentity(p, RecvElectionReq(p, source, m).peer)
    ensures m.ElectionRsp? ==> SameIdentity(p, RecvElectionRsp(p, source, m).peer)
  {}

  lemma AcceptKeepsIdentity(p: PeerState, source: Uid, m: Message)
    requires m.AppendReq?
    ensures SameIdentity(p, RecvAppendReq(p, source, m).peer)
  {}

  lemma ReportKeepsIdentity(p: PeerState, source: Uid, m: Message)
    requires m.AppendRsp? && AppendRspInBounds(p, source, m)
    ensures SameIdentity(p, RecvAppendRsp(p, source, m).peer)
  {}

  lemma HandleKeepsIdentity(p: PeerState, source: Uid, m: Message)
    requires |p.log| > 0 && (m.AppendRsp? ==> AppendRspInBounds(p, source, m))
    ensures SameIdentity(p, Handle(p, source, m).peer)
  {
    VoteKeepsIdentity(p, source, m);
    if m.AppendReq? {
      AcceptKeepsIdentity(p, source, m);
    } else if m.AppendRsp? {
      ReportKeepsIdentity(p, source, m);
    }
  }

  lemma StepKeepsIdentity(cfg: Config, c: Cluster, s: Step)
    requires CanHappen(cfg, c, s) && InBounds(cfg, c, s) && !s.Lose?
    ensures SameIdentity(c.peers[Actor(s)], EffectOf(cfg, c, s).peer)
  {
    match s
    case Timer(p, idle, tagUid) => TimerKeepsIdentity(c.peers[p], idle, tagUid);
    case PollWon(_) =>
    case Learn(_, _, _) =>
    case Command(p, req) => RequestKeepsIdentity(c.peers[p], req);
    case CommandAnswer(p, rsp) => AnswerKeepsIdentity(c.peers[p], rsp);
    case Deliver(l) => HandleKeepsIdentity(c.peers[l.target], l.source, c.queues[l][0]);
  }

  ghost predicate IsAppendReq(c: Cluster, s: Step) {
    s.Deliver? && s.link in c.queues && c.queues[s.link] != [] && c.queues[s.link][0].AppendReq?
  }

  lemma VoteKeepsCollecting(w: Workflow, p: PeerState, source: Uid, m: Message, tag: Tag, scope: iset<Uid>)
    requires Sound(w, p) && |p.log| > 0 && m.ElectionReq?
    ensures KeepsCollecting(w, p, RecvElectionReq(p, source, m).peer, tag, {}, scope)
  {
    VoteKeepsIdentity(p, source, m);
    UntouchedKeepsCollecting(w, p, RecvElectionReq(p, source, m).peer, tag, scope);
  }

  lemma DeliveryKeepsCollecting(w: Workflow, p: PeerState, source: Uid, m: Message, tag: Tag, scope: iset<Uid>)
    requires Orderly(w, p) && !m.AppendReq? && P3NoLocks(p, source, m, scope)
    requires m.AppendRsp? ==> AppendRspInBounds(p, source, m)
    ensures KeepsCollecting(w, p, Handle(p, source, m).peer, tag, {}, scope)
  {
    match m
    case ElectionReq(_, _, _) => VoteKeepsCollecting(w, p, source, m, tag, scope);
    case ElectionRsp(_, _, _) => WinKeepsCollecting(w, p, source, m, tag, scope);
    case AppendRsp(_, _, _, _, _, _) => ReportKeepsCollecting(w, p, source, m, tag, scope);
  }

  /** Every step but an accepted append keeps what was collected. */
  lemma StepKeepsCollecting(cfg: Config, c: Cluster, s: Step, p: PeerState, scope: iset<Uid>)
    requires CanHappen(cfg, c, s) && InBounds(cfg, c, s) && !s.Lose? && p == c.peers[Actor(s)]
    requires Orderly(cfg.workflow, p) && StepIsOrderly(c, s, scope) && !IsAppendReq(c, s)
    requires p.role == Leader && Within(p.lockedEvents, scope) != {} ==> exists t :: HasOwnLock(p, t)
    ensures KeepsCollecting(cfg.workflow, p, EffectOf(cfg, c, s).peer, StepTag(s), StepAnswers(p, s), scope)
  {
    var w, p' := cfg.workflow, EffectOf(cfg, c, s).peer;
    match s {
      case Deliver(l) => DeliveryKeepsCollecting(w, p, l.source, c.queues[l][0], StepTag(s), scope);
      case PollWon(_) => UntouchedKeepsCollecting(w, p, p', StepTag(s), scope);
      case Learn(_, _, _) => UntouchedKeepsCollecting(w, p, p', StepTag(s), scope);
      case Timer(_, idle, tagUid) =>
        if p.role == Leader {
          TimerKeepsCollecting(w, p, idle, tagUid, StepTag(s), scope);
        } else {
          UntouchedKeepsCollecting(w, p, p', StepTag(s), scope);
        }
      case Command(_, req) =>
        if p.role == Leader {
          CommandKeepsCollecting(w, p, req, scope);
          SameForAnyTag(w, p, p', req.tag, StepTag(s), scope);
        } else {
          UntouchedKeepsCollecting(w, p, p', StepTag(s), scope);
        }
      case CommandAnswer(_, rsp) =>
        if p.role == Leader {
          AnswerKeepsCollecting(w, p, rsp, scope);
        } else {
          UntouchedKeepsCollecting(w, p, p', StepTag(s), scope);
        }
    }
  }

  lemma SameForAnyTag(w: Workflow, p: PeerState, p': PeerState, t: Tag, u: Tag, scope: iset<Uid>)
    requires KeepsCollecting(w, p, p', t, {}, scope)
    ensures KeepsCollecting(w, p, p', u, {}, scope)
  {}

  // ---- Whole runs

  ghost predicate Collected(cfg: Config, steps: seq<Step>, i: nat, p: Uid, s: PeerState, scope: iset<Uid>) {
    s.role == Leader && Within(s.lockedEvents, scope) != {} ==>
      exists t :: HasOwnLock(s, t) && Within(s.lockedEvents, scope) <= Answered(cfg, steps, i, p, t)
  }

  ghost predicate LocksInv(cfg: Config, steps: seq<Step>, i: nat, p: Uid, s: PeerState, scope: iset<Uid>) {
    && s.clusterEvent == cfg.clusterEvent && s.peerToEvent == cfg.peerToEvent
    && Sound(cfg.workflow, s)
    && Collected(cfg, steps, i, p, s, scope)
  }

  lemma CollectedNext(cfg: Config, steps: seq<Step>, i: nat, p: Uid, s: PeerState, s': PeerState, tag: Tag, answers: set<Uid>,
                      scope: iset<Uid>)
    requires LocksInv(cfg, steps, i, p, s, scope) && SameIdentity(s, s')
    requires KeepsCollecting(cfg.workflow, s, s', tag, answers, scope)
    requires answers <= Answered(cfg, steps, i + 1, p, tag)
    ensures LocksInv(cfg, steps, i + 1, p, s', scope)
  {
    if s'.role == Leader && Within(s'.lockedEvents, scope) != {} {
      if Within(s.lockedEvents, scope) != {} {
        var t :| HasOwnLock(s, t) && Within(s.lockedEvents, scope) <= Answered(cfg, steps, i, p, t);
        AnsweredGrows(cfg, steps, i, p, t);
        assert HasOwnLock(s', t);
      } else {
        forall x | x in Within(s'.lockedEvents, scope) ensures x in answers {
          assert x in s.lockedEvents ==> x in Within(s.lockedEvents, scope);
        }
        assert HasOwnLock(s', tag);
      }
    }
  }

  lemma CollectedLater(cfg: Config, steps: seq<Step>, i: nat, p: Uid, s: PeerState, scope: iset<Uid>)
    requires LocksInv(cfg, steps, i, p, s, scope)
    ensures LocksInv(cfg, steps, i + 1, p, s, scope)
  {
    if s.role == Leader && Within(s.lockedEvents, scope) != {} {
      var t :| HasOwnLock(s, t) && Within(s.lockedEvents, scope) <= Answered(cfg, steps, i, p, t);
      AnsweredGrows(cfg, steps, i, p, t);
    }
  }

  lemma PeerIsOrderly(cfg: Config, states: seq<Cluster>, steps: seq<Step>, i: nat, p: Uid, scope: iset<Uid>)
    requires InDefinedRun(cfg, states, steps, i, p) && LocksInv(cfg, steps, i, p, PeerAt(states, i, p), scope)
    ensures Orderly(cfg.workflow, PeerAt(states, i, p))
  {
    ReachableIsRooted(cfg, states, steps, i, p);
    PeerInRun(cfg, states, steps, i, p);
    SameLockSet(cfg.workflow, PeerAt(states, i, p).workflow, cfg.clusterEvent);
  }

  lemma InitialLocks(cfg: Config, states: seq<Cluster>, steps: seq<Step>, p: Uid, scope: iset<Uid>)
    requires InDefinedRun(cfg, states, steps, 0, p)
    ensures LocksInv(cfg, steps, 0, p, PeerAt(states, 0, p), scope)
  {
    var s := PeerAt(states, 0, p);
    assert s.log == [EMPTY_ENTRY];
    LatestIsCheckpoint(s.log);
  }

  lemma CountedAnswer(cfg: Config, steps: seq<Step>, i: nat, p: Uid, s: PeerState)
    requires i < |steps| && !steps[i].Lose? && Actor(steps[i]) == p && s.peerToEvent == cfg.peerToEvent
    requires steps[i].CommandAnswer? ==> CommandRspInBounds(s, steps[i].rsp)
    ensures StepAnswers(s, steps[i]) <= Answered(cfg, steps, i + 1, p, StepTag(steps[i]))
  {
    if StepAnswers(s, steps[i]) != {} {
      assert Answers(steps[i], p, StepTag(steps[i]));
    }
  }

  lemma ActorKeepsLocks(cfg: Config, states: seq<Cluster>, steps: seq<Step>, i: nat, p: Uid, scope: iset<Uid>)
    requires IsOrderlyRun(cfg, states, steps, scope) && i < |steps| && p in states[i].peers && p in states[i + 1].peers
    requires !steps[i].Lose? && Actor(steps[i]) == p && !IsAppendReq(states[i], steps[i])
    requires LocksInv(cfg, steps, i, p, PeerAt(states, i, p), scope)
    ensures LocksInv(cfg, steps, i + 1, p, PeerAt(states, i + 1, p), scope)
  {
    var c, s := states[i], PeerAt(states, i, p);
    StepOfDefinedRun(cfg, states, steps, i);
    PeersAfterStep(cfg, c, steps[i]);
    PeerIsOrderly(cfg, states, steps, i, p, scope);
    assert StepIsOrderly(states[i], steps[i], scope);
    StepKeepsCollecting(cfg, c, steps[i], s, scope);
    StepKeepsIdentity(cfg, c, steps[i]);
    CountedAnswer(cfg, steps, i, p, s);
    CollectedNext(cfg, steps, i, p, s, PeerAt(states, i + 1, p), StepTag(steps[i]), StepAnswers(s, steps[i]), scope);
  }

  lemma OthersKeepLocks(cfg: Config, states: seq<Cluster>, steps: seq<Step>, i: nat, p: Uid)
    requires IsDefinedRun(cfg, states, steps) && i < |steps| && p in states[i + 1].peers
    requires steps[i].Lose? || Actor(steps[i]) != p
    ensures p in states[i].peers && PeerAt(states, i + 1, p) == PeerAt(states, i, p)
  {
    StepOfDefinedRun(cfg, states, steps, i);
    PeersAfterStep(cfg, states[i], steps[i]);
  }

  /** An append request leaves the follower with its own log or with one its leader had before. */
  lemma AppendedLog(cfg: Config, states: seq<Cluster>, steps: seq<Step>, i: nat) returns (j: nat, q: Uid)
    requires IsDefinedRun(cfg, states, steps) && i < |steps| && IsAppendReq(states[i], steps[i])
    requires Actor(steps[i]) in states[i].peers && Actor(steps[i]) in states[i + 1].peers
    ensures j <= i && q in states[j].peers
    ensures PeerAt(states, i + 1, Actor(steps[i])).log == PeerAt(states, j, q).log
    ensures PeerAt(states, i + 1, Actor(steps[i])).role == Leader ==>
      PeerAt(states, i + 1, Actor(steps[i])) == PeerAt(states, i, Actor(steps[i]))
    ensures SameIdentity(PeerAt(states, i, Actor(steps[i])), PeerAt(states, i + 1, Actor(steps[i])))
  {
    var l := steps[i].link;
    var m := states[i].queues[l][0];
    DeliveredAppend(cfg, states, steps, i, l, m);
    AcceptedLogIs(PeerAt(states, i, l.target), l.source, m);
    if Accepts(PeerAt(states, i, l.target), m) {
      j := AcceptedAppendCopiesTheLog(cfg, states, steps, i, l, m);
      q := l.source;
    } else {
      j, q := i, l.target;
    }
  }

  lemma FollowerKeepsLocks(cfg: Config, steps: seq<Step>, i: nat, p: Uid, s: PeerState, s': PeerState, scope: iset<Uid>)
    requires LocksInv(cfg, steps, i, p, s, scope) && SameIdentity(s, s')
    requires s'.role == Leader ==> s' == s
    requires Disciplined(cfg.workflow, cfg.clusterEvent, s'.log)
    ensures LocksInv(cfg, steps, i + 1, p, s', scope)
  {
    if s'.role == Leader {
      CollectedLater(cfg, steps, i, p, s, scope);
    }
  }

  lemma {:induction false} LocksHold(cfg: Config, states: seq<Cluster>, steps: seq<Step>, i: nat, p: Uid, scope: iset<Uid>)
    requires IsOrderlyRun(cfg, states, steps, scope) && i < |states| && p in states[i].peers
    ensures LocksInv(cfg, steps, i, p, PeerAt(states, i, p), scope)
    decreases i
  {
    if i == 0 {
      InitialLocks(cfg, states, steps, p, scope);
    } else if steps[i - 1].Lose? || Actor(steps[i - 1]) != p {
      OthersKeepLocks(cfg, states, steps, i - 1, p);
      LocksHold(cfg, states, steps, i - 1, p, scope);
      CollectedLater(cfg, steps, i - 1, p, PeerAt(states, i, p), scope);
    } else {
      ActorWasPeer(cfg, states, steps, i - 1);
      LocksHold(cfg, states, steps, i - 1, p, scope);
      if IsAppendReq(states[i - 1], steps[i - 1]) {
        var j, q := AppendedLog(cfg, states, steps, i - 1);
        LocksHold(cfg, states, steps, j, q, scope);
        FollowerKeepsLocks(cfg, steps, i - 1, p, PeerAt(states, i - 1, p), PeerAt(states, i, p), scope);
      } else {
        ActorKeepsLocks(cfg, states, steps, i - 1, p, scope);
      }
    }
  }

  lemma ActorWasPeer(cfg: Config, states: seq<Cluster>, steps: seq<Step>, i: nat)
    requires IsDefinedRun(cfg, states, steps) && i < |steps| && !steps[i].Lose?
    ensures Actor(steps[i]) in states[i].peers
  {
    StepOfDefinedRun(cfg, states, steps, i);
    ActorIsPeer(cfg, states[i], steps[i]);
  }

  // ---- P6 in a cluster of one

  lemma AloneAppendsCommitted(p: PeerState, e: Entry)
    requires |p.members| == 1 && |p.log| > 0
    ensures AllCommitted(AppendToLog(p, e).peer) && AppendToLog(p, e).peer.role == p.role
  {}

  lemma AloneStaysCommitted(cfg: Config, c: Cluster, s: Step)
    requires CanHappen(cfg, c, s) && InBounds(cfg, c, s) && ValidConfig(cfg) && ClusterSize(cfg) == 1
    requires !s.Lose? && Actor(s) in c.peers && c.peers[Actor(s)].members == cfg.members
    requires c.peers[Actor(s)].role == Leader && AllCommitted(c.peers[Actor(s)])
    ensures EffectOf(cfg, c, s).peer.role == Leader && AllCommitted(EffectOf(cfg, c, s).peer)
  {
    var p := c.peers[Actor(s)];
    match s
    case Timer(_, _, tagUid) => AloneAppendsCommitted(p, NewEntry(p, p.clusterEvent, p.id, Tag(tagUid, Checkpoint)));
    case Command(_, req) =>
      if EntryForCommand(p, req) != [] {
        AloneAppendsCommitted(p, EntryForCommand(p, req)[0]);
      }
    case CommandAnswer(_, rsp) =>
      var p1 := p.(lockedEvents := p.lockedEvents + {EventOfPeer(p, rsp.source)});
      AloneAppendsCommitted(p1, NewEntry(p1, p.clusterEvent, p.id, Tag(rsp.tag.uid, Exec)));
    case PollWon(_) =>
    case Learn(_, _, _) =>
    case Deliver(_) =>
  }

  /** The only peer of a cluster always leads it and has committed its whole log, so P6 holds of itself. */
  lemma {:induction false} AloneIsCommitted(cfg: Config, states: seq<Cluster>, steps: seq<Step>, i: nat, p: Uid)
    requires InDefinedRun(cfg, states, steps, i, p) && ClusterSize(cfg) == 1
    ensures PeerAt(states, i, p).role == Leader && AllCommitted(PeerAt(states, i, p))
    decreases i
  {
    if i > 0 {
      if steps[i - 1].Lose? || Actor(steps[i - 1]) != p {
        OthersKeepLocks(cfg, states, steps, i - 1, p);
        AloneIsCommitted(cfg, states, steps, i - 1, p);
      } else {
        ActorWasPeer(cfg, states, steps, i - 1);
        AloneIsCommitted(cfg, states, steps, i - 1, p);
        StepOfDefinedRun(cfg, states, steps, i - 1);
        PeersAfterStep(cfg, states[i - 1], steps[i - 1]);
        HeldIdentity(cfg, states, steps, i - 1, p);
        AloneStaysCommitted(cfg, states[i - 1], steps[i - 1]);
      }
    }
  }

  lemma AloneHasNoLinks(cfg: Config, c: Cluster, l: Link)
    requires ValidConfig(cfg) && Shaped(cfg, c) && ClusterSize(cfg) == 1
    ensures l !in c.queues
  {}

  lemma AloneStepIsOrderly(cfg: Config, states: seq<Cluster>, steps: seq<Step>, i: nat, scope: iset<Uid>)
    requires IsDefinedRun(cfg, states, steps) && ClusterSize(cfg) == 1 && i < |steps|
    requires !steps[i].Lose? && Actor(steps[i]) in states[i].peers ==>
      P5Honest(PeerAt(states, i, Actor(steps[i])), steps[i])
    ensures StepIsOrderly(states[i], steps[i], scope)
  {
    StepOfDefinedRun(cfg, states, steps, i);
    if !steps[i].Lose? && Actor(steps[i]) in states[i].peers {
      AloneIsCommitted(cfg, states, steps, i, Actor(steps[i]));
    }
    if steps[i].Deliver? {
      AloneHasNoLinks(cfg, states[i], steps[i].link);
    }
  }

  /** For a cluster of one, honesty of the other clusters is all the lock theorems need. */
  lemma AloneIsOrderly(cfg: Config, states: seq<Cluster>, steps: seq<Step>)
    requires IsDefinedRun(cfg, states, steps) && ClusterSize(cfg) == 1
    requires forall i {:trigger steps[i]} | 0 <= i < |steps| && !steps[i].Lose? && Actor(steps[i]) in states[i].peers ::
      P5Honest(PeerAt(states, i, Actor(steps[i])), steps[i])
    ensures IsOrderlyRun(cfg, states, steps, ALL_EVENTS)
  {
    forall i | 0 <= i < |steps| ensures StepIsOrderly(states[i], steps[i], ALL_EVENTS) {
      AloneStepIsOrderly(cfg, states, steps, i, ALL_EVENTS);
    }
  }

  // ---- The theorems

  ghost predicate InOrderlyRun(cfg: Config, states: seq<Cluster>, steps: seq<Step>, scope: iset<Uid>, i: nat, p: Uid) {
    IsOrderlyRun(cfg, states, steps, scope) && i < |states| && p in states[i].peers
  }

  /** Lock exclusivity: in any log of a run, looked at up to any index, at most one LOCK is open, and the
      two scans for its resolution agree. */
  lemma LocksAreExclusive(cfg: Config, states: seq<Cluster>, steps: seq<Step>, i: nat, p: Uid, c: nat, a: nat, b: nat)
    requires InOrderlyRun(cfg, states, steps, NO_EVENTS, i, p) && c < |PeerAt(states, i, p).log|
    ensures OpenLockAt(PeerAt(states, i, p).log, c, a) && OpenLockAt(PeerAt(states, i, p).log, c, b) ==> a == b
    ensures a < |PeerAt(states, i, p).log| && PeerAt(states, i, p).log[a].tag.kind == Lock ==>
      (LockResolved(PeerAt(states, i, p).log, c, a) <==> LockResolveCommitted(PeerAt(states, i, p).log, c, a))
  {
    LocksHold(cfg, states, steps, i, p, NO_EVENTS);
    var log := PeerAt(states, i, p).log;
    if OpenLockAt(log, c, a) && OpenLockAt(log, c, b) {
      OneOpenLock(cfg.workflow, cfg.clusterEvent, log, c, a, b);
    }
    if a < |log| && log[a].tag.kind == Lock {
      ResolveScansAgree(cfg.workflow, cfg.clusterEvent, log, c, a);
    }
  }

  /** A leader holds no collected lock of the scope unless a LOCK of its own event is open; with ALL_EVENTS
      for the scope, it holds none at all. */
  lemma NoLocksWithoutOwnLock(cfg: Config, states: seq<Cluster>, steps: seq<Step>, scope: iset<Uid>, i: nat, p: Uid)
    requires InOrderlyRun(cfg, states, steps, scope, i, p) && PeerAt(states, i, p).role == Leader
    requires forall k | 0 <= k < |PeerAt(states, i, p).log| && PeerAt(states, i, p).log[k].event == cfg.clusterEvent ::
      !OpenLockAt(PeerAt(states, i, p).log, |PeerAt(states, i, p).log| - 1, k)
    ensures Within(PeerAt(states, i, p).lockedEvents, scope) == {}
    ensures scope == ALL_EVENTS ==> PeerAt(states, i, p).lockedEvents == {}
  {
    LocksHold(cfg, states, steps, i, p, scope);
    assert scope == ALL_EVENTS ==> Within(PeerAt(states, i, p).lockedEvents, scope) == PeerAt(states, i, p).lockedEvents;
  }

  /** At most one own EXEC is appended for an own LOCK. */
  lemma OneExecutionPerLock(cfg: Config, states: seq<Cluster>, steps: seq<Step>, i: nat, p: Uid, k: nat, a: nat, b: nat)
    requires InOrderlyRun(cfg, states, steps, NO_EVENTS, i, p)
    requires k < a < |PeerAt(states, i, p).log| && k < b < |PeerAt(states, i, p).log|
    requires var log := PeerAt(states, i, p).log;
      && log[k].tag.kind == Lock && log[k].event == cfg.clusterEvent
      && log[a].tag == Tag(log[k].tag.uid, Exec) && log[a].event == cfg.clusterEvent
      && log[b].tag == Tag(log[k].tag.uid, Exec) && log[b].event == cfg.clusterEvent
    ensures a == b
  {
    LocksHold(cfg, states, steps, i, p, NO_EVENTS);
    OneExecPerLock(cfg.workflow, cfg.clusterEvent, PeerAt(states, i, p).log, k, a, b);
  }

  /** An answer that changes the log completes the lock set. */
  lemma AnswerThatAppends(p: PeerState, rsp: CommandRsp)
    requires CommandRspInBounds(p, rsp)
    requires RecvCommandRsp(p, rsp).peer.log != p.log
    ensures LockAnswerCounts(p, rsp)
    ensures RecvCommandRsp(p, rsp).peer.log == p.log + [NewEntry(p, p.clusterEvent, p.id, Tag(rsp.tag.uid, Exec))]
    ensures RecvCommandRsp(p, rsp).peer.lockedEvents == {}
    ensures LockSet(p.workflow, p.clusterEvent) <= p.lockedEvents + {EventOfPeer(p, rsp.source)}
  {}

  lemma AnswerInRun(cfg: Config, states: seq<Cluster>, steps: seq<Step>, scope: iset<Uid>, i: nat, p: Uid, rsp: CommandRsp)
    requires InOrderlyRun(cfg, states, steps, scope, i, p) && i < |steps| && steps[i] == CommandAnswer(p, rsp)
    requires p in states[i + 1].peers
    ensures LocksInv(cfg, steps, i, p, PeerAt(states, i, p), scope) && Orderly(cfg.workflow, PeerAt(states, i, p))
    ensures CommandRspInBounds(PeerAt(states, i, p), rsp)
    ensures PeerAt(states, i + 1, p) == RecvCommandRsp(PeerAt(states, i, p), rsp).peer
    ensures PeerAt(states, i, p).id == p
    ensures P5Honest(PeerAt(states, i, p), steps[i]) && P6Settled(PeerAt(states, i, p), steps[i])
  {
    LocksHold(cfg, states, steps, i, p, scope);
    PeerIsOrderly(cfg, states, steps, i, p, scope);
    StepOfDefinedRun(cfg, states, steps, i);
    PeersAfterStep(cfg, states[i], steps[i]);
    assert StepIsOrderly(states[i], steps[i], scope);
    HeldIdentity(cfg, states, steps, i, p);
  }

  /** The events the cluster has to lock for its own. */
  ghost function ToLock(cfg: Config): iset<Uid> {
    iset x | x in LockSet(cfg.workflow, cfg.clusterEvent)
  }

  /** Lock, then execute: when an answer makes a leader append the EXEC of its own event, every event of
      the lock set belongs to a cluster that has answered about this very LOCK. What an earlier reign left
      matters only as far as it lies in the lock set. */
  lemma ExecutesOnlyWhenAllAnswered(cfg: Config, states: seq<Cluster>, steps: seq<Step>, i: nat, p: Uid, rsp: CommandRsp)
    requires InOrderlyRun(cfg, states, steps, ToLock(cfg), i, p) && i < |steps| && steps[i] == CommandAnswer(p, rsp)
    requires p in states[i + 1].peers && PeerAt(states, i + 1, p).log != PeerAt(states, i, p).log
    ensures PeerAt(states, i + 1, p).log
         == PeerAt(states, i, p).log + [NewEntry(PeerAt(states, i, p), cfg.clusterEvent, p, Tag(rsp.tag.uid, Exec))]
    ensures PeerAt(states, i + 1, p).lockedEvents == {}
    ensures LockSet(cfg.workflow, cfg.clusterEvent) <= Answered(cfg, steps, i + 1, p, rsp.tag)
  {
    var s := PeerAt(states, i, p);
    AnswerInRun(cfg, states, steps, ToLock(cfg), i, p, rsp);
    AnswerThatAppends(s, rsp);
    AnswerIsForTheOpenLock(cfg.workflow, s, rsp);
    CountedAnswer(cfg, steps, i, p, s);
    AnsweredGrows(cfg, steps, i, p, rsp.tag);
    forall x | x in LockSet(cfg.workflow, cfg.clusterEvent) ensures x in Answered(cfg, steps, i + 1, p, rsp.tag) {
      if x in s.lockedEvents {
        assert x in Within(s.lockedEvents, ToLock(cfg));
      }
    }
  }

  lemma HeldIdentity(cfg: Config, states: seq<Cluster>, steps: seq<Step>, i: nat, p: Uid)
    requires InDefinedRun(cfg, states, steps, i, p)
    ensures PeerAt(states, i, p).id == p && PeerAt(states, i, p).members == cfg.members
  {
    PeerInRun(cfg, states, steps, i, p);
  }

  // ---- Requests that arrive again

  /** A request that is not lost, because nothing stands against it by now, and whose tag id names no other
      request. */
  predicate Welcome(p: PeerState, req: CommandReq) {
    && p.role == Leader && p.commitIndex < |p.log|
    && (req.tag.kind == Lock ==> !HasOpenLock(p.log, p.commitIndex, p.lastCheckpoint))
    && (req.tag.kind == Lock && req.event == p.clusterEvent ==> Enabled(p.workflow, p.clusterEvent))
    && forall k | 0 <= k < |p.log| && p.log[k].tag == req.tag :: p.log[k].event == req.event
  }

  /** A request that has been appended, by any leader at any moment, and arrives at a leader that has the
      entry, is appended once more exactly when it locks the own event and nothing has to be locked. */
  lemma AppendedAgainIff(cfg: Config, states: seq<Cluster>, steps: seq<Step>, i: nat, p: Uid, j: nat, q: Uid, req: CommandReq)
    requires InOrderlyRun(cfg, states, steps, NO_EVENTS, i, p) && InOrderlyRun(cfg, states, steps, NO_EVENTS, j, q)
    requires CommandReqInBounds(PeerAt(states, i, p), req) && EntryForCommand(PeerAt(states, i, p), req) != []
    requires EntryForCommand(PeerAt(states, i, p), req)[0] in PeerAt(states, j, q).log && Welcome(PeerAt(states, j, q), req)
    ensures EntryForCommand(PeerAt(states, j, q), req) != []
      <==> req.tag.kind == Lock && req.event == cfg.clusterEvent && LockSet(cfg.workflow, cfg.clusterEvent) == {}
  {
    LocksHold(cfg, states, steps, i, p, NO_EVENTS);
    LocksHold(cfg, states, steps, j, q, NO_EVENTS);
    PeerIsOrderly(cfg, states, steps, i, p, NO_EVENTS);
    PeerIsOrderly(cfg, states, steps, j, q, NO_EVENTS);
    KnownRequest(cfg.workflow, PeerAt(states, i, p), PeerAt(states, j, q), req);
  }

  /** An own LOCK is logged only if something has to be locked. */
  lemma OwnLockLocks(w: Workflow, ownEvent: Uid, log: seq<Entry>, k: nat)
    requires Disciplined(w, ownEvent, log) && k < |log|
    ensures log[k].tag.kind == Lock && log[k].event == ownEvent ==> LockSet(w, ownEvent) != {}
  {
    assert k > 0 ==> WellPlaced(w, ownEvent, log, k);
  }

  lemma KnownRequest(w: Workflow, s: PeerState, r: PeerState, req: CommandReq)
    requires Orderly(w, s) && Orderly(w, r) && s.clusterEvent == r.clusterEvent
    requires CommandReqInBounds(s, req) && EntryForCommand(s, req) != [] && EntryForCommand(s, req)[0] in r.log
    requires Welcome(r, req)
    ensures EntryForCommand(r, req) != []
      <==> req.tag.kind == Lock && req.event == r.clusterEvent && LockSet(w, r.clusterEvent) == {}
  {
    var e := EntryForCommand(s, req)[0];
    if req.tag.kind == Lock && req.event == r.clusterEvent && LockSet(w, r.clusterEvent) == {} {
      forall k | 0 <= k < |r.log| ensures r.log[k].tag != req.tag {
        OwnLockLocks(w, r.clusterEvent, r.log, k);
      }
    } else {
      var k :| 0 <= k < |r.log| && r.log[k] == e;
      assert r.log[k].tag == req.tag;
    }
  }
}

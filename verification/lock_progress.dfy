/** What a leader does about locks as soon as it can, over whole runs: it executes once everything it locks has
    answered, and its timer writes a checkpoint when nothing is open. */
module LockProgress {
  import opened Uids
  import opened Workflows
  import opened PeerSpec
  import opened Clusters
  import opened ClusterSafety
  import opened CatchingUp
  import opened Locks
  import opened LockRuns
  import opened LockScans
  import opened CommandRuns

  // ---- An own LOCK stays open until its EXEC

  /** The EXEC of the own event that carries out the LOCK with this tag is in the log. */
  predicate HasExecuted(p: PeerState, tag: Tag) {
    exists k :: 0 <= k < |p.log| && p.log[k].tag == Tag(tag.uid, Exec) && p.log[k].event == p.clusterEvent
  }

  /** Only its own EXEC closes an open own LOCK. */
  lemma OpenOrExecuted(w: Workflow, p: PeerState, p': PeerState, e: Entry, tag: Tag)
    requires Disciplined(w, p.clusterEvent, p.log) && Disciplined(w, p.clusterEvent, p'.log) && SameIdentity(p, p')
    requires p'.log == p.log + [e] && HasOwnLock(p, tag)
    ensures HasOwnLock(p', tag) || HasExecuted(p', tag)
  {
    if e.tag.kind == Lock || e.event != p.clusterEvent {
      OwnLockStays(p, p', e, tag);
    } else {
      var k :| 0 <= k < |p.log| && OwnOpenLock(p.log, p.clusterEvent, tag.uid, |p.log|, k);
      ClosingEntry(w, p.clusterEvent, p.log, e, k);
      assert p'.log[|p.log|] == e;
    }
  }

  lemma ClosingEntry(w: Workflow, ownEvent: Uid, log: seq<Entry>, e: Entry, k: nat)
    requires Disciplined(w, ownEvent, log) && Disciplined(w, ownEvent, log + [e]) && k < |log|
    requires log[k].tag.kind == Lock && log[k].event == ownEvent && OpenLockAt(log, |log| - 1, k)
    requires e.tag.kind != Lock && e.event == ownEvent
    ensures e.tag == Tag(log[k].tag.uid, Exec)
  {
    var log' := log + [e];
    assert WellPlaced(w, ownEvent, log', |log|);
    SameScansAfter(log, e, 0);
    SameScansAfter(log, e, k);
    assert HasOpenLock(log, |log| - 1, 0);
    OwnLockLocks(w, ownEvent, log, k);
    var n :| 0 <= n < |log| && OwnOpenLock(log', ownEvent, e.tag.uid, |log|, n);
    SameScansAfter(log, e, n);
    OneOpenLock(w, ownEvent, log, |log| - 1, k, n);
  }

  lemma ExecutedStays(p: PeerState, p': PeerState, tag: Tag)
    requires HasExecuted(p, tag) && p.log <= p'.log && SameIdentity(p, p')
    ensures HasExecuted(p', tag)
  {
    var k :| 0 <= k < |p.log| && p.log[k].tag == Tag(tag.uid, Exec) && p.log[k].event == p.clusterEvent;
    assert p'.log[k] == p.log[k];
  }

  // ---- What one step of the leader does

  lemma AppendKeepsLocked(p: PeerState, e: Entry)
    requires |p.log| > 0
    ensures AppendToLog(p, e).peer.lockedEvents == p.lockedEvents
  {}

  /** Only answers change what a leader has collected. */
  lemma OthersKeepLocked(cfg: Config, c: Cluster, s: Step, p: PeerState)
    requires CanHappen(cfg, c, s) && InBounds(cfg, c, s) && !s.Lose? && p == c.peers[Actor(s)]
    requires |p.log| > 0 && !s.CommandAnswer? && !IsAppendReq(c, s)
    ensures EffectOf(cfg, c, s).peer.lockedEvents == p.lockedEvents
  {
    match s
    case Timer(_, idle, tagUid) => AppendKeepsLocked(p, NewEntry(p, p.clusterEvent, p.id, Tag(tagUid, Checkpoint)));
    case PollWon(_) =>
    case Learn(_, _, _) =>
    case Command(_, req) =>
      if EntryForCommand(p, req) != [] {
        AppendKeepsLocked(p, EntryForCommand(p, req)[0]);
      }
    case Deliver(l) => MessageKeepsLocked(p, l.source, c.queues[l][0]);
  }

  lemma MessageKeepsLocked(p: PeerState, source: Uid, m: Message)
    requires |p.log| > 0 && !m.AppendReq? && (m.AppendRsp? ==> AppendRspInBounds(p, source, m))
    ensures Handle(p, source, m).peer.lockedEvents == p.lockedEvents
  {}

  /** The event that answers in this step about the LOCK with this tag. */
  function Gained(p: PeerState, s: Step, tag: Tag): set<Uid> {
    if Answers(s, p.id, tag) then {EventOfPeer(p, s.rsp.source)} else {}
  }

  /** The LOCK is carried out, or still open, with the new answer collected but not the last one. */
  ghost predicate Proceeds(w: Workflow, p: PeerState, p': PeerState, tag: Tag, gained: set<Uid>) {
    || HasExecuted(p', tag)
    || (HasOwnLock(p', tag) && p'.lockedEvents == p.lockedEvents + gained
        && (gained != {} ==> !(LockSet(w, p.clusterEvent) <= p'.lockedEvents)))
  }

  lemma OwnLockIndex(w: Workflow, p: PeerState, tag: Tag)
    requires Orderly(w, p) && HasOwnLock(p, tag)
    ensures TagExists(p.log, tag) && IndexOfTag(p.log, tag) < |p.log|
    ensures OpenLockAt(p.log, |p.log| - 1, IndexOfTag(p.log, tag))
  {
    var k :| 0 <= k < |p.log| && OwnOpenLock(p.log, p.clusterEvent, tag.uid, |p.log|, k);
    assert p.log[k].tag == tag;
    IndexOfTagInLog(p.log, tag, 0);
    var n := IndexOfTag(p.log, tag);
    if n < k {
      LockTagsDiffer(w, p.clusterEvent, p.log, n, k);
    } else if k < n {
      LockTagsDiffer(w, p.clusterEvent, p.log, k, n);
    }
  }

  lemma AnswerCounts(w: Workflow, p: PeerState, rsp: CommandRsp, tag: Tag)
    requires Orderly(w, p) && p.role == Leader && HasOwnLock(p, tag) && CommandRspInBounds(p, rsp)
    requires rsp.tag == tag && (rsp.success || rsp.leader == EMPTY_UID)
    ensures LockAnswerCounts(p, rsp)
  {
    OwnLockIndex(w, p, tag);
    assert p.commitIndex < |p.log|;
    StillUnresolved(p.log, p.commitIndex, IndexOfTag(p.log, tag));
  }

  lemma StillUnresolved(log: seq<Entry>, c: nat, n: nat)
    requires c < |log| && n < |log| && OpenLockAt(log, |log| - 1, n)
    ensures !LockResolved(log, c, n)
  {}

  lemma AnswerProceeds(w: Workflow, p: PeerState, rsp: CommandRsp, tag: Tag, p': PeerState, gained: set<Uid>)
    requires Orderly(w, p) && p.role == Leader && HasOwnLock(p, tag) && CommandRspInBounds(p, rsp)
    requires P5Honest(p, CommandAnswer(p.id, rsp)) && P6Settled(p, CommandAnswer(p.id, rsp))
    requires p' == RecvCommandRsp(p, rsp).peer && gained == Gained(p, CommandAnswer(p.id, rsp), tag)
    ensures Proceeds(w, p, p', tag, gained)
  {
    if gained != {} {
      AnswerCounts(w, p, rsp, tag);
      CountedProceeds(w, p, rsp, tag, p');
    } else {
      if LockAnswerCounts(p, rsp) {
        AnswerIsForTheOpenLock(w, p, rsp);
      }
    }
  }

  lemma CountedProceeds(w: Workflow, p: PeerState, rsp: CommandRsp, tag: Tag, p': PeerState)
    requires Orderly(w, p) && p.role == Leader && HasOwnLock(p, tag) && CommandRspInBounds(p, rsp)
    requires LockAnswerCounts(p, rsp) && rsp.tag == tag && p' == RecvCommandRsp(p, rsp).peer
    ensures Proceeds(w, p, p', tag, {EventOfPeer(p, rsp.source)})
  {
    var p1 := p.(lockedEvents := p.lockedEvents + {EventOfPeer(p, rsp.source)});
    if LocksAcquired(p1) {
      var e := NewEntry(p1, p.clusterEvent, p.id, Tag(rsp.tag.uid, Exec));
      AppendGrows(p1, e);
      assert p'.log[|p.log|] == e;
      AnswerKeepsIdentity(p, rsp);
    } else {
      SameLocks(p, p1);
    }
  }

  lemma GrownProceeds(w: Workflow, p: PeerState, p': PeerState, tag: Tag)
    requires Disciplined(w, p.clusterEvent, p.log) && Disciplined(w, p.clusterEvent, p'.log) && SameIdentity(p, p')
    requires Grows(p, p') && p'.lockedEvents == p.lockedEvents && HasOwnLock(p, tag)
    ensures Proceeds(w, p, p', tag, {})
  {
    if p'.log == p.log {
      SameLocks(p, p');
    } else {
      assert p'.log == p.log + [p'.log[|p.log|]];
      OpenOrExecuted(w, p, p', p'.log[|p.log|], tag);
    }
  }

  lemma StepProceeds(cfg: Config, c: Cluster, s: Step, p: PeerState, p': PeerState, tag: Tag)
    requires CanHappen(cfg, c, s) && InBounds(cfg, c, s) && !s.Lose? && p == c.peers[Actor(s)] && Actor(s) == p.id
    requires p' == EffectOf(cfg, c, s).peer && !IsAppendReq(c, s) && p.role == Leader && HasOwnLock(p, tag)
    requires Orderly(cfg.workflow, p) && Disciplined(cfg.workflow, p.clusterEvent, p'.log)
    requires P5Honest(p, s) && P6Settled(p, s)
    ensures Proceeds(cfg.workflow, p, p', tag, Gained(p, s, tag))
  {
    if s.CommandAnswer? {
      AnswerProceeds(cfg.workflow, p, s.rsp, tag, p', Gained(p, s, tag));
    } else {
      StepKeepsIdentity(cfg, c, s);
      OthersKeepLocked(cfg, c, s, p);
      StepGrows(cfg, c, s, p);
      GrownProceeds(cfg.workflow, p, p', tag);
    }
  }

  // ---- Over runs

  /** The events whose clusters have answered p about the LOCK with this tag, from step b up to step i. */
  function AnsweredSince(cfg: Config, steps: seq<Step>, b: nat, i: nat, p: Uid, tag: Tag): set<Uid> {
    set j | b <= j < i && j < |steps| && Answers(steps[j], p, tag) :: EventIn(cfg.peerToEvent, steps[j].rsp.source)
  }

  ghost predicate LeadsFrom(states: seq<Cluster>, b: nat, i: nat, p: Uid) {
    i < |states| && forall j | b <= j <= i :: p in states[j].peers && PeerAt(states, j, p).role == Leader
  }

  ghost predicate Awaiting(cfg: Config, steps: seq<Step>, b: nat, i: nat, p: Uid, tag: Tag, s: PeerState) {
    || HasExecuted(s, tag)
    || (var answered := AnsweredSince(cfg, steps, b, i, p, tag);
        HasOwnLock(s, tag) && answered <= s.lockedEvents
        && (answered != {} ==> !(LockSet(cfg.workflow, cfg.clusterEvent) <= s.lockedEvents)))
  }

  lemma AnsweredNext(cfg: Config, steps: seq<Step>, b: nat, i: nat, p: Uid, tag: Tag)
    requires b <= i < |steps|
    ensures AnsweredSince(cfg, steps, b, i + 1, p, tag)
         == AnsweredSince(cfg, steps, b, i, p, tag)
          + if Answers(steps[i], p, tag) then {EventIn(cfg.peerToEvent, steps[i].rsp.source)} else {}
  {}

  lemma ActorAwaits(cfg: Config, states: seq<Cluster>, steps: seq<Step>, b: nat, i: nat, p: Uid, tag: Tag)
    requires IsOrderlyRun(cfg, states, steps, NO_EVENTS) && b <= i < |steps| && LeadsFrom(states, b, i + 1, p)
    requires !steps[i].Lose? && Actor(steps[i]) == p && !IsAppendReq(states[i], steps[i])
    requires Awaiting(cfg, steps, b, i, p, tag, PeerAt(states, i, p))
    ensures Awaiting(cfg, steps, b, i + 1, p, tag, PeerAt(states, i + 1, p))
  {
    var s, s' := PeerAt(states, i, p), PeerAt(states, i + 1, p);
    LocksHold(cfg, states, steps, i, p, NO_EVENTS);
    LocksHold(cfg, states, steps, i + 1, p, NO_EVENTS);
    PeerIsOrderly(cfg, states, steps, i, p, NO_EVENTS);
    HeldIdentity(cfg, states, steps, i, p);
    if HasExecuted(s, tag) {
      ActorGrows(cfg, states, steps, i, p);
      HeldIdentity(cfg, states, steps, i + 1, p);
      ExecutedStays(s, s', tag);
    } else {
      StepOfDefinedRun(cfg, states, steps, i);
      PeersAfterStep(cfg, states[i], steps[i]);
      assert StepIsOrderly(states[i], steps[i], NO_EVENTS);
      StepProceeds(cfg, states[i], steps[i], s, s', tag);
      AnsweredNext(cfg, steps, b, i, p, tag);
    }
  }

  /** A step that is no answer to p and leaves p as it is. */
  lemma AwaitsStill(cfg: Config, steps: seq<Step>, b: nat, i: nat, p: Uid, tag: Tag, s: PeerState)
    requires b <= i < |steps| && !Answers(steps[i], p, tag) && Awaiting(cfg, steps, b, i, p, tag, s)
    ensures Awaiting(cfg, steps, b, i + 1, p, tag, s)
  {
    AnsweredNext(cfg, steps, b, i, p, tag);
  }

  lemma {:induction false} AwaitingInRun(cfg: Config, states: seq<Cluster>, steps: seq<Step>, b: nat, i: nat, p: Uid,
                                         tag: Tag)
    requires IsOrderlyRun(cfg, states, steps, NO_EVENTS) && b <= i && LeadsFrom(states, b, i, p)
    requires HasOwnLock(PeerAt(states, b, p), tag)
    ensures Awaiting(cfg, steps, b, i, p, tag, PeerAt(states, i, p))
    decreases i
  {
    if i == b {
      assert AnsweredSince(cfg, steps, b, i, p, tag) == {};
    } else {
      AwaitingInRun(cfg, states, steps, b, i - 1, p, tag);
      if steps[i - 1].Lose? || Actor(steps[i - 1]) != p {
        OthersKeepLocks(cfg, states, steps, i - 1, p);
        AwaitsStill(cfg, steps, b, i - 1, p, tag, PeerAt(states, i, p));
      } else if IsAppendReq(states[i - 1], steps[i - 1]) {
        var _, _ := AppendedLog(cfg, states, steps, i - 1);
        AwaitsStill(cfg, steps, b, i - 1, p, tag, PeerAt(states, i, p));
      } else {
        ActorAwaits(cfg, states, steps, b, i - 1, p, tag);
      }
    }
  }

  /** Locked, then executed: a leader that has an open own LOCK and goes on leading logs the EXEC for it no later
      than with the answer of the last event it locks. */
  lemma ExecutesOnceAllAnswered(cfg: Config, states: seq<Cluster>, steps: seq<Step>, b: nat, i: nat, p: Uid, tag: Tag)
    requires IsOrderlyRun(cfg, states, steps, NO_EVENTS) && b <= i && LeadsFrom(states, b, i, p)
    requires HasOwnLock(PeerAt(states, b, p), tag)
    requires LockSet(cfg.workflow, cfg.clusterEvent) <= AnsweredSince(cfg, steps, b, i, p, tag)
    ensures HasExecuted(PeerAt(states, i, p), tag)
  {
    LocksHold(cfg, states, steps, b, p, NO_EVENTS);
    var s := PeerAt(states, b, p);
    var k :| 0 <= k < |s.log| && OwnOpenLock(s.log, s.clusterEvent, tag.uid, |s.log|, k);
    OwnLockLocks(cfg.workflow, cfg.clusterEvent, s.log, k);
    AwaitingInRun(cfg, states, steps, b, i, p, tag);
  }

  // ---- Checkpoints

  /** The timer of a leader writes a checkpoint exactly when no response is missing, no committed LOCK is open, and
      something behind the checkpoint it scans from is committed; it then scans from the new one. */
  lemma CheckpointIsWrittenIff(cfg: Config, states: seq<Cluster>, steps: seq<Step>, i: nat, p: Uid, idle: bool, tagUid: Uid)
    requires InOrderlyRun(cfg, states, steps, NO_EVENTS, i, p) && i < |steps| && steps[i] == Timer(p, idle, tagUid)
    requires PeerAt(states, i, p).role == Leader && p in states[i + 1].peers
    ensures var s, s' := PeerAt(states, i, p), PeerAt(states, i + 1, p);
      if idle && NothingOpen(s.log, s.commitIndex) && s.lastCheckpoint < s.commitIndex then
        && s'.log == s.log + [Entry(|s.log|, s.term, cfg.clusterEvent, p, Tag(tagUid, Checkpoint))]
        && s'.lastCheckpoint == |s.log|
      else s' == s
  {
    var s := PeerAt(states, i, p);
    StepOfDefinedRun(cfg, states, steps, i);
    PeersAfterStep(cfg, states[i], steps[i]);
    OwnEventInRun(cfg, states, steps, i, p);
    HeldIdentity(cfg, states, steps, i, p);
    if idle {
      CheckpointsSeal(cfg, states, steps, i, p);
      NothingOpenIff(s.log, s.commitIndex);
    }
    TimerIs(s, idle, tagUid);
  }

  lemma TimerIs(p: PeerState, idle: bool, tagUid: Uid)
    requires p.role == Leader && TimerInBounds(p, idle)
    ensures var p' := PeerSpec.Timeout(p, idle, tagUid).peer;
      if CheckpointDue(p, idle) then
        && p'.log == p.log + [Entry(|p.log|, p.term, p.clusterEvent, p.id, Tag(tagUid, Checkpoint))]
        && p'.lastCheckpoint == |p.log|
      else p' == p
  {}

  /** Index k is that of the last CHECKPOINT behind c and up to d. */
  predicate IsLastCheckpoint(log: seq<Entry>, c: nat, d: nat, k: nat) {
    && c < k <= d && k < |log| && log[k].tag.kind == Checkpoint
    && forall j | k < j <= d && j < |log| :: log[j].tag.kind != Checkpoint
  }

  predicate NoCheckpoint(log: seq<Entry>, c: nat, d: nat) {
    forall j | c < j <= d && j < |log| :: log[j].tag.kind != Checkpoint
  }

  lemma {:induction false} CheckpointInIsLast(log: seq<Entry>, c: nat, d: nat, default: nat)
    requires Rooted(log) && c <= d < |log|
    ensures var k := CheckpointIn(log[c + 1..d + 1], default);
      if NoCheckpoint(log, c, d) then k == default else IsLastCheckpoint(log, c, d, k)
    decreases d
  {
    if c < d {
      var entries := log[c + 1..d + 1];
      assert entries[..|entries| - 1] == log[c + 1..d];
      if log[d].tag.kind != Checkpoint {
        CheckpointInIsLast(log, c, d - 1, default);
      }
    }
  }

  lemma CommitMovesCheckpoint(p: PeerState, n: nat)
    requires Rooted(p.log) && p.role == Leader && p.commitIndex < n < |p.log|
    ensures var k := UpdateCommitIndex(p, n).lastCheckpoint;
      if NoCheckpoint(p.log, p.commitIndex, n) then k == p.lastCheckpoint else IsLastCheckpoint(p.log, p.commitIndex, n, k)
  {
    CheckpointInIsLast(p.log, p.commitIndex, n, p.lastCheckpoint);
  }

  /** A peer that wins an election scans from the last CHECKPOINT of its log. */
  lemma WinnersScanFromLatest(cfg: Config, states: seq<Cluster>, steps: seq<Step>, i: nat, p: Uid)
    requires InDefinedRun(cfg, states, steps, i, p) && i < |steps| && p in states[i + 1].peers
    requires PeerAt(states, i, p).role != Leader && PeerAt(states, i + 1, p).role == Leader
    ensures var s' := PeerAt(states, i + 1, p);
      && s'.lastCheckpoint < |s'.log| && s'.log[s'.lastCheckpoint].tag.kind == Checkpoint
      && forall k | s'.lastCheckpoint < k < |s'.log| :: s'.log[k].tag.kind != Checkpoint
  {
    StepOfDefinedRun(cfg, states, steps, i);
    PeersAfterStep(cfg, states[i], steps[i]);
    ReachableIsRooted(cfg, states, steps, i, p);
    LatestIsCheckpoint(PeerAt(states, i, p).log);
    BecomesLeader(cfg, states[i], steps[i], PeerAt(states, i, p));
  }

  lemma BecomesLeader(cfg: Config, c: Cluster, s: Step, p: PeerState)
    requires CanHappen(cfg, c, s) && InBounds(cfg, c, s) && !s.Lose? && p == c.peers[Actor(s)] && |p.log| > 0
    requires p.role != Leader && EffectOf(cfg, c, s).peer.role == Leader
    ensures EffectOf(cfg, c, s).peer.log == p.log && EffectOf(cfg, c, s).peer.lastCheckpoint == LatestCheckpoint(p.log)
  {}

  /** By the report of a follower a leader commits further, or it does not: when it does, it scans from the last
      CHECKPOINT among what it has just committed, if there is one. */
  lemma CommitNotesCheckpoint(cfg: Config, states: seq<Cluster>, steps: seq<Step>, i: nat, l: Link)
    requires InDefinedRun(cfg, states, steps, i, l.target) && i < |steps| && steps[i] == Deliver(l)
    requires l.target in states[i + 1].peers && PeerAt(states, i + 1, l.target).role == Leader
    requires PeerAt(states, i, l.target).role == Leader
    ensures var s, s' := PeerAt(states, i, l.target), PeerAt(states, i + 1, l.target);
      if s'.commitIndex == s.commitIndex || NoCheckpoint(s.log, s.commitIndex, s'.commitIndex) then
        s'.lastCheckpoint == s.lastCheckpoint
      else IsLastCheckpoint(s.log, s.commitIndex, s'.commitIndex, s'.lastCheckpoint)
  {
    StepOfDefinedRun(cfg, states, steps, i);
    var s, m := PeerAt(states, i, l.target), states[i].queues[l][0];
    PeersAfterStep(cfg, states[i], steps[i]);
    ReachableIsRooted(cfg, states, steps, i, l.target);
    ReportNotesCheckpoint(s, l.source, m);
  }

  lemma ReportNotesCheckpoint(p: PeerState, source: Uid, m: Message)
    requires Rooted(p.log) && p.role == Leader && (m.AppendRsp? ==> AppendRspInBounds(p, source, m))
    requires Handle(p, source, m).peer.role == Leader
    ensures var p' := Handle(p, source, m).peer;
      if p'.commitIndex == p.commitIndex || NoCheckpoint(p.log, p.commitIndex, p'.commitIndex) then
        p'.lastCheckpoint == p.lastCheckpoint
      else IsLastCheckpoint(p.log, p.commitIndex, p'.commitIndex, p'.lastCheckpoint)
  {
    match m
    case AppendRsp(_, _, _, _, _, _) =>
      if m.success && m.term <= p.term {
        var p1 := p.(indices := p.indices[source := m.lastIndex]);
        var n := CommitRule.MajorityIndex(p1.indices);
        if n > p.commitIndex {
          CommitMovesCheckpoint(p1, n);
        }
      }
    case AppendReq(_, _, _, _, _) =>
    case ElectionReq(_, _, _) =>
    case ElectionRsp(_, _, _) =>
  }
}

/** What the scans for open locks find over whole runs: those that start at a checkpoint miss nothing, and
    those that end at the commit index see the LOCK that collected locks belong to. */
module LockScans {
  import opened Uids
  import opened Workflows
  import opened PeerSpec
  import opened Clusters
  import opened ClusterSafety
  import opened Sending
  import opened Locks
  import opened LockRuns

  // ---- Sealed logs

  /** Every LOCK before a CHECKPOINT is resolved at or before index c. */
  predicate Sealed(log: seq<Entry>, c: nat)
    requires c < |log|
  {
    forall k, i {:trigger log[k], LockResolved(log, c, i)}
      | 0 <= i < k < |log| && log[k].tag.kind == Checkpoint && log[i].tag.kind == Lock :: LockResolved(log, c, i)
  }

  /** The last index a peer has committed and still has. */
  function LastCommitted(p: PeerState): nat
    requires |p.log| > 0
  {
    if p.commitIndex < |p.log| then p.commitIndex else |p.log| - 1
  }

  predicate IsSealed(p: PeerState) {
    |p.log| > 0 && Sealed(p.log, LastCommitted(p))
  }

  lemma LongerLogIsSealed(log: seq<Entry>, c: nat, longer: seq<Entry>, d: nat)
    requires c < |log| && log <= longer && c <= d < |longer| && Sealed(log, c)
    requires forall k | |log| <= k < |longer| :: longer[k].tag.kind != Checkpoint
    ensures Sealed(longer, d)
  {
    forall k, i | 0 <= i < k < |longer| && longer[k].tag.kind == Checkpoint && longer[i].tag.kind == Lock
      ensures LockResolved(longer, d, i)
    {
      assert log[k] == longer[k] && log[i] == longer[i];
      assert LockResolved(log, c, i);
      SameScan(log, longer, |log|, c, i);
      ResolvedStays(longer, c, d, i);
    }
  }

  /** Behind a seal, where a scan starts makes no difference. */
  lemma SealedScans(log: seq<Entry>, c: nat, k: nat, d: nat)
    requires k < |log| && log[k].tag.kind == Checkpoint && c <= d < |log| && Sealed(log, c)
    ensures HasOpenLock(log, d, k) <==> HasOpenLock(log, d, 0)
  {
    forall i | 0 <= i < k && log[i].tag.kind == Lock ensures LockResolved(log, d, i) {
      assert LockResolved(log, c, i);
      ResolvedStays(log, c, d, i);
    }
    if HasOpenLock(log, d, 0) {
      var i :| 0 <= i <= d && OpenLockAt(log, d, i);
      assert k <= i;
    }
  }

  // ---- What a call does to the log and the commit index

  /** The log only gets longer, by one entry at most, and nothing committed is taken back. */
  predicate Grows(p: PeerState, p': PeerState) {
    |p.log| > 0 && p.log <= p'.log && |p'.log| <= |p.log| + 1 && LastCommitted(p) <= LastCommitted(p')
  }

  predicate AddsNoCheckpoint(p: PeerState, p': PeerState) {
    forall k | |p.log| <= k < |p'.log| :: p'.log[k].tag.kind != Checkpoint
  }

  lemma AppendGrows(p: PeerState, e: Entry)
    requires |p.log| > 0
    ensures AppendToLog(p, e).peer.log == p.log + [e] && Grows(p, AppendToLog(p, e).peer)
  {}

  lemma CommandGrows(p: PeerState, req: CommandReq)
    requires |p.log| > 0 && CommandReqInBounds(p, req)
    ensures Grows(p, RecvCommandReq(p, req).peer)
    ensures HonestRequest(p, req) ==> AddsNoCheckpoint(p, RecvCommandReq(p, req).peer)
  {
    var entries := EntryForCommand(p, req);
    if entries != [] {
      AppendGrows(p, entries[0]);
    }
  }

  lemma AnswerGrows(p: PeerState, rsp: CommandRsp)
    requires |p.log| > 0 && CommandRspInBounds(p, rsp)
    ensures Grows(p, RecvCommandRsp(p, rsp).peer) && AddsNoCheckpoint(p, RecvCommandRsp(p, rsp).peer)
  {
    if LockAnswerCounts(p, rsp) {
      var p1 := p.(lockedEvents := p.lockedEvents + {EventOfPeer(p, rsp.source)});
      AppendGrows(p1, NewEntry(p1, p.clusterEvent, p.id, Tag(rsp.tag.uid, Exec)));
    }
  }

  lemma TimerGrows(p: PeerState, idle: bool, tagUid: Uid)
    requires |p.log| > 0 && TimerInBounds(p, idle)
    ensures Grows(p, PeerSpec.Timeout(p, idle, tagUid).peer)
    ensures p.role != Leader || !CheckpointDue(p, idle) ==> AddsNoCheckpoint(p, PeerSpec.Timeout(p, idle, tagUid).peer)
  {
    if p.role == Leader {
      AppendGrows(p, NewEntry(p, p.clusterEvent, p.id, Tag(tagUid, Checkpoint)));
    }
  }

  lemma ReportGrows(p: PeerState, source: Uid, m: Message)
    requires |p.log| > 0 && m.AppendRsp? && AppendRspInBounds(p, source, m)
    ensures RecvAppendRsp(p, source, m).peer.log == p.log && Grows(p, RecvAppendRsp(p, source, m).peer)
  {}

  lemma MessageGrows(p: PeerState, source: Uid, m: Message)
    requires |p.log| > 0 && !m.AppendReq? && (m.AppendRsp? ==> AppendRspInBounds(p, source, m))
    ensures Handle(p, source, m).peer.log == p.log && Grows(p, Handle(p, source, m).peer)
  {
    if m.AppendRsp? {
      ReportGrows(p, source, m);
    }
  }

  lemma StepGrows(cfg: Config, c: Cluster, s: Step, p: PeerState)
    requires CanHappen(cfg, c, s) && InBounds(cfg, c, s) && !s.Lose? && p == c.peers[Actor(s)]
    requires |p.log| > 0 && !IsAppendReq(c, s)
    ensures Grows(p, EffectOf(cfg, c, s).peer)
    ensures P5Honest(p, s) && !(s.Timer? && p.role == Leader && CheckpointDue(p, s.idle)) ==>
      AddsNoCheckpoint(p, EffectOf(cfg, c, s).peer)
  {
    match s
    case Timer(_, idle, tagUid) => TimerGrows(p, idle, tagUid);
    case PollWon(_) =>
    case Learn(_, _, _) =>
    case Command(_, req) => CommandGrows(p, req);
    case CommandAnswer(_, rsp) => AnswerGrows(p, rsp);
    case Deliver(l) => MessageGrows(p, l.source, c.queues[l][0]);
  }

  // ---- Every log is sealed

  /** A leader's checkpoint seals its log at the commit index it scanned to. */
  lemma CheckpointSealsLog(w: Workflow, p: PeerState, e: Entry)
    requires Orderly(w, p) && p.role == Leader && NoLockInFlight(p) && IsSealed(p) && p.commitIndex < |p.log|
    requires !HasOpenLock(p.log, p.commitIndex, p.lastCheckpoint)
    ensures Sealed(p.log + [e], p.commitIndex)
  {
    var log, c := p.log + [e], p.commitIndex;
    forall k, i | 0 <= i < k < |log| && log[k].tag.kind == Checkpoint && log[i].tag.kind == Lock
      ensures LockResolved(log, c, i)
    {
      if i < p.lastCheckpoint {
        assert p.log[p.lastCheckpoint].tag.kind == Checkpoint;
        assert LockResolved(p.log, c, i);
      } else {
        assert !OpenLockAt(p.log, c, i);
      }
      SameScan(p.log, log, |p.log|, c, i);
    }
  }

  lemma TimerKeepsSeal(w: Workflow, p: PeerState, tagUid: Uid)
    requires Orderly(w, p) && p.role == Leader && TimerInBounds(p, true) && CheckpointDue(p, true)
    requires NoLockInFlight(p) && IsSealed(p)
    ensures IsSealed(PeerSpec.Timeout(p, true, tagUid).peer)
  {
    var e := NewEntry(p, p.clusterEvent, p.id, Tag(tagUid, Checkpoint));
    CheckpointSealsLog(w, p, e);
    AppendGrows(p, e);
    LongerLogIsSealed(p.log + [e], p.commitIndex, p.log + [e], LastCommitted(AppendToLog(p, e).peer));
  }

  lemma GrownIsSealed(p: PeerState, p': PeerState)
    requires IsSealed(p) && Grows(p, p') && AddsNoCheckpoint(p, p')
    ensures IsSealed(p')
  {
    LongerLogIsSealed(p.log, LastCommitted(p), p'.log, LastCommitted(p'));
  }

  lemma StepKeepsSeal(cfg: Config, c: Cluster, s: Step, p: PeerState)
    requires CanHappen(cfg, c, s) && InBounds(cfg, c, s) && !s.Lose? && p == c.peers[Actor(s)]
    requires Orderly(cfg.workflow, p) && P5Honest(p, s) && P6Settled(p, s) && !IsAppendReq(c, s) && IsSealed(p)
    ensures IsSealed(EffectOf(cfg, c, s).peer)
  {
    if s.Timer? && p.role == Leader && CheckpointDue(p, s.idle) {
      TimerKeepsSeal(cfg.workflow, p, s.tagUid);
    } else {
      StepGrows(cfg, c, s, p);
      GrownIsSealed(p, EffectOf(cfg, c, s).peer);
    }
  }

  /** A follower that accepts an append is sealed as its leader was: it commits no less of that log. */
  lemma AcceptedIsSealed(p: PeerState, source: Uid, m: Message, leader: PeerState)
    requires m.AppendReq? && Accepts(p, m) && SpeaksFor(leader, m) && IsSealed(leader)
    requires RecvAppendReq(p, source, m).peer.log == leader.log
    ensures IsSealed(RecvAppendReq(p, source, m).peer)
  {
    var p' := RecvAppendReq(p, source, m).peer;
    assert LastCommitted(leader) <= LastCommitted(p');
    LongerLogIsSealed(leader.log, LastCommitted(leader), p'.log, LastCommitted(p'));
  }

  lemma RefusedIsSealed(p: PeerState, source: Uid, m: Message)
    requires m.AppendReq? && !Accepts(p, m) && IsSealed(p)
    ensures IsSealed(RecvAppendReq(p, source, m).peer)
  {}

  lemma SealedActor(cfg: Config, states: seq<Cluster>, steps: seq<Step>, i: nat, p: Uid)
    requires InOrderlyRun(cfg, states, steps, NO_EVENTS, i, p) && i < |steps| && p in states[i + 1].peers
    requires !steps[i].Lose? && Actor(steps[i]) == p && !IsAppendReq(states[i], steps[i]) && IsSealed(PeerAt(states, i, p))
    ensures IsSealed(PeerAt(states, i + 1, p))
  {
    LocksHold(cfg, states, steps, i, p, NO_EVENTS);
    PeerIsOrderly(cfg, states, steps, i, p, NO_EVENTS);
    StepOfDefinedRun(cfg, states, steps, i);
    PeersAfterStep(cfg, states[i], steps[i]);
    assert StepIsOrderly(states[i], steps[i], NO_EVENTS);
    StepKeepsSeal(cfg, states[i], steps[i], PeerAt(states, i, p));
  }

  /** In every state of a run each peer's log is sealed at what it has committed. */
  lemma {:induction false} LogsAreSealed(cfg: Config, states: seq<Cluster>, steps: seq<Step>, i: nat, p: Uid)
    requires InOrderlyRun(cfg, states, steps, NO_EVENTS, i, p)
    ensures IsSealed(PeerAt(states, i, p))
    decreases i
  {
    if i > 0 {
      var j := i - 1;
      if steps[j].Lose? || Actor(steps[j]) != p {
        OthersKeepLocks(cfg, states, steps, j, p);
        LogsAreSealed(cfg, states, steps, j, p);
      } else {
        ActorWasPeer(cfg, states, steps, j);
        LogsAreSealed(cfg, states, steps, j, p);
        if IsAppendReq(states[j], steps[j]) {
          var l, m := steps[j].link, states[j].queues[steps[j].link][0];
          DeliveredAppend(cfg, states, steps, j, l, m);
          if Accepts(PeerAt(states, j, p), m) {
            var k := AcceptedAppendCopiesTheLog(cfg, states, steps, j, l, m);
            LogsAreSealed(cfg, states, steps, k, l.source);
            AcceptedIsSealed(PeerAt(states, j, p), l.source, m, PeerAt(states, k, l.source));
          } else {
            RefusedIsSealed(PeerAt(states, j, p), l.source, m);
          }
        } else {
          SealedActor(cfg, states, steps, j, p);
        }
      }
    }
  }

  /** Checkpoint sealing: a leader's scan from its checkpoint, and the scan from the checkpoint a new leader
      would find, see an open lock exactly when a scan of everything committed does. */
  lemma CheckpointsSeal(cfg: Config, states: seq<Cluster>, steps: seq<Step>, i: nat, p: Uid)
    requires InOrderlyRun(cfg, states, steps, NO_EVENTS, i, p)
    requires PeerAt(states, i, p).commitIndex < |PeerAt(states, i, p).log|
    ensures var s := PeerAt(states, i, p);
      HasOpenLock(s.log, s.commitIndex, LatestCheckpoint(s.log)) <==> HasOpenLock(s.log, s.commitIndex, 0)
    ensures var s := PeerAt(states, i, p);
      s.role == Leader ==> (HasOpenLock(s.log, s.commitIndex, s.lastCheckpoint) <==> HasOpenLock(s.log, s.commitIndex, 0))
  {
    var s := PeerAt(states, i, p);
    LocksHold(cfg, states, steps, i, p, NO_EVENTS);
    LogsAreSealed(cfg, states, steps, i, p);
    LatestIsCheckpoint(s.log);
    SealedScans(s.log, s.commitIndex, LatestCheckpoint(s.log), s.commitIndex);
    if s.role == Leader {
      SealedScans(s.log, s.commitIndex, s.lastCheckpoint, s.commitIndex);
    }
  }

  /** The same for scans that end elsewhere: anywhere from the commit index on, or from just before the
      checkpoint on. */
  lemma CheckpointsSealBeyond(cfg: Config, states: seq<Cluster>, steps: seq<Step>, i: nat, p: Uid, c: nat)
    requires InOrderlyRun(cfg, states, steps, NO_EVENTS, i, p) && c < |PeerAt(states, i, p).log|
    ensures var s := PeerAt(states, i, p); s.commitIndex <= c || LatestCheckpoint(s.log) <= c + 1 ==>
      (HasOpenLock(s.log, c, LatestCheckpoint(s.log)) <==> HasOpenLock(s.log, c, 0))
    ensures var s := PeerAt(states, i, p); s.role == Leader && (s.commitIndex <= c || s.lastCheckpoint <= c + 1) ==>
      (HasOpenLock(s.log, c, s.lastCheckpoint) <==> HasOpenLock(s.log, c, 0))
  {
    var s := PeerAt(states, i, p);
    LocksHold(cfg, states, steps, i, p, NO_EVENTS);
    LogsAreSealed(cfg, states, steps, i, p);
    LatestIsCheckpoint(s.log);
    SealedAt(cfg.workflow, cfg.clusterEvent, s, LatestCheckpoint(s.log), c);
    if s.role == Leader {
      SealedAt(cfg.workflow, cfg.clusterEvent, s, s.lastCheckpoint, c);
    }
  }

  lemma SealedAt(w: Workflow, ownEvent: Uid, p: PeerState, k: nat, c: nat)
    requires Disciplined(w, ownEvent, p.log) && IsSealed(p)
    requires k < |p.log| && p.log[k].tag.kind == Checkpoint && c < |p.log|
    ensures p.commitIndex <= c || k <= c + 1 ==> (HasOpenLock(p.log, c, k) <==> HasOpenLock(p.log, c, 0))
  {
    if p.commitIndex <= c {
      SealedScans(p.log, LastCommitted(p), k, c);
    } else if k <= c + 1 {
      CheckpointSeals(w, ownEvent, p.log, k, c);
    }
  }

  // ---- Collected locks and the committed LOCK

  /** Lock requests leave when their LOCK is committed, so an honest answer finds it committed. */
  predicate AnswersCommitted(p: PeerState, s: Step) {
    s.CommandAnswer? && s.rsp.tag.kind == Lock ==> forall k | p.commitIndex < k < |p.log| :: p.log[k].tag != s.rsp.tag
  }

  ghost predicate AnswersFollowCommits(states: seq<Cluster>, steps: seq<Step>) {
    forall i {:trigger steps[i]} | 0 <= i < |steps| && i < |states| && Actor(steps[i]) in states[i].peers ::
      AnswersCommitted(states[i].peers[Actor(steps[i])], steps[i])
  }

  /** An own LOCK that the peer has committed is open, in its whole log. */
  predicate HasCommittedLock(p: PeerState) {
    |p.log| > 0
    && exists k :: 0 <= k <= LastCommitted(p) && OwnOpenLock(p.log, p.clusterEvent, p.log[k].tag.uid, |p.log|, k)
  }

  /** The open LOCK is still there, at its place. */
  lemma CommittedLockStays(w: Workflow, p: PeerState, p': PeerState)
    requires Disciplined(w, p'.clusterEvent, p'.log) && SameIdentity(p, p') && Grows(p, p') && HasCommittedLock(p)
    requires forall t | HasOwnLock(p, t) :: HasOwnLock(p', t)
    ensures HasCommittedLock(p')
  {
    var k :| 0 <= k <= LastCommitted(p) && OwnOpenLock(p.log, p.clusterEvent, p.log[k].tag.uid, |p.log|, k);
    var t := p.log[k].tag;
    assert HasOwnLock(p, t);
    var n :| 0 <= n < |p'.log| && OwnOpenLock(p'.log, p'.clusterEvent, t.uid, |p'.log|, n);
    assert p'.log[k] == p.log[k];
    if n < k {
      LockTagsDiffer(w, p'.clusterEvent, p'.log, n, k);
    } else if k < n {
      LockTagsDiffer(w, p'.clusterEvent, p'.log, k, n);
    }
  }

  /** An answer that leaves locks collected leaves the log alone, so the LOCK it is about is committed. */
  lemma AnsweredLockIsCommitted(p: PeerState, rsp: CommandRsp, p': PeerState)
    requires CommandRspInBounds(p, rsp) && LockAnswerCounts(p, rsp) && p' == RecvCommandRsp(p, rsp).peer
    requires p'.lockedEvents != {} && HasOwnLock(p', rsp.tag)
    requires forall k | p.commitIndex < k < |p.log| :: p.log[k].tag != rsp.tag
    ensures HasCommittedLock(p')
  {
    assert p'.log == p.log && p'.commitIndex == p.commitIndex;
    var k :| 0 <= k < |p'.log| && OwnOpenLock(p'.log, p'.clusterEvent, rsp.tag.uid, |p'.log|, k);
    assert p'.log[k].tag == rsp.tag;
  }

  lemma StepKeepsCommittedLock(cfg: Config, c: Cluster, s: Step, p: PeerState, p': PeerState, scope: iset<Uid>)
    requires CanHappen(cfg, c, s) && InBounds(cfg, c, s) && !s.Lose?
    requires p == c.peers[Actor(s)] && p' == EffectOf(cfg, c, s).peer && !IsAppendReq(c, s) && |p.log| > 0
    requires SameIdentity(p, p') && KeepsCollecting(cfg.workflow, p, p', StepTag(s), StepAnswers(p, s), scope)
    requires AnswersCommitted(p, s) && p'.role == Leader && Within(p'.lockedEvents, scope) != {}
    requires p.role == Leader && Within(p.lockedEvents, scope) != {} ==> HasCommittedLock(p)
    ensures HasCommittedLock(p')
  {
    if Within(p.lockedEvents, scope) != {} {
      StepGrows(cfg, c, s, p);
      CommittedLockStays(cfg.workflow, p, p');
    } else {
      assert StepAnswers(p, s) != {} by {
        var x :| x in Within(p'.lockedEvents, scope);
        assert x in p.lockedEvents ==> x in Within(p.lockedEvents, scope);
      }
      AnsweredLockIsCommitted(p, s.rsp, p');
    }
  }

  lemma ActorHoldsForCommitted(cfg: Config, states: seq<Cluster>, steps: seq<Step>, scope: iset<Uid>, i: nat, p: Uid)
    requires InOrderlyRun(cfg, states, steps, scope, i, p) && i < |steps| && p in states[i + 1].peers
    requires !steps[i].Lose? && Actor(steps[i]) == p && !IsAppendReq(states[i], steps[i])
    requires AnswersCommitted(PeerAt(states, i, p), steps[i])
    requires PeerAt(states, i + 1, p).role == Leader && Within(PeerAt(states, i + 1, p).lockedEvents, scope) != {}
    requires PeerAt(states, i, p).role == Leader && Within(PeerAt(states, i, p).lockedEvents, scope) != {} ==>
      HasCommittedLock(PeerAt(states, i, p))
    ensures HasCommittedLock(PeerAt(states, i + 1, p))
  {
    var c, s := states[i], PeerAt(states, i, p);
    LocksHold(cfg, states, steps, i, p, scope);
    PeerIsOrderly(cfg, states, steps, i, p, scope);
    StepOfDefinedRun(cfg, states, steps, i);
    PeersAfterStep(cfg, c, steps[i]);
    assert StepIsOrderly(c, steps[i], scope);
    StepKeepsCollecting(cfg, c, steps[i], s, scope);
    StepKeepsIdentity(cfg, c, steps[i]);
    StepKeepsCommittedLock(cfg, c, steps[i], s, PeerAt(states, i + 1, p), scope);
  }

  lemma {:induction false} HeldForCommittedLock(cfg: Config, states: seq<Cluster>, steps: seq<Step>, scope: iset<Uid>,
                                                i: nat, p: Uid)
    requires InOrderlyRun(cfg, states, steps, scope, i, p) && AnswersFollowCommits(states, steps)
    requires PeerAt(states, i, p).role == Leader && Within(PeerAt(states, i, p).lockedEvents, scope) != {}
    ensures HasCommittedLock(PeerAt(states, i, p))
    decreases i
  {
    if i > 0 {
      var j := i - 1;
      if steps[j].Lose? || Actor(steps[j]) != p {
        OthersKeepLocks(cfg, states, steps, j, p);
        HeldForCommittedLock(cfg, states, steps, scope, j, p);
      } else {
        ActorWasPeer(cfg, states, steps, j);
        if PeerAt(states, j, p).role == Leader && Within(PeerAt(states, j, p).lockedEvents, scope) != {} {
          HeldForCommittedLock(cfg, states, steps, scope, j, p);
        }
        if IsAppendReq(states[j], steps[j]) {
          var _, _ := AppendedLog(cfg, states, steps, j);
        } else {
          ActorHoldsForCommitted(cfg, states, steps, scope, j, p);
        }
      }
    }
  }

  /** Where answers are about committed LOCKs only, a leader whose scan from its checkpoint to its commit
      index finds no open LOCK of its own event holds no collected lock of the scope. */
  lemma NoLocksWithoutCommittedLock(cfg: Config, states: seq<Cluster>, steps: seq<Step>, scope: iset<Uid>, i: nat, p: Uid)
    requires InOrderlyRun(cfg, states, steps, scope, i, p) && AnswersFollowCommits(states, steps)
    requires PeerAt(states, i, p).role == Leader && PeerAt(states, i, p).commitIndex < |PeerAt(states, i, p).log|
    requires var s := PeerAt(states, i, p);
      forall k | s.lastCheckpoint <= k <= s.commitIndex && s.log[k].event == cfg.clusterEvent ::
        !OpenLockAt(s.log, s.commitIndex, k)
    ensures Within(PeerAt(states, i, p).lockedEvents, scope) == {}
    ensures scope == ALL_EVENTS ==> PeerAt(states, i, p).lockedEvents == {}
  {
    var s := PeerAt(states, i, p);
    LocksHold(cfg, states, steps, i, p, scope);
    if Within(s.lockedEvents, scope) != {} {
      HeldForCommittedLock(cfg, states, steps, scope, i, p);
      WiderScope(cfg, states, steps, scope);
      LogsAreSealed(cfg, states, steps, i, p);
      var k :| 0 <= k <= LastCommitted(s) && OwnOpenLock(s.log, s.clusterEvent, s.log[k].tag.uid, |s.log|, k);
      OpenWhereScanned(s, k);
    }
    assert scope == ALL_EVENTS ==> Within(s.lockedEvents, scope) == s.lockedEvents;
  }

  /** A run that meets P3 for some scope meets it for the empty one. */
  lemma WiderScope(cfg: Config, states: seq<Cluster>, steps: seq<Step>, scope: iset<Uid>)
    requires IsOrderlyRun(cfg, states, steps, scope)
    ensures IsOrderlyRun(cfg, states, steps, NO_EVENTS)
  {
    forall i | 0 <= i < |steps| ensures StepIsOrderly(states[i], steps[i], NO_EVENTS) {
      assert StepIsOrderly(states[i], steps[i], scope);
    }
  }

  /** A LOCK that is open up to some index is open up to every earlier one. */
  lemma OpenEarlier(log: seq<Entry>, c: nat, d: nat, k: nat)
    requires k <= c <= d < |log| && OpenLockAt(log, d, k)
    ensures OpenLockAt(log, c, k)
  {}

  lemma OpenWhereScanned(p: PeerState, k: nat)
    requires IsSealed(p) && p.commitIndex < |p.log| && Anchored(p) && k <= p.commitIndex
    requires OwnOpenLock(p.log, p.clusterEvent, p.log[k].tag.uid, |p.log|, k)
    ensures p.lastCheckpoint <= k && OpenLockAt(p.log, p.commitIndex, k)
  {
    OpenEarlier(p.log, p.commitIndex, |p.log| - 1, k);
    assert p.log[p.lastCheckpoint].tag.kind == Checkpoint;
  }
}

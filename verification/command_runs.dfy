/** What commands do to the log, over whole runs: exactly when one is logged, and that an event is logged, and
    in the end executed, only where it was enabled. */
module CommandRuns {
  import opened Uids
  import opened Workflows
  import opened PeerSpec
  import opened Clusters
  import opened ClusterSafety
  import opened CatchingUp
  import opened DcrTheorems
  import opened Locks
  import opened LockRuns
  import opened LockScans
  import Peers

  // ---- Every workflow keeps the own event

  /** What the workflow of a peer never loses: its relations stay inside it, and it has the event. */
  predicate Knows(w: Workflow, e: Uid) {
    References(w) && IsEvent(w, e)
  }

  lemma {:induction false} ApplyKnows(w: Workflow, entries: seq<Entry>, e: Uid)
    requires Knows(w, e)
    ensures Knows(Apply(w, entries), e)
  {
    Peers.ApplyKeepsReferences(w, entries);
    if entries != [] {
      var front, last := entries[..|entries| - 1], entries[|entries| - 1];
      ApplyKnows(w, front, e);
      ExecuteKeepsEvent(Apply(w, front), last.event, e);
    }
  }

  lemma CommitKnows(p: PeerState, n: nat, e: Uid)
    requires n < |p.log| && Knows(p.workflow, e)
    ensures Knows(UpdateCommitIndex(p, n).workflow, e)
  {
    ApplyKnows(p.workflow, Uncommitted(p, n), e);
  }

  lemma AppendKnows(p: PeerState, entry: Entry, e: Uid)
    requires |p.log| > 0 && Knows(p.workflow, e)
    ensures Knows(AppendToLog(p, entry).peer.workflow, e)
  {
    CommitKnows(p.(log := p.log + [entry]), |p.log|, e);
  }

  lemma CallsKnow(p: PeerState, req: CommandReq, rsp: CommandRsp, e: Uid)
    requires |p.log| > 0 && Knows(p.workflow, e)
    ensures CommandReqInBounds(p, req) ==> Knows(RecvCommandReq(p, req).peer.workflow, e)
    ensures CommandRspInBounds(p, rsp) ==> Knows(RecvCommandRsp(p, rsp).peer.workflow, e)
  {
    if CommandReqInBounds(p, req) && EntryForCommand(p, req) != [] {
      AppendKnows(p, EntryForCommand(p, req)[0], e);
    }
    var p1 := p.(lockedEvents := p.lockedEvents + {EventOfPeer(p, rsp.source)});
    AppendKnows(p1, NewEntry(p1, p.clusterEvent, p.id, Tag(rsp.tag.uid, Exec)), e);
  }

  lemma TimerKnows(p: PeerState, idle: bool, tagUid: Uid, e: Uid)
    requires |p.log| > 0 && Knows(p.workflow, e) && TimerInBounds(p, idle)
    ensures Knows(PeerSpec.Timeout(p, idle, tagUid).peer.workflow, e)
  {
    AppendKnows(p, NewEntry(p, p.clusterEvent, p.id, Tag(tagUid, Checkpoint)), e);
  }

  lemma AcceptKnows(p: PeerState, source: Uid, m: Message, e: Uid)
    requires m.AppendReq? && Knows(p.workflow, e)
    ensures Knows(RecvAppendReq(p, source, m).peer.workflow, e)
  {
    var p1 := Overtake(p, m.term, source);
    if m.term >= p1.term && p1.role == Follower && TermAndIndexExist(p1.log, m.prevTerm, m.prevIndex) {
      var p2 := p1.(log := UpTo(p1.log, m.prevIndex) + m.entries);
      var last := |p2.log| - 1;
      CommitKnows(p2, if m.commitIndex < last then m.commitIndex else last, e);
    }
  }

  lemma ReportedKnows(p: PeerState, n: nat, p': PeerState, e: Uid)
    requires n < |p.log| && Knows(p.workflow, e) && (p' == p || p' == UpdateCommitIndex(p, n))
    ensures Knows(p'.workflow, e)
  {
    CommitKnows(p, n, e);
  }

  lemma ReportKnows(p: PeerState, source: Uid, m: Message, e: Uid)
    requires m.AppendRsp? && AppendRspInBounds(p, source, m) && Knows(p.workflow, e)
    ensures Knows(RecvAppendRsp(p, source, m).peer.workflow, e)
  {
    if m.term <= p.term && p.role == Leader && m.success {
      var p1 := p.(indices := p.indices[source := m.lastIndex]);
      ReportedKnows(p1, CommitRule.MajorityIndex(p1.indices), RecvAppendRsp(p, source, m).peer, e);
    }
  }

  lemma MessageKnows(p: PeerState, source: Uid, m: Message, e: Uid)
    requires |p.log| > 0 && Knows(p.workflow, e) && (m.AppendRsp? ==> AppendRspInBounds(p, source, m))
    ensures Knows(Handle(p, source, m).peer.workflow, e)
  {
    match m
    case ElectionReq(_, _, _) =>
    case ElectionRsp(_, _, _) =>
    case AppendReq(_, _, _, _, _) => AcceptKnows(p, source, m, e);
    case AppendRsp(_, _, _, _, _, _) => ReportKnows(p, source, m, e);
  }

  lemma StepKnows(cfg: Config, c: Cluster, s: Step, p: PeerState, e: Uid)
    requires CanHappen(cfg, c, s) && InBounds(cfg, c, s) && !s.Lose? && p == c.peers[Actor(s)]
    requires |p.log| > 0 && Knows(p.workflow, e)
    ensures Knows(EffectOf(cfg, c, s).peer.workflow, e)
  {
    match s
    case Timer(_, idle, tagUid) => TimerKnows(p, idle, tagUid, e);
    case PollWon(_) =>
    case Learn(_, _, _) =>
    case Command(_, req) => CallsKnow(p, req, CommandRsp(0, Tag(0, Lock), false, 0), e);
    case CommandAnswer(_, rsp) => CallsKnow(p, CommandReq(0, Tag(0, Lock), 0), rsp, e);
    case Deliver(l) => MessageKnows(p, l.source, c.queues[l][0], e);
  }

  lemma {:induction false} KnowsInRun(cfg: Config, states: seq<Cluster>, steps: seq<Step>, i: nat, p: Uid)
    requires InDefinedRun(cfg, states, steps, i, p) && Knows(cfg.workflow, cfg.clusterEvent)
    ensures Knows(PeerAt(states, i, p).workflow, cfg.clusterEvent)
    decreases i
  {
    if i > 0 {
      if steps[i - 1].Lose? || Actor(steps[i - 1]) != p {
        OthersKeepLocks(cfg, states, steps, i - 1, p);
        KnowsInRun(cfg, states, steps, i - 1, p);
      } else {
        ActorWasPeer(cfg, states, steps, i - 1);
        KnowsInRun(cfg, states, steps, i - 1, p);
        ReachableIsRooted(cfg, states, steps, i - 1, p);
        StepOfDefinedRun(cfg, states, steps, i - 1);
        PeersAfterStep(cfg, states[i - 1], steps[i - 1]);
        StepKnows(cfg, states[i - 1], steps[i - 1], PeerAt(states, i - 1, p), cfg.clusterEvent);
      }
    }
  }

  // ---- Own events are logged where they are enabled

  /** A peer's own event is the one its cluster was configured with. */
  lemma {:induction false} OwnEventInRun(cfg: Config, states: seq<Cluster>, steps: seq<Step>, i: nat, p: Uid)
    requires InDefinedRun(cfg, states, steps, i, p)
    ensures PeerAt(states, i, p).clusterEvent == cfg.clusterEvent
    decreases i
  {
    if i > 0 {
      if steps[i - 1].Lose? || Actor(steps[i - 1]) != p {
        OthersKeepLocks(cfg, states, steps, i - 1, p);
        OwnEventInRun(cfg, states, steps, i - 1, p);
      } else {
        ActorWasPeer(cfg, states, steps, i - 1);
        OwnEventInRun(cfg, states, steps, i - 1, p);
        StepOfDefinedRun(cfg, states, steps, i - 1);
        PeersAfterStep(cfg, states[i - 1], steps[i - 1]);
        StepKeepsIdentity(cfg, states[i - 1], steps[i - 1]);
      }
    }
  }

  lemma CommandInRun(cfg: Config, states: seq<Cluster>, steps: seq<Step>, i: nat, p: Uid, req: CommandReq)
    requires InDefinedRun(cfg, states, steps, i, p) && i < |steps| && steps[i] == Command(p, req)
    ensures CommandReqInBounds(PeerAt(states, i, p), req) && p in states[i + 1].peers
    ensures PeerAt(states, i + 1, p) == RecvCommandReq(PeerAt(states, i, p), req).peer
    ensures PeerAt(states, i, p).clusterEvent == cfg.clusterEvent && PeerAt(states, i, p).id == p
  {
    StepOfDefinedRun(cfg, states, steps, i);
    PeersAfterStep(cfg, states[i], steps[i]);
    OwnEventInRun(cfg, states, steps, i, p);
    SameIdInRun(cfg, states, steps, i, p);
  }

  lemma SameIdInRun(cfg: Config, states: seq<Cluster>, steps: seq<Step>, i: nat, p: Uid)
    requires InDefinedRun(cfg, states, steps, i, p)
    ensures PeerAt(states, i, p).id == p
    ensures LockSet(PeerAt(states, i, p).workflow, cfg.clusterEvent) == LockSet(cfg.workflow, cfg.clusterEvent)
  {
    PeerInRun(cfg, states, steps, i, p);
    SameLockSet(cfg.workflow, PeerAt(states, i, p).workflow, cfg.clusterEvent);
  }

  /** A command that makes a leader log an entry of the own event finds that event enabled, in the sets of the DCR
      semantics, in every run under P1 and P2, whatever else has happened. */
  lemma OwnCommandsAreEnabled(cfg: Config, states: seq<Cluster>, steps: seq<Step>, i: nat, p: Uid, req: CommandReq)
    requires InDefinedRun(cfg, states, steps, i, p) && i < |steps| && steps[i] == Command(p, req)
    requires HonestRequest(PeerAt(states, i, p), req) && Knows(cfg.workflow, cfg.clusterEvent)
    requires p in states[i + 1].peers && |PeerAt(states, i + 1, p).log| > |PeerAt(states, i, p).log|
    requires PeerAt(states, i + 1, p).log[|PeerAt(states, i, p).log|].event == cfg.clusterEvent
    ensures EnabledInMarking(PeerAt(states, i, p).workflow, cfg.clusterEvent)
  {
    CommandInRun(cfg, states, steps, i, p, req);
    KnowsInRun(cfg, states, steps, i, p);
    EnabledIsDcr(PeerAt(states, i, p).workflow, cfg.clusterEvent);
  }

  // ---- Where entries come from

  /** At step j peer q appended, of its own, the entry at position k of this log, behind the same entries. */
  ghost predicate AppendedAt(states: seq<Cluster>, steps: seq<Step>, j: nat, q: Uid, k: nat, log: seq<Entry>) {
    && j < |steps| && j + 1 < |states| && q in states[j].peers && q in states[j + 1].peers && k < |log|
    && !steps[j].Lose? && Actor(steps[j]) == q && !IsAppendReq(states[j], steps[j])
    && |PeerAt(states, j, q).log| == k < |PeerAt(states, j + 1, q).log|
    && PeerAt(states, j + 1, q).log[..k + 1] == log[..k + 1]
  }

  lemma ActorGrows(cfg: Config, states: seq<Cluster>, steps: seq<Step>, i: nat, p: Uid)
    requires InDefinedRun(cfg, states, steps, i, p) && i < |steps| && p in states[i + 1].peers
    requires !steps[i].Lose? && Actor(steps[i]) == p && !IsAppendReq(states[i], steps[i])
    ensures Grows(PeerAt(states, i, p), PeerAt(states, i + 1, p))
  {
    ReachableIsRooted(cfg, states, steps, i, p);
    StepOfDefinedRun(cfg, states, steps, i);
    PeersAfterStep(cfg, states[i], steps[i]);
    StepGrows(cfg, states[i], steps[i], PeerAt(states, i, p));
  }

  /** Every entry of every log but the first was appended by some peer itself, which is to say by a leader. */
  lemma {:induction false} Origin(cfg: Config, states: seq<Cluster>, steps: seq<Step>, i: nat, p: Uid, k: nat)
    returns (j: nat, q: Uid)
    requires InDefinedRun(cfg, states, steps, i, p) && 0 < k < |PeerAt(states, i, p).log|
    ensures j < i && AppendedAt(states, steps, j, q, k, PeerAt(states, i, p).log)
    decreases i
  {
    if steps[i - 1].Lose? || Actor(steps[i - 1]) != p {
      OthersKeepLocks(cfg, states, steps, i - 1, p);
      j, q := Origin(cfg, states, steps, i - 1, p, k);
    } else {
      ActorWasPeer(cfg, states, steps, i - 1);
      if IsAppendReq(states[i - 1], steps[i - 1]) {
        var n, r := AppendedLog(cfg, states, steps, i - 1);
        j, q := Origin(cfg, states, steps, n, r, k);
      } else {
        ActorGrows(cfg, states, steps, i - 1, p);
        var before, now := PeerAt(states, i - 1, p).log, PeerAt(states, i, p).log;
        if k < |before| {
          j, q := Origin(cfg, states, steps, i - 1, p, k);
          assert before[..k + 1] == now[..k + 1];
        } else {
          j, q := i - 1, p;
        }
      }
    }
  }

  /** Which steps append which entries. */
  lemma AppendedKind(cfg: Config, c: Cluster, s: Step, p: PeerState, p': PeerState)
    requires CanHappen(cfg, c, s) && InBounds(cfg, c, s) && !s.Lose? && p == c.peers[Actor(s)]
    requires |p.log| > 0 && !IsAppendReq(c, s) && P5Honest(p, s) && p' == EffectOf(cfg, c, s).peer && |p'.log| > |p.log|
    ensures p'.log[|p.log|].tag.kind == Lock ==> s.Command? && p'.log[|p.log|].tag == s.req.tag
    ensures p'.log[|p.log|].tag.kind == Exec ==>
      (s.Command? && p'.log[|p.log|].tag.uid == s.req.tag.uid)
      || (s.CommandAnswer? && p'.log[|p.log|].tag.uid == s.rsp.tag.uid)
  {
    match s
    case Timer(_, idle, tagUid) => TimerGrows(p, idle, tagUid);
    case PollWon(_) =>
    case Learn(_, _, _) =>
    case Command(_, req) =>
    case CommandAnswer(_, rsp) =>
    case Deliver(l) => MessageGrows(p, l.source, c.queues[l][0]);
  }

  lemma AppendedKindInRun(cfg: Config, states: seq<Cluster>, steps: seq<Step>, j: nat, q: Uid, k: nat, log: seq<Entry>)
    requires IsOrderlyRun(cfg, states, steps, NO_EVENTS) && AppendedAt(states, steps, j, q, k, log)
    ensures HonestStep(states, steps, j, q)
    ensures log[k].tag.kind == Lock ==> steps[j].Command? && log[k].tag == steps[j].req.tag
    ensures log[k].tag.kind == Exec ==>
      (steps[j].Command? && log[k].tag.uid == steps[j].req.tag.uid)
      || (steps[j].CommandAnswer? && log[k].tag.uid == steps[j].rsp.tag.uid)
  {
    ReachableIsRooted(cfg, states, steps, j, q);
    StepOfDefinedRun(cfg, states, steps, j);
    PeersAfterStep(cfg, states[j], steps[j]);
    assert StepIsOrderly(states[j], steps[j], NO_EVENTS);
    AppendedKind(cfg, states[j], steps[j], PeerAt(states, j, q), PeerAt(states, j + 1, q));
    assert PeerAt(states, j + 1, q).log[..k + 1][k] == log[..k + 1][k];
  }

  ghost predicate HonestStep(states: seq<Cluster>, steps: seq<Step>, j: nat, q: Uid) {
    j < |steps| && j < |states| && q in states[j].peers && P5Honest(PeerAt(states, j, q), steps[j])
  }

  /** At step j the own event, enabled there, was logged by a command with the tag id of entry n of this log, as
      that very entry. */
  ghost predicate LoggedEnabled(cfg: Config, states: seq<Cluster>, steps: seq<Step>, j: nat, q: Uid, n: nat,
                                log: seq<Entry>)
  {
    && AppendedAt(states, steps, j, q, n, log) && log[n].event == cfg.clusterEvent
    && steps[j].Command? && steps[j].req.tag.uid == log[n].tag.uid
    && EnabledInMarking(PeerAt(states, j, q).workflow, cfg.clusterEvent)
  }

  lemma LoggedByCommand(cfg: Config, states: seq<Cluster>, steps: seq<Step>, j: nat, q: Uid, n: nat, log: seq<Entry>)
    requires IsOrderlyRun(cfg, states, steps, NO_EVENTS) && Knows(cfg.workflow, cfg.clusterEvent)
    requires AppendedAt(states, steps, j, q, n, log) && log[n].event == cfg.clusterEvent
    requires steps[j].Command? && steps[j].req.tag.uid == log[n].tag.uid && HonestStep(states, steps, j, q)
    ensures LoggedEnabled(cfg, states, steps, j, q, n, log)
  {
    assert PeerAt(states, j + 1, q).log[..n + 1][n] == log[..n + 1][n];
    OwnCommandsAreEnabled(cfg, states, steps, j, q, steps[j].req);
  }

  /** The LOCK behind an own EXEC that an answer made q append. */
  lemma LockOfExec(cfg: Config, states: seq<Cluster>, steps: seq<Step>, j: nat, q: Uid) returns (n: nat)
    requires InOrderlyRun(cfg, states, steps, NO_EVENTS, j, q) && j < |steps| && q in states[j + 1].peers
    requires steps[j].CommandAnswer? && steps[j].peer == q
    requires PeerAt(states, j + 1, q).log != PeerAt(states, j, q).log
    ensures 0 < n < |PeerAt(states, j, q).log|
    ensures PeerAt(states, j, q).log[n].tag == Tag(steps[j].rsp.tag.uid, Lock)
    ensures PeerAt(states, j, q).log[n].event == cfg.clusterEvent
  {
    var s, rsp := PeerAt(states, j, q), steps[j].rsp;
    AnswerInRun(cfg, states, steps, NO_EVENTS, j, q, rsp);
    AnswerThatAppends(s, rsp);
    AnsweredLock(cfg.workflow, s, rsp);
    n := IndexOfTag(s.log, rsp.tag);
  }

  /** An own event is executed only where it was started while enabled: every own EXEC of any log goes back to an
      entry of that log with its tag id, the EXEC itself or an own LOCK before it, that a command made a leader
      append while the event was enabled. */
  lemma OwnExecutionsWereEnabled(cfg: Config, states: seq<Cluster>, steps: seq<Step>, i: nat, p: Uid, k: nat)
    returns (j: nat, q: Uid, n: nat)
    requires InOrderlyRun(cfg, states, steps, NO_EVENTS, i, p) && Knows(cfg.workflow, cfg.clusterEvent)
    requires 0 < k < |PeerAt(states, i, p).log| && PeerAt(states, i, p).log[k].event == cfg.clusterEvent
    requires PeerAt(states, i, p).log[k].tag.kind == Exec
    ensures j < i && n <= k && PeerAt(states, i, p).log[n].tag.uid == PeerAt(states, i, p).log[k].tag.uid
    ensures n < k ==> PeerAt(states, i, p).log[n].tag.kind == Lock
    ensures LoggedEnabled(cfg, states, steps, j, q, n, PeerAt(states, i, p).log)
  {
    var log := PeerAt(states, i, p).log;
    j, q := Origin(cfg, states, steps, i, p, k);
    AppendedKindInRun(cfg, states, steps, j, q, k, log);
    if steps[j].Command? {
      n := k;
    } else {
      var earlier, now := PeerAt(states, j, q).log, PeerAt(states, j + 1, q).log;
      ActorGrows(cfg, states, steps, j, q);
      n := LockOfExec(cfg, states, steps, j, q);
      SamePrefix(earlier, now, log, k);
      j, q := Origin(cfg, states, steps, j, q, n);
      SameOrigin(states, steps, j, q, n, k, earlier, log);
      AppendedKindInRun(cfg, states, steps, j, q, n, log);
    }
    LoggedByCommand(cfg, states, steps, j, q, n, log);
  }

  lemma SamePrefix(earlier: seq<Entry>, now: seq<Entry>, log: seq<Entry>, k: nat)
    requires k == |earlier| < |now| && earlier <= now && k < |log| && now[..k + 1] == log[..k + 1]
    ensures earlier == log[..k]
    ensures forall n | 0 <= n < k :: earlier[n] == log[n]
  {
    assert log[..k] == log[..k + 1][..k] == now[..k];
    assert forall n | 0 <= n < k :: log[..k][n] == log[n];
  }

  lemma SameOrigin(states: seq<Cluster>, steps: seq<Step>, j: nat, q: Uid, n: nat, k: nat, earlier: seq<Entry>,
                   log: seq<Entry>)
    requires AppendedAt(states, steps, j, q, n, earlier) && n < k == |earlier| < |log| && earlier == log[..k]
    ensures AppendedAt(states, steps, j, q, n, log)
  {
    assert earlier[..n + 1] == log[..n + 1];
  }

  // ---- Exactly when a command is logged

  /** Every LOCK up to index c has been resolved by then: an entry of its event that is no LOCK follows it. */
  predicate NothingOpen(log: seq<Entry>, c: nat) {
    forall k | 0 <= k <= c && k < |log| && log[k].tag.kind == Lock ::
      exists j :: k < j <= c && j < |log| && log[j].tag.kind != Lock && log[j].event == log[k].event
  }

  /** What stands in the way of nothing: the leader has not logged the request, and where it asks for a lock, no
      committed LOCK is open and the own event, if it is asked for, is enabled. */
  predicate IsWelcome(cfg: Config, p: PeerState, req: CommandReq) {
    && p.role == Leader && (forall k | 0 <= k < |p.log| :: p.log[k].tag != req.tag)
    && (req.tag.kind == Lock ==>
          && NothingOpen(p.log, p.commitIndex)
          && (req.event == cfg.clusterEvent ==> EnabledInMarking(p.workflow, cfg.clusterEvent)))
  }

  /** The entry made of a request: a lock of the own event that has nothing to lock is an execution. */
  function EntryOf(cfg: Config, p: PeerState, req: CommandReq): Entry {
    var free := req.tag.kind == Lock && req.event == cfg.clusterEvent && LockSet(cfg.workflow, cfg.clusterEvent) == {};
    Entry(|p.log|, p.term, req.event, req.source, Tag(req.tag.uid, if free then Exec else req.tag.kind))
  }

  lemma NothingOpenIff(log: seq<Entry>, c: nat)
    requires c < |log|
    ensures NothingOpen(log, c) <==> !HasOpenLock(log, c, 0)
  {
    forall k | 0 <= k <= c ensures OpenLockAt(log, c, k) <==>
      (log[k].tag.kind == Lock
       && !exists j :: k < j <= c && j < |log| && log[j].tag.kind != Lock && log[j].event == log[k].event)
    {}
  }

  /** Over runs: a command is logged exactly where it is welcome, as the entry made of it, and nothing else is. */
  lemma CommandIsLoggedIff(cfg: Config, states: seq<Cluster>, steps: seq<Step>, i: nat, p: Uid, req: CommandReq)
    requires InOrderlyRun(cfg, states, steps, NO_EVENTS, i, p) && i < |steps| && steps[i] == Command(p, req)
    requires Knows(cfg.workflow, cfg.clusterEvent) && p in states[i + 1].peers
    ensures PeerAt(states, i + 1, p).log
         == PeerAt(states, i, p).log
          + if IsWelcome(cfg, PeerAt(states, i, p), req) then [EntryOf(cfg, PeerAt(states, i, p), req)] else []
  {
    var s := PeerAt(states, i, p);
    CommandInRun(cfg, states, steps, i, p, req);
    SameIdInRun(cfg, states, steps, i, p);
    KnowsInRun(cfg, states, steps, i, p);
    EnabledIsDcr(s.workflow, cfg.clusterEvent);
    if s.role == Leader && !TagExists(s.log, req.tag) && req.tag.kind == Lock {
      CheckpointsSeal(cfg, states, steps, i, p);
      NothingOpenIff(s.log, s.commitIndex);
    }
    EntryIs(cfg, s, req);
  }

  lemma EntryIs(cfg: Config, p: PeerState, req: CommandReq)
    requires CommandReqInBounds(p, req) && p.clusterEvent == cfg.clusterEvent
    requires LockSet(p.workflow, cfg.clusterEvent) == LockSet(cfg.workflow, cfg.clusterEvent)
    requires Enabled(p.workflow, cfg.clusterEvent) <==> EnabledInMarking(p.workflow, cfg.clusterEvent)
    requires p.role == Leader && !TagExists(p.log, req.tag) && req.tag.kind == Lock ==>
      (NothingOpen(p.log, p.commitIndex) <==> !HasOpenLock(p.log, p.commitIndex, p.lastCheckpoint))
    ensures EntryForCommand(p, req) == if IsWelcome(cfg, p, req) then [EntryOf(cfg, p, req)] else []
  {}
}

/** Every step under P1 and P2 that reads inside its vectors keeps the part of the invariant about elections
    and logs; every step under P1 to P4 reads inside its vectors and keeps both parts. */
module ClusterNext {
  import opened Uids
  import opened PeerSpec
  import opened Clusters
  import opened ClusterInvariant
  import opened LeaderCompleteness
  import opened ClusterSteps
  import opened ClusterElection
  import opened ClusterReplication

  // ---- The first state

  ghost function InitialHistory(cfg: Config, commits: bool): History {
    var leader := if ClusterSize(cfg) == 1 then cfg.members[0] else EMPTY_UID;
    History(
      commits,
      map[0 := Reign(leader, 0, [EMPTY_ENTRY], {})],
      map[],
      map p | p in Members(cfg) :: At(p, 0) := 1,
      map[])
  }

  lemma InitialHistoryInv(cfg: Config, commits: bool)
    requires ValidConfig(cfg)
    ensures HistoryInv(cfg, InitialHistory(cfg, commits))
  {
    var h := InitialHistory(cfg, commits);
    var log := [EMPTY_ENTRY];
    assert RecordedAt(h, log, 0);
    assert ReignInv(h, 0);
  }

  lemma InitialCommit(cfg: Config, commits: bool)
    requires ValidConfig(cfg)
    ensures Stable(cfg, InitialHistory(cfg, commits), 0, 0)
  {
    var h := InitialHistory(cfg, commits);
    var acceptors := Acceptors(cfg, h, 0, 0);
    forall p | p in Members(cfg) ensures p in acceptors {
      assert At(p, 0) in h.accepted;
      assert AcceptedEntry(h, p, 0, 0);
    }
    SubsetSize(Members(cfg), acceptors);
    ElementsSize(cfg.members);
    assert Committed(cfg, h, 0, 0);
  }

  lemma InitialCommitPart(cfg: Config, h: History, p: Uid, s: PeerState)
    requires ValidConfig(cfg) && p in Members(cfg) && h == InitialHistory(cfg, true)
    requires s == Configured(p, cfg.members, cfg.clusterEvent, cfg.peerToEvent, cfg.firstLeader, cfg.workflow)
    ensures CommitPart(cfg, h, p, s)
  {
    InitialCommit(cfg, true);
    assert At(p, 0) in h.accepted;
    StableIsHeld(cfg, h, p, 0, s.log, 0);
    assert s.log[..1] == s.log;
    assert s.log[..0] == [];
    assert Apply(cfg.workflow, s.log) == cfg.workflow;
  }

  lemma InitialLogPart(cfg: Config, h: History, p: Uid, s: PeerState)
    requires ValidConfig(cfg) && p in Members(cfg) && h == InitialHistory(cfg, h.commits)
    requires s == Configured(p, cfg.members, cfg.clusterEvent, cfg.peerToEvent, cfg.firstLeader, cfg.workflow)
    ensures LogPart(cfg, h, p, s)
  {
    assert RecordedAt(h, s.log, 0);
    assert At(p, 0) in h.accepted;
    forall t: nat, n: nat | AcceptedEntry(h, p, t, n) ensures Kept(h, s.log, n, t, 1) {
      assert Has(s.log, n, t);
    }
  }

  lemma InitialPeer(cfg: Config, h: History, p: Uid, s: PeerState)
    requires ValidConfig(cfg) && p in Members(cfg) && h == InitialHistory(cfg, h.commits)
    requires s == Configured(p, cfg.members, cfg.clusterEvent, cfg.peerToEvent, cfg.firstLeader, cfg.workflow)
    ensures PeerInv(cfg, h, p, s)
  {
    InitialLogPart(cfg, h, p, s);
    if h.commits {
      InitialCommitPart(cfg, h, p, s);
    }
  }

  lemma InitKeepsInv(cfg: Config, c: Cluster, commits: bool)
    requires ValidConfig(cfg) && Init(cfg, c)
    ensures Inv(cfg, c, InitialHistory(cfg, commits))
  {
    var h := InitialHistory(cfg, commits);
    InitialHistoryInv(cfg, commits);
    forall p | p in c.peers ensures PeerInv(cfg, h, p, c.peers[p]) {
      InitialPeer(cfg, h, p, c.peers[p]);
    }
    forall l | l in c.queues ensures QueueInv(cfg, h, l, c.queues[l]) {
      assert c.queues[l] == [];
    }
  }

  // ---- Taking a message off its queue

  lemma PopQueue(cfg: Config, h: History, l: Link, q: seq<Message>)
    requires QueueInv(cfg, h, l, q) && q != []
    ensures MessageInv(cfg, h, l, q[0]) && NewsInv(h, l, q[0])
    ensures QueueInv(cfg, h, l, q[1..])
    ensures forall i | 0 <= i < |q[1..]| :: OrderInv(q[0], q[1..][i])
  {
    var rest := q[1..];
    forall i | 0 <= i < |rest| ensures MessageInv(cfg, h, l, rest[i]) && NewsInv(h, l, rest[i]) && OrderInv(q[0], rest[i]) {
      assert rest[i] == q[i + 1];
      assert OrderInv(q[0], q[i + 1]);
    }
    forall i, j | 0 <= i < j < |rest| ensures OrderInv(rest[i], rest[j]) {
      assert OrderInv(q[i + 1], q[j + 1]);
    }
  }

  lemma PopKeepsInv(cfg: Config, c: Cluster, h: History, l: Link)
    requires Inv(cfg, c, h) && l in c.queues && c.queues[l] != []
    ensures Inv(cfg, Pop(c, l), h)
    ensures MessageInv(cfg, h, l, c.queues[l][0]) && NewsInv(h, l, c.queues[l][0])
    ensures forall i | 0 <= i < |Pop(c, l).queues[l]| :: OrderInv(c.queues[l][0], Pop(c, l).queues[l][i])
  {
    var c' := Pop(c, l);
    assert QueueInv(cfg, h, l, c.queues[l]);
    PopQueue(cfg, h, l, c.queues[l]);
    forall k | k in c'.queues ensures QueueInv(cfg, h, k, c'.queues[k]) {
      assert QueueInv(cfg, h, k, c.queues[k]);
    }
  }

  // ---- Delivery

  /** What is left of the conditions on a delivery once the term check is done. */
  ghost predicate Overtaken(commits: bool, s: PeerState, q: Uid, m: Message)
    requires |s.log| > 0
  {
    && m.term <= s.term
    && (m.ElectionRsp? && m.success && s.role == Candidate ==> m.term == s.term)
    && (m.AppendRsp? && s.role == Leader ==> m.term == s.term)
    && (m.AppendRsp? ==> AppendRspInBounds(s, q, m))
    && (commits ==> P3FreshIndices(s, q, m) && P4EnoughReports(s, q, m))
  }

  /** A handler does the term check first: running it before changes nothing. */
  lemma OvertakeFirst(cfg: Config, h: History, l: Link, s: PeerState, m: Message)
    requires |s.log| > 0 && (m.AppendRsp? ==> AppendRspInBounds(s, l.source, m)) && MessageInv(cfg, h, l, m)
    requires P2ResponseInTerm(s, m)
    requires h.commits ==> P3FreshIndices(s, l.source, m) && P4EnoughReports(s, l.source, m)
    ensures Overtaken(h.commits, Overtake(s, m.term, l.source), l.source, m)
    ensures Handle(Overtake(s, m.term, l.source), l.source, m) == Handle(s, l.source, m)
  {}

  lemma HandleKeepsInv(cfg: Config, c: Cluster, h: History, l: Link, m: Message, s: PeerState) returns (h': History)
    requires Inv(cfg, c, h) && l in c.queues && c.peers[l.target] == s && |s.log| > 0
    requires MessageInv(cfg, h, l, m) && NewsInv(h, l, m)
    requires forall i | 0 <= i < |c.queues[l]| :: OrderInv(m, c.queues[l][i])
    requires Overtaken(h.commits, s, l.source, m)
    ensures Inv(cfg, Become(c, l.target, Handle(s, l.source, m)), h')
    ensures GrowsBy(h, h', l.target)
  {
    match m {
      case ElectionReq(_, _, _) =>
        h' := ElectionReqKeepsInv(cfg, c, h, l, m);
      case ElectionRsp(_, _, _) =>
        h' := ElectionRspKeepsInv(cfg, c, h, l, m);
      case AppendReq(_, _, _, _, _) =>
        h' := AppendReqKeepsInv(cfg, c, h, l, m);
      case AppendRsp(_, _, _, _, _, _) =>
        AppendRspKeepsInv(cfg, c, h, l, m, s);
        SameHistory(h, l.target);
        h' := h;
    }
  }

  lemma DeliverKeepsInv(cfg: Config, c: Cluster, h: History, l: Link, m: Message, s: PeerState, e: Effect)
    returns (h': History)
    requires Inv(cfg, c, h) && l in c.queues && c.peers[l.target] == s && |s.log| > 0
    requires MessageInv(cfg, h, l, m) && NewsInv(h, l, m)
    requires forall i | 0 <= i < |c.queues[l]| :: OrderInv(m, c.queues[l][i])
    requires Overtaken(h.commits, Overtake(s, m.term, l.source), l.source, m)
    requires e == Handle(Overtake(s, m.term, l.source), l.source, m)
    ensures Inv(cfg, Become(c, l.target, e), h')
    ensures GrowsBy(h, h', l.target)
  {
    var s1 := Overtake(s, m.term, l.source);
    OvertakeKeepsInv(cfg, c, h, l.target, m.term, l.source);
    OvertakenQueue(c, l, s1);
    h' := HandleKeepsInv(cfg, Become(c, l.target, Effect(s1, [])), h, l, m, s1);
    BecomeAfterQuiet(c, l.target, s1, e);
  }

  lemma OvertakenQueue(c: Cluster, l: Link, s: PeerState)
    requires l in c.queues
    ensures l in Become(c, l.target, Effect(s, [])).queues
    ensures Become(c, l.target, Effect(s, [])).queues[l] == c.queues[l]
  {
    assert MessagesTo([], l.target) == [];
  }

  // ---- Commands and timers

  lemma BookkeepingKeepsInv(cfg: Config, c: Cluster, h: History, p: Uid, s: PeerState, s': PeerState)
    requires Inv(cfg, c, h) && p in c.peers && c.peers[p] == s
    requires s' == s.(lastCheckpoint := s'.lastCheckpoint, lockedEvents := s'.lockedEvents)
    ensures Inv(cfg, Become(c, p, Effect(s', [])), h)
  {
    PeerOf(cfg, c, h, p);
    BookkeepingKeepsPeer(cfg, h, p, s, s');
    QuietKeepsInv(cfg, c, h, p, s');
  }

  lemma BecomeThenQuiet(c: Cluster, p: Uid, e: Effect, s: PeerState)
    ensures Become(Become(c, p, e), p, Effect(s, [])) == Become(c, p, Effect(s, e.sent))
  {
    BecomeTwice(c, p, e, Effect(s, []));
    assert e.sent + [] == e.sent;
  }

  /** An append followed by bookkeeping. */
  lemma AppendAndNoteKeepsInv(cfg: Config, c: Cluster, h: History, p: Uid, s: PeerState, entry: Entry, a: Effect, e: Effect)
    returns (h': History)
    requires Inv(cfg, c, h) && p in c.peers && c.peers[p] == s && s.role == Leader && |s.log| > 0
    requires entry.term == s.term && entry.index == |s.log| && a == AppendToLog(s, entry)
    requires e == Effect(a.peer.(lastCheckpoint := e.peer.lastCheckpoint, lockedEvents := e.peer.lockedEvents), a.sent)
    ensures Inv(cfg, Become(c, p, e), h')
    ensures GrowsBy(h, h', p)
  {
    h' := AppendKeepsInv(cfg, c, h, p, s, entry);
    BookkeepingKeepsInv(cfg, Become(c, p, a), h', p, a.peer, e.peer);
    BecomeThenQuiet(c, p, a, e.peer);
  }

  lemma CommandKeepsInv(cfg: Config, c: Cluster, h: History, p: Uid, s: PeerState, req: CommandReq) returns (h': History)
    requires Inv(cfg, c, h) && p in c.peers && c.peers[p] == s && CommandReqInBounds(s, req)
    ensures Inv(cfg, Become(c, p, RecvCommandReq(s, req)), h')
    ensures GrowsBy(h, h', p)
  {
    var entries := EntryForCommand(s, req);
    if entries == [] {
      h' := h;
      SameHistory(h, p);
      PeerOf(cfg, c, h, p);
      QuietKeepsInv(cfg, c, h, p, s);
    } else {
      h' := AppendKeepsInv(cfg, c, h, p, s, entries[0]);
    }
  }

  lemma CommandAnswerKeepsInv(cfg: Config, c: Cluster, h: History, p: Uid, s: PeerState, rsp: CommandRsp, e: Effect)
    returns (h': History)
    requires Inv(cfg, c, h) && p in c.peers && c.peers[p] == s && CommandRspInBounds(s, rsp)
    requires e == RecvCommandRsp(s, rsp)
    ensures Inv(cfg, Become(c, p, e), h')
    ensures GrowsBy(h, h', p)
  {
    SameHistory(h, p);
    h' := h;
    if !LockAnswerCounts(s, rsp) {
      PeerOf(cfg, c, h, p);
      QuietKeepsInv(cfg, c, h, p, s);
    } else {
      var s1 := s.(lockedEvents := s.lockedEvents + {EventOfPeer(s, rsp.source)});
      BookkeepingKeepsInv(cfg, c, h, p, s, s1);
      if LocksAcquired(s1) {
        var entry := NewEntry(s1, s.clusterEvent, s.id, Tag(rsp.tag.uid, Exec));
        h' := AppendAndNoteKeepsInv(cfg, Become(c, p, Effect(s1, [])), h, p, s1, entry, AppendToLog(s1, entry), e);
        BecomeAfterQuiet(c, p, s1, e);
      }
    }
  }

  lemma RetryKeepsInv(cfg: Config, c: Cluster, h: History, p: Uid, s: PeerState, idle: bool, tagUid: Uid, e: Effect)
    returns (h': History)
    requires Inv(cfg, c, h) && p in c.peers && c.peers[p] == s && s.role == Leader && TimerInBounds(s, idle)
    requires e == RetryRequests(s, idle, tagUid)
    ensures Inv(cfg, Become(c, p, e), h')
    ensures GrowsBy(h, h', p)
  {
    SameHistory(h, p);
    h' := h;
    if !CheckpointDue(s, idle) {
      PeerOf(cfg, c, h, p);
      QuietKeepsInv(cfg, c, h, p, s);
    } else {
      var entry := NewEntry(s, s.clusterEvent, s.id, Tag(tagUid, Checkpoint));
      h' := AppendAndNoteKeepsInv(cfg, c, h, p, s, entry, AppendToLog(s, entry), e);
    }
  }

  lemma LeaderTimerKeepsInv(cfg: Config, c: Cluster, h: History, p: Uid, s: PeerState, idle: bool, tagUid: Uid)
    returns (h': History)
    requires Inv(cfg, c, h) && p in c.peers && c.peers[p] == s && s.role == Leader && TimerInBounds(s, idle)
    ensures Inv(cfg, Become(c, p, PeerSpec.Timeout(s, idle, tagUid)), h')
    ensures GrowsBy(h, h', p)
  {
    var e := RetryRequests(s, idle, tagUid);
    HeartbeatKeepsInv(cfg, c, h, p, s);
    h' := RetryKeepsInv(cfg, Become(c, p, Effect(s, Heartbeat(s))), h, p, s, idle, tagUid, e);
    BecomeTwice(c, p, Effect(s, Heartbeat(s)), e);
  }

  lemma TimerKeepsInv(cfg: Config, c: Cluster, h: History, p: Uid, s: PeerState, idle: bool, tagUid: Uid)
    returns (h': History)
    requires Inv(cfg, c, h) && p in c.peers && c.peers[p] == s && TimerInBounds(s, idle)
    ensures Inv(cfg, Become(c, p, PeerSpec.Timeout(s, idle, tagUid)), h')
    ensures GrowsBy(h, h', p)
  {
    match s.role {
      case Leader =>
        h' := LeaderTimerKeepsInv(cfg, c, h, p, s, idle, tagUid);
      case Candidate =>
        h' := StartElectionKeepsInv(cfg, c, h, p);
      case Follower =>
        h' := h;
        SameHistory(h, p);
        PeerOf(cfg, c, h, p);
        QuietKeepsInv(cfg, c, h, p, s);
    }
  }

  // ---- Bounds

  lemma PeerBounds(cfg: Config, c: Cluster, h: History, p: Uid)
    requires h.commits && Inv(cfg, c, h) && p in c.peers
    ensures c.peers[p].commitIndex < |c.peers[p].log|
    ensures WellFormed(c.peers[p].log, c.peers[p].term)
  {
    PeerOf(cfg, c, h, p);
  }

  lemma DeliveryInBounds(cfg: Config, c: Cluster, h: History, l: Link, m: Message, s: PeerState)
    requires h.commits && Inv(cfg, c, h) && l in c.queues && c.peers[l.target] == s
    requires m.AppendRsp? && MessageInv(cfg, h, l, m)
    requires P2ResponseInTerm(s, m)
    ensures AppendRspInBounds(s, l.source, m)
  {
    if m.term <= s.term && s.role == Leader {
      AppendRspStaysInBounds(cfg, c, h, l, m);
    }
  }

  /** No step a cluster can take under P1-P4 reads outside a vector. */
  lemma StaysInBounds(cfg: Config, c: Cluster, h: History, s: Step)
    requires h.commits && Inv(cfg, c, h) && Possible(cfg, c, s)
    ensures InBounds(cfg, c, s)
  {
    match s {
      case Timer(p, _, _) => PeerBounds(cfg, c, h, p);
      case PollWon(p) => PeerBounds(cfg, c, h, p);
      case Learn(_, _, _) =>
      case Command(p, _) => PeerBounds(cfg, c, h, p);
      case CommandAnswer(p, rsp) =>
        PeerBounds(cfg, c, h, p);
        if TagExists(c.peers[p].log, rsp.tag) {
          IndexOfTagInLog(c.peers[p].log, rsp.tag, 0);
        }
      case Deliver(l) =>
        PeerBounds(cfg, c, h, l.target);
        PopKeepsInv(cfg, c, h, l);
        if c.queues[l][0].AppendRsp? {
          DeliveryInBounds(cfg, c, h, l, c.queues[l][0], c.peers[l.target]);
        }
      case Lose(_) =>
    }
  }

  // ---- All steps

  /** What the invariant needs of a step: P2, and P3 and P4 for the part about commitment. */
  ghost predicate Respected(cfg: Config, c: Cluster, h: History, s: Step) {
    && CanHappen(cfg, c, s) && InBounds(cfg, c, s) && P2At(cfg, c, s)
    && (h.commits ==> P3At(cfg, c, s) && P4At(cfg, c, s))
  }

  lemma DeliverStepKeepsInv(cfg: Config, c: Cluster, h: History, l: Link) returns (h': History)
    requires Inv(cfg, c, h) && Respected(cfg, c, h, Deliver(l))
    ensures Inv(cfg, Take(cfg, c, Deliver(l)), h')
    ensures GrowsBy(h, h', l.target)
  {
    var m, s := c.queues[l][0], c.peers[l.target];
    PopKeepsInv(cfg, c, h, l);
    OvertakeFirst(cfg, h, l, s, m);
    h' := DeliverKeepsInv(cfg, Pop(c, l), h, l, m, s, Handle(s, l.source, m));
  }

  /** The invariant is inductive: a step of the cluster extends the history and keeps it. */
  lemma TakeKeepsInv(cfg: Config, c: Cluster, h: History, s: Step) returns (h': History)
    requires Inv(cfg, c, h) && Respected(cfg, c, h, s)
    ensures Inv(cfg, Take(cfg, c, s), h')
    ensures GrowsBy(h, h', Actor(s))
  {
    match s {
      case Timer(p, idle, tagUid) => h' := TimerKeepsInv(cfg, c, h, p, c.peers[p], idle, tagUid);
      case PollWon(p) => h' := StartElectionKeepsInv(cfg, c, h, p);
      case Learn(p, q, t) =>
        OvertakeKeepsInv(cfg, c, h, p, t, q);
        SameHistory(h, p);
        h' := h;
      case Command(p, req) => h' := CommandKeepsInv(cfg, c, h, p, c.peers[p], req);
      case CommandAnswer(p, rsp) =>
        h' := CommandAnswerKeepsInv(cfg, c, h, p, c.peers[p], rsp, RecvCommandRsp(c.peers[p], rsp));
      case Deliver(l) => h' := DeliverStepKeepsInv(cfg, c, h, l);
      case Lose(l) =>
        PopKeepsInv(cfg, c, h, l);
        SameHistory(h, l.target);
        h' := h;
    }
  }

  /** Under P1 to P4, both parts. */
  lemma NextKeepsInv(cfg: Config, c: Cluster, h: History, s: Step, c': Cluster) returns (h': History)
    requires h.commits && Inv(cfg, c, h) && Next(cfg, c, s, c')
    ensures Inv(cfg, c', h') && GrowsBy(h, h', Actor(s))
    ensures InBounds(cfg, c, s)
  {
    StaysInBounds(cfg, c, h, s);
    h' := TakeKeepsInv(cfg, c, h, s);
  }

  /** Under P1 and P2, the part about elections and logs. */
  lemma DefinedNextKeepsInv(cfg: Config, c: Cluster, h: History, s: Step, c': Cluster) returns (h': History)
    requires !h.commits && Inv(cfg, c, h) && DefinedNext(cfg, c, s, c')
    ensures Inv(cfg, c', h') && GrowsBy(h, h', Actor(s))
  {
    h' := TakeKeepsInv(cfg, c, h, s);
  }
}

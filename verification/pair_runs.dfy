/** Runs of clusters of two or three, in which two peers are a majority: what one peer can be brought to
    with the help of another. */
module PairRuns {
  import opened Uids
  import opened Workflows
  import opened CommitRule
  import opened PeerSpec
  import opened Clusters
  import opened Locks
  import opened Paths
  import opened CatchingUp
  import ClusterReplication

  /** What matters of a peer. */
  datatype Look = Look(role: Role, term: nat, log: seq<Entry>, commitIndex: nat, indices: map<Uid, nat>,
                       lockedEvents: set<Uid>, lastCheckpoint: nat, workflow: Workflow)

  predicate Looks(cfg: Config, id: Uid, p: PeerState, s: Look) {
    && p.id == id && p.members == cfg.members && p.clusterEvent == cfg.clusterEvent && p.peerToEvent == cfg.peerToEvent
    && p.role == s.role && p.term == s.term && p.log == s.log && p.commitIndex == s.commitIndex && p.indices == s.indices
    && p.lockedEvents == s.lockedEvents && p.lastCheckpoint == s.lastCheckpoint && p.workflow == s.workflow
  }

  predicate IsPair(cfg: Config, a: Uid, b: Uid) {
    ValidConfig(cfg) && 2 <= ClusterSize(cfg) <= 3 && a in Members(cfg) && b in Members(cfg) && a != b
  }

  ghost predicate Shows(cfg: Config, c: Cluster, a: Uid, s: Look, b: Uid, t: Look) {
    && Shaped(cfg, c) && a in c.peers && b in c.peers
    && Looks(cfg, a, c.peers[a], s) && Looks(cfg, b, c.peers[b], t)
  }

  /** Some path leads to a cluster in which peers a and b look like this. */
  ghost predicate CanShow(cfg: Config, rules: Rules, c: Cluster, a: Uid, s: Look, b: Uid, t: Look) {
    exists c' :: CanReach(cfg, rules, c, c') && Shows(cfg, c', a, s, b, t)
  }

  lemma OtherWayRound(cfg: Config, rules: Rules, c: Cluster, a: Uid, s: Look, b: Uid, t: Look)
    requires CanShow(cfg, rules, c, a, s, b, t)
    ensures CanShow(cfg, rules, c, b, t, a, s)
  {
    var c' :| CanReach(cfg, rules, c, c') && Shows(cfg, c', a, s, b, t);
    assert Shows(cfg, c', b, t, a, s);
  }

  lemma PairIsLinked(cfg: Config, c: Cluster, a: Uid, b: Uid)
    requires IsPair(cfg, a, b) && Shaped(cfg, c)
    ensures a in c.peers && b in c.peers && Link(a, b) in c.queues && Link(b, a) in c.queues
    ensures IsLink(cfg, Link(a, b)) && IsLink(cfg, Link(b, a))
  {}

  // ---- Peer b elects peer a

  lemma SecondVoteWins(s: PeerState, s': PeerState, u: Uid)
    requires s.role == Candidate && s.electionVotes == 1 && |s.members| <= 3 && |s.log| > 0
    requires s' == BecomeLeader(s.(electionVotes := 2))
    ensures s' == RecvElectionRsp(s, u, ElectionRsp(s.term, true, s.term)).peer
  {}

  predicate UpToDate(s: seq<Entry>, t: seq<Entry>) {
    && |s| > 0 && |t| > 0
    && !(t[|t| - 1].term > s[|s| - 1].term || (t[|t| - 1].term == s[|s| - 1].term && t[|t| - 1].index > s[|s| - 1].index))
  }

  lemma ReachVote(cfg: Config, rules: Rules, c: Cluster, p: PeerState, q: PeerState, stood: PeerState, q': PeerState)
    returns (c': Cluster)
    requires IsPair(cfg, p.id, q.id) && Shaped(cfg, c) && Quiet(c) && p.id in c.peers && q.id in c.peers
    requires c.peers[p.id] == p && c.peers[q.id] == q
    requires p.members == cfg.members && p.role == Follower && q.term <= p.term && UpToDate(p.log, q.log)
    requires stood == StartElection(p).peer && q' == Overtake(q, p.term + 1, p.id).(endorsement := p.id)
    ensures CanReach(cfg, rules, c, c') && Shaped(cfg, c') && c'.peers == c.peers[p.id := stood][q.id := q']
    ensures Link(q.id, p.id) in c'.queues && c'.queues[Link(q.id, p.id)] == [ElectionRsp(stood.term, true, stood.term)]
  {
    var m := ElectionReq(p.term + 1, LastEntry(p).term, LastEntry(p).index);
    PairIsLinked(cfg, c, p.id, q.id);
    c' := ReachFirstGrant(cfg, rules, c, p, stood, q.id, q, q', m);
  }

  lemma FirstAgain(peers: map<Uid, PeerState>, a: Uid, p: PeerState, p': PeerState, b: Uid, q: PeerState)
    requires a != b
    ensures peers[a := p][b := q][a := p'] == peers[a := p'][b := q]
  {}

  lemma ReachElection(cfg: Config, rules: Rules, c: Cluster, p: PeerState, q: PeerState, stood: PeerState, p': PeerState,
                      q': PeerState) returns (c': Cluster)
    requires IsPair(cfg, p.id, q.id) && Shaped(cfg, c) && p.id in c.peers && q.id in c.peers
    requires c.peers[p.id] == p && c.peers[q.id] == q
    requires p.members == cfg.members && p.role == Follower && q.term <= p.term && UpToDate(p.log, q.log)
    requires rules.p3 ==> p.indices == map[]
    requires stood == StartElection(p).peer && p' == BecomeLeader(stood.(electionVotes := 2))
    requires q' == Overtake(q, p.term + 1, p.id).(endorsement := p.id)
    ensures CanReach(cfg, rules, c, c') && Shaped(cfg, c') && c'.peers == c.peers[p.id := p'][q.id := q']
  {
    var c0 := LoseAll(cfg, rules, c);
    var c1 := ReachVote(cfg, rules, c0, p, q, stood, q');
    ReachFurther(cfg, rules, c, c0, c1);
    SecondVoteWins(stood, p', q.id);
    c' := ReachCount(cfg, rules, c1, p.id, q.id, stood, p');
    FirstAgain(c.peers, p.id, stood, p', q.id, q');
    ReachFurther(cfg, rules, c, c1, c');
  }

  lemma ShowElection(cfg: Config, rules: Rules, c: Cluster, a: Uid, s: Look, b: Uid, t: Look, s': Look, t': Look)
    requires CanShow(cfg, rules, c, a, s, b, t) && IsPair(cfg, a, b)
    requires s.role == Follower && t.term <= s.term && UpToDate(s.log, t.log) && (rules.p3 ==> s.indices == map[])
    requires s' == s.(role := Leader, term := s.term + 1, lastCheckpoint := LatestCheckpoint(s.log))
    requires t' == t.(role := Follower, term := s.term + 1)
    ensures CanShow(cfg, rules, c, a, s', b, t')
  {
    var c1 :| CanReach(cfg, rules, c, c1) && Shows(cfg, c1, a, s, b, t);
    var p, q := c1.peers[a], c1.peers[b];
    var stood := StartElection(p).peer;
    var p' := BecomeLeader(stood.(electionVotes := 2));
    var q' := Overtake(q, p.term + 1, p.id).(endorsement := p.id);
    var c2 := ReachElection(cfg, rules, c1, p, q, stood, p', q');
    assert Looks(cfg, a, p', s') && Looks(cfg, b, q', t');
    ReachFurther(cfg, rules, c, c1, c2);
  }

  // ---- Commands and answers from other clusters

  predicate Asks(cfg: Config, s: Look, req: CommandReq, e: Entry) {
    && s.role == Leader && s.commitIndex < |s.log| && !TagExists(s.log, req.tag)
    && (req.tag.kind == Exec ==> req.event != cfg.clusterEvent)
    && (req.tag.kind == Lock ==> NoneInFlight(s) && !HasOpenLock(s.log, s.commitIndex, s.lastCheckpoint))
    && (req.tag.kind == Lock && req.event == cfg.clusterEvent ==>
          Enabled(s.workflow, cfg.clusterEvent) && LockSet(s.workflow, cfg.clusterEvent) != {})
    && e == Entry(|s.log|, s.term, req.event, req.source, req.tag)
  }

  predicate NoneInFlight(s: Look) {
    forall i | s.commitIndex < i < |s.log| :: s.log[i].tag.kind != Lock
  }

  lemma RequestIs(cfg: Config, p: PeerState, a: Uid, s: Look, req: CommandReq, e: Entry)
    requires Looks(cfg, a, p, s) && Asks(cfg, s, req, e) && ClusterSize(cfg) > 1
        && (req.tag.kind == Lock || req.tag.kind == Exec)
    ensures P5Honest(p, Command(a, req)) && P6Settled(p, Command(a, req))
    ensures Looks(cfg, a, RecvCommandReq(p, req).peer, s.(log := s.log + [e]))
  {
    assert EntryForCommand(p, req) == [e];
  }

  lemma ShowRequest(cfg: Config, rules: Rules, c: Cluster, a: Uid, s: Look, b: Uid, t: Look, req: CommandReq, e: Entry,
                    s': Look)
    requires CanShow(cfg, rules, c, a, s, b, t) && IsPair(cfg, a, b)
    requires (req.tag.kind == Lock || req.tag.kind == Exec) && Asks(cfg, s, req, e) && s' == s.(log := s.log + [e])
    ensures CanShow(cfg, rules, c, a, s', b, t)
  {
    var c1 :| CanReach(cfg, rules, c, c1) && Shows(cfg, c1, a, s, b, t);
    RequestIs(cfg, c1.peers[a], a, s, req, e);
    var c2 := ReachCommand(cfg, rules, c1, a, req, c1.peers[a], RecvCommandReq(c1.peers[a], req).peer);
    ReachFurther(cfg, rules, c, c1, c2);
  }

  /** The LOCK at k counts the answer of `source`. */
  predicate Counts(cfg: Config, s: Look, tag: Tag, k: nat) {
    && s.role == Leader && s.commitIndex < |s.log| && tag.kind == Lock
    && TagExists(s.log, tag) && IndexOfTag(s.log, tag) == k < |s.log| && !LockResolved(s.log, s.commitIndex, k)
    && (forall i | 0 <= i < |s.log| && s.log[i].tag == tag :: s.log[i].event == cfg.clusterEvent)
    && (forall i | s.commitIndex < i < |s.log| && s.log[i].tag.kind != Lock :: s.log[i].event != cfg.clusterEvent)
  }

  function Counted(cfg: Config, a: Uid, s: Look, source: Uid, tag: Tag): Look {
    var locked := s.lockedEvents + {EventIn(cfg.peerToEvent, source)};
    if LockSet(s.workflow, cfg.clusterEvent) <= locked
    then s.(log := s.log + [Entry(|s.log|, s.term, cfg.clusterEvent, a, Tag(tag.uid, Exec))], lockedEvents := {})
    else s.(lockedEvents := locked)
  }

  lemma AnswerIs(cfg: Config, p: PeerState, a: Uid, s: Look, rsp: CommandRsp, k: nat)
    requires Looks(cfg, a, p, s) && Counts(cfg, s, rsp.tag, k) && rsp.success && ClusterSize(cfg) > 1
    ensures CommandRspInBounds(p, rsp) && P5Honest(p, CommandAnswer(a, rsp)) && P6Settled(p, CommandAnswer(a, rsp))
    ensures Looks(cfg, a, RecvCommandRsp(p, rsp).peer, Counted(cfg, a, s, rsp.source, rsp.tag))
  {}

  lemma ShowAnswer(cfg: Config, rules: Rules, c: Cluster, a: Uid, s: Look, b: Uid, t: Look, source: Uid, tag: Tag, k: nat,
                   s': Look)
    requires CanShow(cfg, rules, c, a, s, b, t) && IsPair(cfg, a, b) && (source, tag) !in rules.silent
    requires Counts(cfg, s, tag, k) && s' == Counted(cfg, a, s, source, tag)
    ensures CanShow(cfg, rules, c, a, s', b, t)
  {
    var rsp := CommandRsp(source, tag, true, EMPTY_UID);
    var c1 :| CanReach(cfg, rules, c, c1) && Shows(cfg, c1, a, s, b, t);
    AnswerIs(cfg, c1.peers[a], a, s, rsp, k);
    var c2 := ReachAnswer(cfg, rules, c1, a, rsp, c1.peers[a], RecvCommandRsp(c1.peers[a], rsp).peer);
    ReachFurther(cfg, rules, c, c1, c2);
  }

  // ---- Peer b follows peer a

  ghost predicate Follows(s: Look, t: Look) {
    && s.role == Leader && t.role == Follower && s.term == t.term && s.commitIndex < |s.log|
    && Rooted(s.log) && Rooted(t.log) && Matching(s.log, t.log)
  }

  /** The follower once it has the log and the commit index of the leader. */
  function Following(s: Look, t: Look): Look
    requires s.commitIndex < |s.log|
  {
    if s.commitIndex > t.commitIndex
    then t.(log := s.log, workflow := Apply(t.workflow, s.log[t.commitIndex + 1..s.commitIndex + 1]),
            commitIndex := s.commitIndex)
    else t.(log := s.log)
  }

  lemma AcceptIs(q: PeerState, source: Uid, m: Message, q1: PeerState)
    requires m.AppendReq? && m.term == q.term && q.role == Follower && TermAndIndexExist(q.log, m.prevTerm, m.prevIndex)
    requires q1 == q.(log := q1.log) && q1.log == UpTo(q.log, m.prevIndex) + m.entries && m.commitIndex < |q1.log|
    ensures RecvAppendReq(q, source, m).peer
      == if m.commitIndex > q.commitIndex then UpdateCommitIndex(q1, m.commitIndex) else q1
  {
    assert q1 == q.(log := UpTo(q.log, m.prevIndex) + m.entries);
  }

  lemma CaughtIs(p: PeerState, q: PeerState, q1: PeerState)
    requires Leads(p, q) && Matching(p.log, q.log) && p.commitIndex < |p.log| && q1 == q.(log := p.log)
    ensures Caught(p, q, |p.log| - 1) == if p.commitIndex > q.commitIndex then UpdateCommitIndex(q1, p.commitIndex) else q1
  {
    var k := LastMatch(p.log, q.log, |p.log|);
    assert UpTo(q.log, k) == q.log[..k + 1] == p.log[..k + 1];
    assert p.log == p.log[..k + 1] + p.log[k + 1..];
    AcceptIs(q, p.id, PrefixRequest(p, k), q1);
  }

  lemma FollowingLooks(cfg: Config, p: PeerState, a: Uid, s: Look, q: PeerState, b: Uid, t: Look, q1: PeerState)
    requires Looks(cfg, a, p, s) && Looks(cfg, b, q, t) && Follows(s, t) && q1 == q.(log := p.log)
    ensures Looks(cfg, b, if p.commitIndex > q.commitIndex then UpdateCommitIndex(q1, p.commitIndex) else q1, Following(s, t))
  {}

  lemma CaughtLooks(cfg: Config, p: PeerState, a: Uid, s: Look, q: PeerState, b: Uid, t: Look, q': PeerState)
    requires Looks(cfg, a, p, s) && Looks(cfg, b, q, t) && Follows(s, t) && Leads(p, q) && q' == Caught(p, q, |p.log| - 1)
    ensures Looks(cfg, b, q', Following(s, t))
  {
    CaughtIs(p, q, q.(log := p.log));
    FollowingLooks(cfg, p, a, s, q, b, t, q.(log := p.log));
  }

  lemma ReachFollowing(cfg: Config, rules: Rules, c: Cluster, a: Uid, s: Look, b: Uid, t: Look)
      returns (c': Cluster, rsp: Message)
    requires Shows(cfg, c, a, s, b, t) && IsPair(cfg, a, b) && Follows(s, t)
    ensures CanReach(cfg, rules, c, c') && Shows(cfg, c', a, s, b, Following(s, t))
    ensures Link(b, a) in c'.queues && c'.queues[Link(b, a)] == [rsp]
    ensures rsp.AppendRsp? && rsp.success && rsp.term == s.term && rsp.requestTerm == s.term && rsp.lastIndex == |s.log| - 1
  {
    var p, q := c.peers[a], c.peers[b];
    PairIsLinked(cfg, c, a, b);
    assert Leads(p, q);
    CaughtLooks(cfg, p, a, s, q, b, t, Caught(p, q, |p.log| - 1));
    c' := ReachLeadersLog(cfg, rules, c, p, q);
    rsp := Acceptance(p, q, |p.log| - 1);
    PairIsLinked(cfg, c', a, b);
  }

  lemma ShowFollowing(cfg: Config, rules: Rules, c: Cluster, a: Uid, s: Look, b: Uid, t: Look, t': Look)
    requires CanShow(cfg, rules, c, a, s, b, t) && IsPair(cfg, a, b) && Follows(s, t) && t' == Following(s, t)
    ensures CanShow(cfg, rules, c, a, s, b, t')
  {
    var c1 :| CanReach(cfg, rules, c, c1) && Shows(cfg, c1, a, s, b, t);
    var c2, _ := ReachFollowing(cfg, rules, c1, a, s, b, t);
    ReachFurther(cfg, rules, c, c1, c2);
  }

  /** The leader once the follower has reported its whole log, which ends in an entry of its term. */
  function Committed(s: Look, b: Uid): Look
    requires s.commitIndex < |s.log|
  {
    var last, entries := |s.log| - 1, s.log[s.commitIndex + 1..];
    s.(indices := map[b := last], workflow := Apply(s.workflow, entries), commitIndex := last,
       lastCheckpoint := CheckpointIn(entries, s.lastCheckpoint))
  }

  predicate Commits(s: Look, b: Uid) {
    && s.role == Leader && s.commitIndex + 1 < |s.log| && s.log[|s.log| - 1].term == s.term && s.indices.Keys <= {b}
  }

  lemma OneReportIsMajority(b: Uid, n: nat, indices: map<Uid, nat>)
    requires indices == map[b := n]
    ensures MajorityIndex(indices) == n
  {
    assert indices[b] == n;
    MajorityIndexIsReached(indices);
  }

  lemma ReportIsCounted(p: PeerState, b: Uid, m: Message, n: nat, p1: PeerState)
    requires p.role == Leader && m.AppendRsp? && m.success && m.term == p.term && m.lastIndex == n
    requires p.indices.Keys <= {b} && p1 == p.(indices := map[b := n]) && p.commitIndex < n < |p.log|
        && p.log[n].term == p.term
    ensures AppendRspInBounds(p, b, m) && RecvAppendRsp(p, b, m).peer == UpdateCommitIndex(p1, n)
  {
    assert p.indices[b := m.lastIndex] == map[b := n];
    OneReportIsMajority(b, n, p1.indices);
    ClusterReplication.ReportEffect(p, b, m, p1, n);
  }

  lemma WholeTail(log: seq<Entry>, k: nat, n: nat)
    requires k <= n == |log|
    ensures log[k..n] == log[k..]
  {}

  lemma CommittedLooks(cfg: Config, p: PeerState, a: Uid, s: Look, b: Uid, p1: PeerState)
    requires Looks(cfg, a, p, s) && Commits(s, b) && p1 == p.(indices := map[b := |s.log| - 1])
    ensures Looks(cfg, a, UpdateCommitIndex(p1, |s.log| - 1), Committed(s, b))
  {
    var last := |s.log| - 1;
    WholeTail(s.log, s.commitIndex + 1, last + 1);
  }

  lemma SmallClustersReport(p: PeerState, b: Uid, m: Message)
    requires m.AppendRsp? && |p.members| <= 3
    ensures P4EnoughReports(p, b, m)
  {}

  lemma ReportLooks(cfg: Config, p: PeerState, a: Uid, s: Look, b: Uid, m: Message)
    requires Looks(cfg, a, p, s) && Commits(s, b) && ClusterSize(cfg) <= 3
    requires m.AppendRsp? && m.success && m.term == s.term && m.lastIndex == |s.log| - 1
    ensures AppendRspInBounds(p, b, m) && P4EnoughReports(p, b, m)
    ensures Looks(cfg, a, RecvAppendRsp(p, b, m).peer, Committed(s, b))
  {
    var p1 := p.(indices := map[b := |s.log| - 1]);
    ReportIsCounted(p, b, m, |s.log| - 1, p1);
    CommittedLooks(cfg, p, a, s, b, p1);
    SmallClustersReport(p, b, m);
  }

  lemma ReachReport(cfg: Config, rules: Rules, c: Cluster, a: Uid, s: Look, b: Uid, t: Look, rsp: Message)
      returns (c': Cluster)
    requires Shows(cfg, c, a, s, b, t) && IsPair(cfg, a, b) && Commits(s, b)
    requires Link(b, a) in c.queues && c.queues[Link(b, a)] == [rsp]
    requires rsp.AppendRsp? && rsp.success && rsp.term == s.term && rsp.requestTerm == s.term && rsp.lastIndex == |s.log| - 1
    ensures CanReach(cfg, rules, c, c') && Shows(cfg, c', a, Committed(s, b), b, t)
  {
    var p := c.peers[a];
    ReportLooks(cfg, p, a, s, b, rsp);
    c' := ReachDelivery(cfg, rules, c, Link(b, a), RecvAppendRsp(p, b, rsp));
  }

  lemma ReachCommit(cfg: Config, rules: Rules, c: Cluster, a: Uid, s: Look, b: Uid, t: Look) returns (c': Cluster)
    requires Shows(cfg, c, a, s, b, t) && IsPair(cfg, a, b) && Follows(s, t) && Commits(s, b)
    ensures CanReach(cfg, rules, c, c') && Shows(cfg, c', a, Committed(s, b), b, Following(s, t))
  {
    var c1, rsp := ReachFollowing(cfg, rules, c, a, s, b, t);
    c' := ReachReport(cfg, rules, c1, a, s, b, Following(s, t), rsp);
    ReachFurther(cfg, rules, c, c1, c');
  }

  lemma ShowCommit(cfg: Config, rules: Rules, c: Cluster, a: Uid, s: Look, b: Uid, t: Look, s': Look, t': Look)
    requires CanShow(cfg, rules, c, a, s, b, t) && IsPair(cfg, a, b) && Follows(s, t) && Commits(s, b)
    requires s' == Committed(s, b) && t' == Following(s, t)
    ensures CanShow(cfg, rules, c, a, s', b, t')
  {
    var c1 :| CanReach(cfg, rules, c, c1) && Shows(cfg, c1, a, s, b, t);
    var c2 := ReachCommit(cfg, rules, c1, a, s, b, t);
    ReachFurther(cfg, rules, c, c1, c2);
  }

  lemma OneEntry(w: Workflow, e: Entry, default: nat)
    ensures Apply(w, [e]) == if e.tag.kind == Exec then Execute(w, e.event) else w
    ensures CheckpointIn([e], default) == if e.tag.kind == Checkpoint then e.index else default
  {
    assert [e][..0] == [];
  }

  lemma TwoEntries(w: Workflow, d: Entry, e: Entry, default: nat)
    requires d.tag.kind != Exec && e.tag.kind != Exec
    ensures Apply(w, [d, e]) == w
    ensures e.tag.kind == Checkpoint ==> CheckpointIn([d, e], default) == e.index
  {
    OneEntry(w, d, default);
    assert [d, e][..1] == [d];
  }

  // ---- The timer

  predicate ChecksPoint(s: Look) {
    && s.role == Leader && s.lastCheckpoint < s.commitIndex < |s.log|
    && !HasOpenLock(s.log, s.commitIndex, s.lastCheckpoint)
  }

  function Checkpointed(cfg: Config, a: Uid, s: Look, uid: Uid): Look {
    s.(log := s.log + [Entry(|s.log|, s.term, cfg.clusterEvent, a, Tag(uid, Checkpoint))], lastCheckpoint := |s.log|)
  }

  lemma CheckpointLooks(cfg: Config, p: PeerState, a: Uid, s: Look, uid: Uid)
    requires Looks(cfg, a, p, s) && ClusterSize(cfg) > 1 && ChecksPoint(s)
    ensures p.commitIndex < |p.log| && Looks(cfg, a, PeerSpec.Timeout(p, true, uid).peer, Checkpointed(cfg, a, s, uid))
    ensures NoneInFlight(s) ==> P6Settled(p, Timer(a, true, uid))
  {
    assert CheckpointDue(p, true);
  }

  lemma ReachCheckpoint(cfg: Config, rules: Rules, c: Cluster, a: Uid, s: Look, uid: Uid) returns (c': Cluster, p': PeerState)
    requires Shaped(cfg, c) && a in c.peers && Looks(cfg, a, c.peers[a], s)
    requires ClusterSize(cfg) > 1 && ChecksPoint(s) && (rules.p6 ==> NoneInFlight(s))
    ensures CanReach(cfg, rules, c, c') && Shaped(cfg, c') && c'.peers == c.peers[a := p']
    ensures Looks(cfg, a, p', Checkpointed(cfg, a, s, uid))
  {
    CheckpointLooks(cfg, c.peers[a], a, s, uid);
    p' := PeerSpec.Timeout(c.peers[a], true, uid).peer;
    c' := ReachTimer(cfg, rules, c, a, uid, c.peers[a], p');
  }

  lemma ShowCheckpoint(cfg: Config, rules: Rules, c: Cluster, a: Uid, s: Look, b: Uid, t: Look, uid: Uid, s': Look)
    requires CanShow(cfg, rules, c, a, s, b, t) && IsPair(cfg, a, b) && ChecksPoint(s) && (rules.p6 ==> NoneInFlight(s))
    requires s' == Checkpointed(cfg, a, s, uid)
    ensures CanShow(cfg, rules, c, a, s', b, t)
  {
    var c1 :| CanReach(cfg, rules, c, c1) && Shows(cfg, c1, a, s, b, t);
    var c2, p' := ReachCheckpoint(cfg, rules, c1, a, s, uid);
    ReachFurther(cfg, rules, c, c1, c2);
  }

  // ---- The first moment

  function Fresh(w: Workflow): Look {
    Look(Follower, 0, [EMPTY_ENTRY], 0, map[], {}, 0, w)
  }

  lemma ShowStart(cfg: Config, rules: Rules, c: Cluster, a: Uid, b: Uid)
    requires IsPair(cfg, a, b) && c == Start(cfg)
    ensures Init(cfg, c) && CanShow(cfg, rules, c, a, Fresh(cfg.workflow), b, Fresh(cfg.workflow))
  {
    StartIsInit(cfg, c);
    ReachSelf(cfg, rules, c);
    assert Shows(cfg, c, a, Fresh(cfg.workflow), b, Fresh(cfg.workflow));
  }
}

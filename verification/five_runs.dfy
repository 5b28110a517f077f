/** Runs of a cluster of five, told as moves between sketches of its peers. */
module FiveRuns {
  import opened Uids
  import opened Workflows
  import opened CommitRule
  import opened PeerSpec
  import opened Clusters
  import opened Locks
  import opened Paths
  import opened CatchingUp
  import ClusterReplication
  import LeaderCompleteness

  // ---- Moves of a cluster of five

  const FIVE: seq<Uid> := [1, 2, 3, 4, 5]

  predicate IsFive(id: Uid) {
    1 <= id <= 5
  }

  /** What matters of a peer. */
  datatype Sketch = Sketch(role: Role, term: nat, log: seq<Entry>, commitIndex: nat, indices: map<Uid, nat>)

  predicate Matches(p: PeerState, id: Uid, s: Sketch) {
    && p.id == id && p.members == FIVE && p.clusterEvent == 7
    && p.role == s.role && p.term == s.term && p.log == s.log && p.commitIndex == s.commitIndex && p.indices == s.indices
  }

  predicate IsSketched(peers: map<Uid, PeerState>, ss: seq<Sketch>, id: Uid)
    requires |ss| == 5 && IsFive(id)
  {
    id in peers && Matches(peers[id], id, ss[id - 1])
  }

  ghost predicate Sketched(peers: map<Uid, PeerState>, ss: seq<Sketch>) {
    |ss| == 5 && forall id {:trigger IsSketched(peers, ss, id)} | IsFive(id) :: IsSketched(peers, ss, id)
  }

  ghost predicate Drawn(cfg: Config, c: Cluster, ss: seq<Sketch>) {
    cfg.members == FIVE && Shaped(cfg, c) && Sketched(c.peers, ss)
  }

  /** Some path leads to a cluster that looks like this. */
  ghost predicate CanDraw(cfg: Config, rules: Rules, c: Cluster, ss: seq<Sketch>) {
    exists c' :: CanReach(cfg, rules, c, c') && Drawn(cfg, c', ss)
  }

  lemma FiveAreMembers(cfg: Config, id: Uid)
    requires cfg.members == FIVE
    ensures ValidConfig(cfg) && ClusterSize(cfg) == 5
    ensures id in Members(cfg) <==> IsFive(id)
  {
    assert IsFive(id) ==> FIVE[id - 1] == id;
  }

  lemma FiveLinks(cfg: Config, c: Cluster, p: Uid, q: Uid)
    requires cfg.members == FIVE && Shaped(cfg, c) && IsFive(p) && IsFive(q) && p != q
    ensures Link(p, q) in c.queues && p in c.peers
  {
    FiveAreMembers(cfg, p);
    FiveAreMembers(cfg, q);
    assert IsLink(cfg, Link(p, q));
  }

  /** One peer changed, and how. */
  lemma Redraw(peers: map<Uid, PeerState>, ss: seq<Sketch>, id: Uid, p: PeerState, s: Sketch)
    requires Sketched(peers, ss) && IsFive(id) && Matches(p, id, s)
    ensures Sketched(peers[id := p], ss[id - 1 := s])
  {
    forall k | IsFive(k) ensures IsSketched(peers[id := p], ss[id - 1 := s], k) {
      assert IsSketched(peers, ss, k);
    }
  }

  // ---- An election

  /** The states of candidate and voters before and after the voting. */
  datatype Ballots = Ballots(a: PeerState, stood: PeerState, u: PeerState, u': PeerState, v: PeerState, v': PeerState)

  predicate Granting(s: PeerState, s': PeerState, a: PeerState) {
    && |s.log| > 0 && |a.log| > 0 && s.term <= a.term && LogNotAhead(s, LastEntry(a).term, LastEntry(a).index)
    && s' == Overtake(s, a.term + 1, a.id).(endorsement := a.id)
  }

  ghost predicate IsVoting(cfg: Config, c: Cluster, b: Ballots) {
    && cfg.members == FIVE && Shaped(cfg, c)
    && IsFive(b.a.id) && IsFive(b.u.id) && IsFive(b.v.id) && b.a.id != b.u.id && b.u.id != b.v.id && b.v.id != b.a.id
    && b.a.id in c.peers && c.peers[b.a.id] == b.a && b.u.id in c.peers && c.peers[b.u.id] == b.u
    && b.v.id in c.peers && c.peers[b.v.id] == b.v
    && b.a.role == Follower && b.a.members == FIVE && |b.a.log| > 0 && b.stood == StartElection(b.a).peer
    && Granting(b.u, b.u', b.a) && Granting(b.v, b.v', b.a)
  }

  lemma ReachFirstVote(cfg: Config, rules: Rules, c: Cluster, b: Ballots) returns (c': Cluster)
    requires IsVoting(cfg, c, b) && Quiet(c)
    ensures CanReach(cfg, rules, c, c') && Shaped(cfg, c') && c'.peers == c.peers[b.a.id := b.stood][b.u.id := b.u']
    ensures var t := b.a.term + 1; var m := ElectionReq(t, LastEntry(b.a).term, LastEntry(b.a).index);
      && c'.queues.Keys == c.queues.Keys
      && c'.queues[Link(b.u.id, b.a.id)] == [ElectionRsp(t, true, t)]
      && c'.queues[Link(b.a.id, b.v.id)] == [m] && c'.queues[Link(b.v.id, b.a.id)] == []
  {
    var a, u, v := b.a.id, b.u.id, b.v.id;
    FiveLinks(cfg, c, a, u);
    FiveLinks(cfg, c, a, v);
    FiveLinks(cfg, c, u, a);
    FiveLinks(cfg, c, v, a);
    var m := ElectionReq(b.a.term + 1, LastEntry(b.a).term, LastEntry(b.a).index);
    FiveAreMembers(cfg, a);
    c' := ReachFirstGrant(cfg, rules, c, b.a, b.stood, u, b.u, b.u', m);
  }

  lemma ReachGrants(cfg: Config, rules: Rules, c: Cluster, b: Ballots) returns (c': Cluster)
    requires IsVoting(cfg, c, b) && Quiet(c)
    ensures CanReach(cfg, rules, c, c') && Shaped(cfg, c') && c'.queues.Keys == c.queues.Keys
    ensures c'.peers == c.peers[b.a.id := b.stood][b.u.id := b.u'][b.v.id := b.v']
    ensures Link(b.u.id, b.a.id) in c'.queues && Link(b.v.id, b.a.id) in c'.queues
    ensures c'.queues[Link(b.u.id, b.a.id)] == [ElectionRsp(b.stood.term, true, b.stood.term)]
    ensures c'.queues[Link(b.v.id, b.a.id)] == [ElectionRsp(b.stood.term, true, b.stood.term)]
  {
    var c1 := ReachFirstVote(cfg, rules, c, b);
    var m := ElectionReq(b.a.term + 1, LastEntry(b.a).term, LastEntry(b.a).index);
    FiveLinks(cfg, c1, b.v.id, b.a.id);
    FiveLinks(cfg, c1, b.a.id, b.v.id);
    FiveLinks(cfg, c1, b.u.id, b.a.id);
    c' := ReachGrant(cfg, rules, c1, b.a.id, b.v.id, b.v, b.v', m);
    ReachFurther(cfg, rules, c, c1, c');
  }

  /** The third vote of five makes the candidate leader. */
  lemma ThirdVoteWins(s: PeerState, s1: PeerState, s2: PeerState, u: Uid, v: Uid)
    requires s.role == Candidate && s.electionVotes == 1 && s.members == FIVE && |s.log| > 0
    requires s1 == s.(electionVotes := 2) && s2 == BecomeLeader(s.(electionVotes := 3))
    ensures s1 == RecvElectionRsp(s, u, ElectionRsp(s.term, true, s.term)).peer
    ensures s2 == RecvElectionRsp(s1, v, ElectionRsp(s1.term, true, s1.term)).peer
  {}

  lemma ReachCounts(cfg: Config, rules: Rules, c: Cluster, a: Uid, u: Uid, v: Uid,
                    s: PeerState, s1: PeerState, s2: PeerState)
    returns (c': Cluster)
    requires Shaped(cfg, c) && a in c.peers && c.peers[a] == s && a != u && u != v && v != a
    requires Link(u, a) in c.queues && c.queues[Link(u, a)] == [ElectionRsp(s.term, true, s.term)]
    requires Link(v, a) in c.queues && c.queues[Link(v, a)] == [ElectionRsp(s.term, true, s.term)]
    requires s.role == Candidate && |s.log| > 0 && s1.role == Candidate && |s1.log| > 0 && s1.term == s.term
    requires rules.p3 ==> s.indices == map[] && s1.indices == map[]
    requires s1 == RecvElectionRsp(s, u, ElectionRsp(s.term, true, s.term)).peer
    requires s2 == RecvElectionRsp(s1, v, ElectionRsp(s1.term, true, s1.term)).peer
    ensures CanReach(cfg, rules, c, c') && Shaped(cfg, c') && c'.peers == c.peers[a := s2]
  {
    var c1 := ReachCount(cfg, rules, c, a, u, s, s1);
    c' := ReachCount(cfg, rules, c1, a, v, s1, s2);
    ReachFurther(cfg, rules, c, c1, c');
  }

  lemma ReachWin(cfg: Config, rules: Rules, c: Cluster, a: Uid, u: Uid, v: Uid, s: PeerState, won: PeerState)
    returns (c': Cluster)
    requires Shaped(cfg, c) && a in c.peers && c.peers[a] == s && a != u && u != v && v != a
    requires Link(u, a) in c.queues && c.queues[Link(u, a)] == [ElectionRsp(s.term, true, s.term)]
    requires Link(v, a) in c.queues && c.queues[Link(v, a)] == [ElectionRsp(s.term, true, s.term)]
    requires s.role == Candidate && s.electionVotes == 1 && s.members == FIVE && |s.log| > 0
    requires rules.p3 ==> s.indices == map[]
    requires won == BecomeLeader(s.(electionVotes := 3))
    ensures CanReach(cfg, rules, c, c') && Shaped(cfg, c') && c'.peers == c.peers[a := won]
  {
    var s1 := s.(electionVotes := 2);
    ThirdVoteWins(s, s1, won, u, v);
    c' := ReachCounts(cfg, rules, c, a, u, v, s, s1, won);
  }

  lemma FirstAgain(peers: map<Uid, PeerState>, a: Uid, p: PeerState, p': PeerState, u: Uid, q: PeerState,
                   v: Uid, r: PeerState)
    requires a != u && a != v
    ensures peers[a := p][u := q][v := r][a := p'] == peers[a := p'][u := q][v := r]
  {}

  lemma ReachVictory(cfg: Config, rules: Rules, c: Cluster, b: Ballots, won: PeerState) returns (c': Cluster)
    requires IsVoting(cfg, c, b) && Quiet(c) && won == BecomeLeader(b.stood.(electionVotes := 3))
    requires rules.p3 ==> b.a.indices == map[]
    ensures CanReach(cfg, rules, c, c') && Shaped(cfg, c')
    ensures c'.peers == c.peers[b.a.id := won][b.u.id := b.u'][b.v.id := b.v']
  {
    var c1 := ReachGrants(cfg, rules, c, b);
    c' := ReachWin(cfg, rules, c1, b.a.id, b.u.id, b.v.id, b.stood, won);
    FirstAgain(c.peers, b.a.id, b.stood, won, b.u.id, b.u', b.v.id, b.v');
    ReachFurther(cfg, rules, c, c1, c');
  }

  predicate CanVote(voter: Sketch, candidate: Sketch) {
    && voter.term <= candidate.term && |voter.log| > 0 && |candidate.log| > 0
    && var v, c := voter.log[|voter.log| - 1], candidate.log[|candidate.log| - 1];
       !(v.term > c.term || (v.term == c.term && v.index > c.index))
  }

  function Elected(ss: seq<Sketch>, a: Uid, u: Uid, v: Uid): seq<Sketch>
    requires |ss| == 5 && IsFive(a) && IsFive(u) && IsFive(v)
  {
    var t := ss[a - 1].term + 1;
    ss[a - 1 := ss[a - 1].(role := Leader, term := t)]
      [u - 1 := ss[u - 1].(role := Follower, term := t)]
      [v - 1 := ss[v - 1].(role := Follower, term := t)]
  }

  lemma RedrawThree(peers: map<Uid, PeerState>, ss: seq<Sketch>, a: Uid, p: PeerState, u: Uid, q: PeerState,
                    v: Uid, r: PeerState, ss': seq<Sketch>)
    requires Sketched(peers, ss) && IsFive(a) && IsFive(u) && IsFive(v) && |ss'| == 5
    requires Matches(p, a, ss'[a - 1]) && Matches(q, u, ss'[u - 1]) && Matches(r, v, ss'[v - 1])
    requires ss' == ss[a - 1 := ss'[a - 1]][u - 1 := ss'[u - 1]][v - 1 := ss'[v - 1]]
    ensures Sketched(peers[a := p][u := q][v := r], ss')
  {
    Redraw(peers, ss, a, p, ss'[a - 1]);
    Redraw(peers[a := p], ss[a - 1 := ss'[a - 1]], u, q, ss'[u - 1]);
    Redraw(peers[a := p][u := q], ss[a - 1 := ss'[a - 1]][u - 1 := ss'[u - 1]], v, r, ss'[v - 1]);
  }

  function BallotsOf(s: PeerState, p: PeerState, q: PeerState): Ballots
    requires |s.log| > 0
  {
    Ballots(s, StartElection(s).peer, p, Overtake(p, s.term + 1, s.id).(endorsement := s.id),
            q, Overtake(q, s.term + 1, s.id).(endorsement := s.id))
  }

  lemma IsElection(cfg: Config, c: Cluster, ss: seq<Sketch>, a: Uid, u: Uid, v: Uid)
    requires Drawn(cfg, c, ss) && IsFive(a) && IsFive(u) && IsFive(v) && a != u && u != v && v != a
    requires ss[a - 1].role == Follower && CanVote(ss[u - 1], ss[a - 1]) && CanVote(ss[v - 1], ss[a - 1])
    ensures a in c.peers && u in c.peers && v in c.peers
    ensures Matches(c.peers[a], a, ss[a - 1]) && Matches(c.peers[u], u, ss[u - 1]) && Matches(c.peers[v], v, ss[v - 1])
    ensures |c.peers[a].log| > 0 && IsVoting(cfg, c, BallotsOf(c.peers[a], c.peers[u], c.peers[v]))
  {
    assert IsSketched(c.peers, ss, a) && IsSketched(c.peers, ss, u) && IsSketched(c.peers, ss, v);
  }

  lemma ElectedMatch(b: Ballots, ss: seq<Sketch>, a: Uid, u: Uid, v: Uid, won: PeerState)
    requires |ss| == 5 && IsFive(a) && IsFive(u) && IsFive(v) && a != u && u != v && v != a && |b.a.log| > 0
    requires b == BallotsOf(b.a, b.u, b.v) && won == BecomeLeader(b.stood.(electionVotes := 3))
    requires Matches(b.a, a, ss[a - 1]) && Matches(b.u, u, ss[u - 1]) && Matches(b.v, v, ss[v - 1])
    requires CanVote(ss[u - 1], ss[a - 1]) && CanVote(ss[v - 1], ss[a - 1])
    ensures var ss' := Elected(ss, a, u, v);
      Matches(won, a, ss'[a - 1]) && Matches(b.u', u, ss'[u - 1]) && Matches(b.v', v, ss'[v - 1])
  {}

  lemma ReachElected(cfg: Config, rules: Rules, c: Cluster, ss: seq<Sketch>, b: Ballots, won: PeerState,
                     ss': seq<Sketch>) returns (c': Cluster)
    requires Drawn(cfg, c, ss) && Quiet(c) && IsVoting(cfg, c, b) && won == BecomeLeader(b.stood.(electionVotes := 3))
    requires ss' == Elected(ss, b.a.id, b.u.id, b.v.id) && (rules.p3 ==> b.a.indices == map[])
    requires Matches(won, b.a.id, ss'[b.a.id - 1])
    requires Matches(b.u', b.u.id, ss'[b.u.id - 1]) && Matches(b.v', b.v.id, ss'[b.v.id - 1])
    ensures CanReach(cfg, rules, c, c') && Drawn(cfg, c', ss')
  {
    c' := ReachVictory(cfg, rules, c, b, won);
    RedrawThree(c.peers, ss, b.a.id, won, b.u.id, b.u', b.v.id, b.v', ss');
  }

  lemma DrawQuietElection(cfg: Config, rules: Rules, c: Cluster, ss: seq<Sketch>, a: Uid, u: Uid, v: Uid, ss': seq<Sketch>)
    returns (c': Cluster)
    requires Drawn(cfg, c, ss) && Quiet(c) && IsFive(a) && IsFive(u) && IsFive(v) && a != u && u != v && v != a
    requires ss[a - 1].role == Follower && CanVote(ss[u - 1], ss[a - 1]) && CanVote(ss[v - 1], ss[a - 1])
    requires ss' == Elected(ss, a, u, v) && (rules.p3 ==> ss[a - 1].indices == map[])
    ensures CanReach(cfg, rules, c, c') && Drawn(cfg, c', ss')
  {
    IsElection(cfg, c, ss, a, u, v);
    var b := BallotsOf(c.peers[a], c.peers[u], c.peers[v]);
    var won := BecomeLeader(b.stood.(electionVotes := 3));
    ElectedMatch(b, ss, a, u, v, won);
    c' := ReachElected(cfg, rules, c, ss, b, won, ss');
  }

  /** Peers u and v elect a. */
  lemma DrawElection(cfg: Config, rules: Rules, c: Cluster, ss: seq<Sketch>, a: Uid, u: Uid, v: Uid, ss': seq<Sketch>)
    requires Drawn(cfg, c, ss) && IsFive(a) && IsFive(u) && IsFive(v) && a != u && u != v && v != a
    requires ss[a - 1].role == Follower && CanVote(ss[u - 1], ss[a - 1]) && CanVote(ss[v - 1], ss[a - 1])
    requires ss' == Elected(ss, a, u, v) && (rules.p3 ==> ss[a - 1].indices == map[])
    ensures CanDraw(cfg, rules, c, ss')
  {
    var c1 := LoseAll(cfg, rules, c);
    var c' := DrawQuietElection(cfg, rules, c1, ss, a, u, v, ss');
    ReachFurther(cfg, rules, c, c1, c');
  }

  // ---- Commands and terms

  function Logged(ss: seq<Sketch>, a: Uid, uid: Uid): seq<Sketch>
    requires |ss| == 5 && IsFive(a)
  {
    var s := ss[a - 1];
    ss[a - 1 := s.(log := s.log + [Entry(|s.log|, s.term, 9, 9, Tag(uid, Exec))])]
  }

  lemma CommandLogs(p: PeerState, uid: Uid)
    requires p.role == Leader && p.members == FIVE && p.clusterEvent == 7
    requires p.commitIndex < |p.log| && !TagExists(p.log, Tag(uid, Exec))
    ensures P5Honest(p, Command(p.id, CommandReq(9, Tag(uid, Exec), 9)))
    ensures P6Settled(p, Command(p.id, CommandReq(9, Tag(uid, Exec), 9)))
    ensures RecvCommandReq(p, CommandReq(9, Tag(uid, Exec), 9)).peer
         == p.(log := p.log + [Entry(|p.log|, p.term, 9, 9, Tag(uid, Exec))])
  {}

  /** Leader a is asked to log an EXEC of event 9. */
  lemma DrawCommand(cfg: Config, rules: Rules, c: Cluster, ss: seq<Sketch>, a: Uid, uid: Uid, ss': seq<Sketch>)
    requires Drawn(cfg, c, ss) && IsFive(a) && ss[a - 1].role == Leader && ss[a - 1].commitIndex < |ss[a - 1].log|
    requires !TagExists(ss[a - 1].log, Tag(uid, Exec)) && ss' == Logged(ss, a, uid)
    ensures CanDraw(cfg, rules, c, ss')
  {
    assert IsSketched(c.peers, ss, a);
    var p := c.peers[a];
    var p' := p.(log := p.log + [Entry(|p.log|, p.term, 9, 9, Tag(uid, Exec))]);
    CommandLogs(p, uid);
    var c' := ReachCommand(cfg, rules, c, a, CommandReq(9, Tag(uid, Exec), 9), p, p');
    Redraw(c.peers, ss, a, p', ss'[a - 1]);
  }

  /** Peer a hears of the term of peer q. */
  lemma DrawTerm(cfg: Config, rules: Rules, c: Cluster, ss: seq<Sketch>, a: Uid, q: Uid, ss': seq<Sketch>)
    requires Drawn(cfg, c, ss) && IsFive(a) && IsFive(q) && a != q && ss[a - 1].term < ss[q - 1].term
    requires ss' == ss[a - 1 := ss[a - 1].(role := Follower, term := ss[q - 1].term)]
    ensures CanDraw(cfg, rules, c, ss')
  {
    assert IsSketched(c.peers, ss, a) && IsSketched(c.peers, ss, q);
    var s := Learn(a, q, ss[q - 1].term);
    var c' := Take(cfg, c, s);
    ReachStep(cfg, rules, c, s, c');
    Redraw(c.peers, ss, a, c'.peers[a], ss'[a - 1]);
  }

  // ---- Replication

  ghost predicate CanCopy(leader: Sketch, follower: Sketch) {
    && leader.role == Leader && follower.role == Follower && leader.term == follower.term
    && Rooted(leader.log) && Rooted(follower.log)
    && leader.commitIndex <= follower.commitIndex && leader.commitIndex < |leader.log|
    && Matching(leader.log, follower.log)
  }

  lemma CopyIsLinked(cfg: Config, c: Cluster, ss: seq<Sketch>, a: Uid, f: Uid)
    requires Drawn(cfg, c, ss) && IsFive(a) && IsFive(f) && a != f && CanCopy(ss[a - 1], ss[f - 1])
    ensures a in c.peers && f in c.peers && Matches(c.peers[a], a, ss[a - 1]) && Matches(c.peers[f], f, ss[f - 1])
    ensures Linked(cfg, c, c.peers[a], c.peers[f]) && Leads(c.peers[a], c.peers[f])
  {
    assert IsSketched(c.peers, ss, a) && IsSketched(c.peers, ss, f);
    FiveAreMembers(cfg, a);
    FiveAreMembers(cfg, f);
  }

  lemma CopyIs(leader: PeerState, follower: PeerState)
    requires Leads(leader, follower) && Matching(leader.log, follower.log)
    requires leader.commitIndex <= follower.commitIndex && leader.commitIndex < |leader.log|
    ensures Caught(leader, follower, |leader.log| - 1) == follower.(log := leader.log)
  {
    CaughtHasLeadersLog(leader, follower, |leader.log| - 1);
  }

  lemma ReachCopy(cfg: Config, rules: Rules, c: Cluster, leader: PeerState, follower: PeerState)
    returns (c': Cluster, rsp: Message)
    requires Linked(cfg, c, leader, follower) && Leads(leader, follower) && Matching(leader.log, follower.log)
    requires leader.commitIndex <= follower.commitIndex && leader.commitIndex < |leader.log|
    ensures CanReach(cfg, rules, c, c') && Shaped(cfg, c')
    ensures c'.peers == c.peers[follower.id := follower.(log := leader.log)]
    ensures Link(follower.id, leader.id) in c'.queues && c'.queues[Link(follower.id, leader.id)] == [rsp]
    ensures rsp.AppendRsp? && rsp.success && rsp.term == leader.term && rsp.requestTerm == leader.term
    ensures rsp.lastIndex == |leader.log| - 1
  {
    CopyIs(leader, follower);
    c' := ReachLeadersLog(cfg, rules, c, leader, follower);
    rsp := Acceptance(leader, follower, |leader.log| - 1);
  }

  /** Follower f gets the log of leader a; its answer is lost. */
  lemma DrawCopy(cfg: Config, rules: Rules, c: Cluster, ss: seq<Sketch>, a: Uid, f: Uid, ss': seq<Sketch>)
    requires Drawn(cfg, c, ss) && IsFive(a) && IsFive(f) && a != f && CanCopy(ss[a - 1], ss[f - 1])
    requires ss' == ss[f - 1 := ss[f - 1].(log := ss[a - 1].log)]
    ensures CanDraw(cfg, rules, c, ss')
  {
    CopyIsLinked(cfg, c, ss, a, f);
    var c', _ := ReachCopy(cfg, rules, c, c.peers[a], c.peers[f]);
    Redraw(c.peers, ss, f, c.peers[f].(log := ss[a - 1].log), ss'[f - 1]);
  }

  /** What leader a makes of the report of follower f, if the rule then picks index n. */
  function Reported(s: Sketch, f: Uid, n: nat): Sketch
    requires |s.log| > 0
  {
    var commits := n < |s.log| && s.log[n].term == s.term && n > s.commitIndex;
    s.(indices := s.indices[f := |s.log| - 1], commitIndex := if commits then n else s.commitIndex)
  }

  /** Cases in which the commit rule picks n: all reports are n, or one of two is, the other not lower. */
  predicate PicksAt(indices: map<Uid, nat>, n: nat) {
    && (exists f | f in indices :: indices[f] == n)
    && (forall f | f in indices :: indices[f] >= n)
    && (|indices.Keys| == 2 || forall f | f in indices :: indices[f] == n)
  }

  lemma PickedIsMajorityIndex(indices: map<Uid, nat>, n: nat)
    requires PicksAt(indices, n)
    ensures |indices| > 0 && MajorityIndex(indices) == n
  {
    assert |indices| == |indices.Keys| && |indices| > 0;
    MajorityIndexIsReached(indices);
    var reached := Reaching(indices, MajorityIndex(indices));
    if |indices.Keys| == 2 {
      assert reached <= indices.Keys;
      LeaderCompleteness.SubsetSize(reached, indices.Keys);
      SameSize(reached, indices.Keys);
    }
  }

  lemma SameSize(a: set<Uid>, b: set<Uid>)
    requires a <= b && |a| >= |b|
    ensures a == b
  {
    assert b == a + (b - a);
  }

  /** The rule picks n, inside the log; if that commits, enough peers have reported for P4. */
  predicate CanReport(rules: Rules, s: Sketch, f: Uid, n: nat) {
    && n < |s.log| && PicksAt(s.indices[f := |s.log| - 1], n)
    && (rules.p4 && s.log[n].term == s.term ==> |s.indices.Keys + {f}| >= 2)
  }

  lemma ReportedMatches(p: PeerState, a: Uid, s: Sketch, f: Uid, n: nat, p1: PeerState, p2: PeerState)
    requires Matches(p, a, s) && |s.log| > 0 && n < |s.log| && p1 == p.(indices := p.indices[f := |s.log| - 1])
    requires p2 == if p1.log[n].term == p1.term && n > p1.commitIndex then UpdateCommitIndex(p1, n) else p1
    ensures Matches(p2, a, Reported(s, f, n))
  {}

  lemma TwoReportsAreEnough(p: PeerState, f: Uid, m: Message)
    requires |p.indices.Keys + {f}| / 2 + 1 >= (|p.members| - 1) / 2
    ensures P4EnoughReports(p, f, m)
  {}

  lemma NoCommitNeedsNone(p: PeerState, f: Uid, m: Message)
    requires m.AppendRsp? && AppendRspInBounds(p, f, m) && RecvAppendRsp(p, f, m).peer.commitIndex == p.commitIndex
    ensures P4EnoughReports(p, f, m)
  {}

  /** The report is recorded, and commits what the rule picks. */
  lemma ReportIsCounted(p: PeerState, f: Uid, n: nat, m: Message, p1: PeerState)
    requires p.role == Leader && m.AppendRsp? && m.success && m.term == p.term
    requires p1 == p.(indices := p.indices[f := m.lastIndex]) && n < |p.log| && PicksAt(p1.indices, n)
    ensures AppendRspInBounds(p, f, m)
    ensures RecvAppendRsp(p, f, m).peer
      == if p1.log[n].term == p1.term && n > p1.commitIndex then UpdateCommitIndex(p1, n) else p1
  {
    PickedIsMajorityIndex(p1.indices, n);
    ClusterReplication.ReportEffect(p, f, m, p1, n);
  }

  lemma ReportMeetsP4(p: PeerState, f: Uid, n: nat, m: Message, p1: PeerState, p2: PeerState)
    requires m.AppendRsp? && AppendRspInBounds(p, f, m) && p2 == RecvAppendRsp(p, f, m).peer && |p.members| == 5
    requires n < |p.log| && p1 == p.(indices := p.indices[f := m.lastIndex])
    requires p2 == if p1.log[n].term == p1.term && n > p1.commitIndex then UpdateCommitIndex(p1, n) else p1
    requires p.log[n].term == p.term ==> |p.indices.Keys + {f}| >= 2
    ensures P4EnoughReports(p, f, m)
  {
    if p2.commitIndex == p.commitIndex {
      NoCommitNeedsNone(p, f, m);
    } else {
      TwoReportsAreEnough(p, f, m);
    }
  }

  lemma ReportIs(rules: Rules, p: PeerState, a: Uid, s: Sketch, f: Uid, n: nat, m: Message)
    requires Matches(p, a, s) && s.role == Leader && CanReport(rules, s, f, n)
    requires m.AppendRsp? && m.success && m.term == p.term && m.lastIndex == |p.log| - 1
    ensures AppendRspInBounds(p, f, m) && (rules.p4 ==> P4EnoughReports(p, f, m))
    ensures Matches(RecvAppendRsp(p, f, m).peer, a, Reported(s, f, n))
  {
    var p1 := p.(indices := p.indices[f := m.lastIndex]);
    ReportIsCounted(p, f, n, m, p1);
    var p2 := RecvAppendRsp(p, f, m).peer;
    ReportedMatches(p, a, s, f, n, p1, p2);
    if rules.p4 {
      ReportMeetsP4(p, f, n, m, p1, p2);
    }
  }

  lemma ReachReport(cfg: Config, rules: Rules, c: Cluster, leader: PeerState, follower: PeerState, s: Sketch, n: nat)
    returns (c': Cluster, leader': PeerState)
    requires Linked(cfg, c, leader, follower) && Leads(leader, follower) && Matching(leader.log, follower.log)
    requires leader.commitIndex <= follower.commitIndex && leader.commitIndex < |leader.log|
    requires Matches(leader, leader.id, s) && CanReport(rules, s, follower.id, n)
    ensures CanReach(cfg, rules, c, c') && Shaped(cfg, c')
    ensures c'.peers == c.peers[follower.id := follower.(log := leader.log)][leader.id := leader']
    ensures Matches(leader', leader.id, Reported(s, follower.id, n))
  {
    var c1, rsp := ReachCopy(cfg, rules, c, leader, follower);
    ReportIs(rules, leader, leader.id, s, follower.id, n, rsp);
    leader' := RecvAppendRsp(leader, follower.id, rsp).peer;
    c' := ReachDelivery(cfg, rules, c1, Link(follower.id, leader.id), RecvAppendRsp(leader, follower.id, rsp));
    ReachFurther(cfg, rules, c, c1, c');
  }

  /** Follower f gets the log of leader a and reports it. */
  lemma DrawReport(cfg: Config, rules: Rules, c: Cluster, ss: seq<Sketch>, a: Uid, f: Uid, n: nat, ss': seq<Sketch>)
    requires Drawn(cfg, c, ss) && IsFive(a) && IsFive(f) && a != f && CanCopy(ss[a - 1], ss[f - 1])
    requires CanReport(rules, ss[a - 1], f, n)
    requires ss' == ss[f - 1 := ss[f - 1].(log := ss[a - 1].log)][a - 1 := Reported(ss[a - 1], f, n)]
    ensures CanDraw(cfg, rules, c, ss')
  {
    CopyIsLinked(cfg, c, ss, a, f);
    var follower := c.peers[f].(log := ss[a - 1].log);
    var c', leader' := ReachReport(cfg, rules, c, c.peers[a], c.peers[f], ss[a - 1], n);
    Redraw(c.peers, ss, f, follower, ss'[f - 1]);
    Redraw(c.peers[f := follower], ss[f - 1 := ss'[f - 1]], a, leader', ss'[a - 1]);
  }

  datatype Move =
    | Election(a: Uid, u: Uid, v: Uid)
    | Order(a: Uid, uid: Uid)
    | Hear(a: Uid, q: Uid)
    | Copy(a: Uid, f: Uid)
    | Report(a: Uid, f: Uid, n: nat)

  /** The move leads from the sketches ss to the sketches ss'. */
  ghost predicate Plays(rules: Rules, ss: seq<Sketch>, move: Move, ss': seq<Sketch>) {
    && |ss| == 5
    && match move
       case Election(a, u, v) =>
         && IsFive(a) && IsFive(u) && IsFive(v) && a != u && u != v && v != a
         && ss[a - 1].role == Follower && CanVote(ss[u - 1], ss[a - 1]) && CanVote(ss[v - 1], ss[a - 1])
         && ss' == Elected(ss, a, u, v) && (rules.p3 ==> ss[a - 1].indices == map[])
       case Order(a, uid) =>
         && IsFive(a) && ss[a - 1].role == Leader && ss[a - 1].commitIndex < |ss[a - 1].log|
         && !TagExists(ss[a - 1].log, Tag(uid, Exec))
         && ss' == Logged(ss, a, uid)
       case Hear(a, q) =>
         && IsFive(a) && IsFive(q) && a != q && ss[a - 1].term < ss[q - 1].term
         && ss' == ss[a - 1 := ss[a - 1].(role := Follower, term := ss[q - 1].term)]
       case Copy(a, f) =>
         && IsFive(a) && IsFive(f) && a != f && CanCopy(ss[a - 1], ss[f - 1])
         && ss' == ss[f - 1 := ss[f - 1].(log := ss[a - 1].log)]
       case Report(a, f, n) =>
         && IsFive(a) && IsFive(f) && a != f && CanCopy(ss[a - 1], ss[f - 1]) && CanReport(rules, ss[a - 1], f, n)
         && ss' == ss[f - 1 := ss[f - 1].(log := ss[a - 1].log)][a - 1 := Reported(ss[a - 1], f, n)]
  }

  lemma DrawMove(cfg: Config, rules: Rules, c: Cluster, ss: seq<Sketch>, move: Move, ss': seq<Sketch>)
    requires Drawn(cfg, c, ss) && Plays(rules, ss, move, ss')
    ensures CanDraw(cfg, rules, c, ss')
  {
    match move
    case Election(a, u, v) => DrawElection(cfg, rules, c, ss, a, u, v, ss');
    case Order(a, uid) => DrawCommand(cfg, rules, c, ss, a, uid, ss');
    case Hear(a, q) => DrawTerm(cfg, rules, c, ss, a, q, ss');
    case Copy(a, f) => DrawCopy(cfg, rules, c, ss, a, f, ss');
    case Report(a, f, n) => DrawReport(cfg, rules, c, ss, a, f, n, ss');
  }

  lemma DrawFurther(cfg: Config, rules: Rules, c: Cluster, ss: seq<Sketch>, move: Move, ss': seq<Sketch>)
    requires CanDraw(cfg, rules, c, ss) && Plays(rules, ss, move, ss')
    ensures CanDraw(cfg, rules, c, ss')
  {
    var c1 :| CanReach(cfg, rules, c, c1) && Drawn(cfg, c1, ss);
    DrawMove(cfg, rules, c1, ss, move, ss');
    var c2 :| CanReach(cfg, rules, c1, c2) && Drawn(cfg, c2, ss');
    ReachFurther(cfg, rules, c, c1, c2);
  }

  // ---- Drawing peers

  function F(term: nat, log: seq<Entry>): Sketch {
    Sketch(Follower, term, log, 0, map[])
  }

  function L(term: nat, log: seq<Entry>, indices: map<Uid, nat>): Sketch {
    Sketch(Leader, term, log, 0, indices)
  }

  function Exec9(index: nat, term: nat, uid: Uid): Entry {
    Entry(index, term, 9, 9, Tag(uid, Exec))
  }

  const BARE: seq<Entry> := [EMPTY_ENTRY]

  /** A report that turns the sketches of leader and follower into the given ones. */
  lemma ReportPlays(rules: Rules, ss: seq<Sketch>, a: Uid, f: Uid, n: nat, leader: Sketch, follower: Sketch,
                    leader': Sketch, follower': Sketch, ss': seq<Sketch>)
    requires |ss| == 5 && IsFive(a) && IsFive(f) && a != f && ss[a - 1] == leader && ss[f - 1] == follower
    requires CanCopy(leader, follower) && CanReport(rules, leader, f, n)
    requires leader' == Reported(leader, f, n) && follower' == follower.(log := leader.log)
    requires ss' == ss[f - 1 := follower'][a - 1 := leader']
    ensures Plays(rules, ss, Report(a, f, n), ss')
  {}

  lemma ReportGives(rules: Rules, s: Sketch, f: Uid, n: nat, indices: map<Uid, nat>, commits: bool)
    requires n < |s.log| && indices == s.indices[f := |s.log| - 1] && PicksAt(indices, n)
    requires commits <==> s.log[n].term == s.term && n > s.commitIndex
    requires rules.p4 && s.log[n].term == s.term ==> |indices.Keys| >= 2
    ensures CanReport(rules, s, f, n)
    ensures Reported(s, f, n) == s.(indices := indices, commitIndex := if commits then n else s.commitIndex)
  {
    assert indices.Keys == s.indices.Keys + {f};
  }

  lemma OneReport(f: Uid, n: nat, indices: map<Uid, nat>)
    requires indices == map[f := n]
    ensures PicksAt(indices, n)
  {
    assert indices[f] == n;
  }

  /** Reports of peers f and g, of which the higher, if they differ, is that of peer g. */
  lemma TwoReports(f: Uid, g: Uid, n: nat, m: nat, indices: map<Uid, nat>)
    requires f != g && n <= m && indices == map[f := n, g := m]
    ensures PicksAt(indices, n) && |indices.Keys| == 2
  {
    assert indices.Keys == {f, g};
    assert indices[f] == n;
  }

  // ---- Beginning and end of a run

  function Five(w: Workflow): Config {
    Config(FIVE, 7, map[], 1, w)
  }

  const AT_REST: seq<Sketch> := [F(0, BARE), F(0, BARE), F(0, BARE), F(0, BARE), F(0, BARE)]

  lemma StartIsDrawn(cfg: Config, c: Cluster)
    requires cfg.members == FIVE && cfg.clusterEvent == 7 && c == Start(cfg) && Init(cfg, c)
    ensures Drawn(cfg, c, AT_REST)
  {
    forall id | IsFive(id) ensures IsSketched(c.peers, AT_REST, id) {
      FiveAreMembers(cfg, id);
    }
  }

  /** Two peers have committed different entries at an index. */
  predicate Conflict(c: Cluster, p: Uid, q: Uid, k: nat) {
    && p in c.peers && q in c.peers
    && k <= c.peers[p].commitIndex < |c.peers[p].log| && k <= c.peers[q].commitIndex < |c.peers[q].log|
    && c.peers[p].log[k] != c.peers[q].log[k]
  }
}

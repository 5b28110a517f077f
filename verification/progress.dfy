/** What every run can be continued to by timers and deliveries alone: a leader or candidate of an earlier term
    learns of the later one, and a candidate that enough peers can vote for is elected. */
module Progress {
  import opened Uids
  import opened CommitRule
  import opened PeerSpec
  import opened Clusters
  import opened ClusterSafety
  import opened Paths
  import opened CatchingUp
  import opened VoteRule

  // ---- Refusals

  /** A request of an earlier term than the peer's. */
  predicate IsOutdated(m: Message, p: PeerState) {
    (m.AppendReq? || m.ElectionReq?) && m.term < p.term
  }

  /** It changes nothing and is answered, and the answer makes whoever is still in the term of the request a
      follower in the later term. */
  lemma OutdatedIsRefused(sender: PeerState, p: PeerState, m: Message)
    requires IsOutdated(m, p) && |p.log| > 0 && |sender.log| > 0 && sender.term == m.term
    ensures Handle(p, sender.id, m).peer == p && |Handle(p, sender.id, m).sent| == 1
    ensures var k := Handle(p, sender.id, m).sent[0];
      && k.target == sender.id && IsResponse(k.message) && k.message.requestTerm == sender.term
      && (k.message.AppendRsp? ==> AppendRspInBounds(sender, p.id, k.message))
      && Handle(sender, p.id, k.message) == Effect(Overtake(sender, p.term, p.id), [])
  {}

  ghost predicate InFlight(c: Cluster, from: Uid, to: Uid, m: Message) {
    && Link(from, to) in c.queues && c.queues[Link(from, to)] == [m]
    && Link(to, from) in c.queues && c.queues[Link(to, from)] == []
  }

  lemma NoCommitOnRefusal(p: PeerState, source: Uid, m: Message, term: nat)
    requires |p.log| > 0 && IsResponse(m) && (m.AppendRsp? ==> AppendRspInBounds(p, source, m))
    requires Handle(p, source, m).peer == Overtake(p, term, source) && term > p.term
    ensures P4EnoughReports(p, source, m) && P3FreshIndices(p, source, m)
  {}

  /** Two deliveries, of a request that changes nothing and of its answer. */
  lemma ReachAnswered(cfg: Config, rules: Rules, c: Cluster, a: Uid, b: Uid, m: Message, rsp: Message, s': PeerState)
    returns (c': Cluster)
    requires Shaped(cfg, c) && a in c.peers && b in c.peers && a != b && InFlight(c, a, b, m)
    requires |c.peers[a].log| > 0 && |c.peers[b].log| > 0 && !IsResponse(m)
    requires Handle(c.peers[b], a, m) == Effect(c.peers[b], [Packet(a, rsp)])
    requires IsResponse(rsp) && rsp.requestTerm == c.peers[a].term
    requires rsp.AppendRsp? ==> AppendRspInBounds(c.peers[a], b, rsp)
    requires Handle(c.peers[a], b, rsp) == Effect(s', [])
    requires P4EnoughReports(c.peers[a], b, rsp) && P3FreshIndices(c.peers[a], b, rsp)
    ensures CanReach(cfg, rules, c, c') && c'.peers == c.peers[a := s']
  {
    var c1 := ReachDelivery(cfg, rules, c, Link(a, b), Effect(c.peers[b], [Packet(a, rsp)]));
    OnePacket(a, rsp, a);
    assert c1.peers == c.peers;
    c' := ReachDelivery(cfg, rules, c1, Link(b, a), Effect(s', []));
    ReachFurther(cfg, rules, c, c1, c');
  }

  /** Two deliveries: of an outdated request, and of its refusal. */
  lemma ReachRefusal(cfg: Config, rules: Rules, c: Cluster, sender: PeerState, p: PeerState, m: Message)
    returns (c': Cluster)
    requires Shaped(cfg, c) && sender.id in c.peers && c.peers[sender.id] == sender
    requires p.id in c.peers && c.peers[p.id] == p && sender.id != p.id && InFlight(c, sender.id, p.id, m)
    requires IsOutdated(m, p) && |p.log| > 0 && |sender.log| > 0 && sender.term == m.term
    ensures CanReach(cfg, rules, c, c') && c'.peers == c.peers[sender.id := Overtake(sender, p.term, p.id)]
  {
    OutdatedIsRefused(sender, p, m);
    var rsp := Handle(p, sender.id, m).sent[0].message;
    assert Handle(p, sender.id, m).sent == [Packet(sender.id, rsp)];
    NoCommitOnRefusal(sender, p.id, rsp, p.term);
    c' := ReachAnswered(cfg, rules, c, sender.id, p.id, m, rsp, Overtake(sender, p.term, p.id));
  }

  // ---- A leader or candidate of an earlier term

  lemma AsksMember(cfg: Config, c: Cluster, s: PeerState, m: Message, q: Uid, c': Cluster)
    requires ValidConfig(cfg) && Shaped(cfg, c) && Quiet(c) && s.id in c.peers && s.members == cfg.members && |s.log| > 0
    requires m == ElectionReq(s.term + 1, LastEntry(s).term, LastEntry(s).index)
    requires q in c.peers && q != s.id && c' == Become(c, s.id, StartElection(s))
    ensures InFlight(c', s.id, q, m)
  {
    assert IsLink(cfg, Link(s.id, q)) && IsLink(cfg, Link(q, s.id));
    CandidacyAsks(s, m, q);
  }

  /** The timer of a candidate goes off: it stands again and asks every other member. */
  lemma ReachRetry(cfg: Config, rules: Rules, c: Cluster, s: PeerState, m: Message, stood: PeerState) returns (c': Cluster)
    requires ValidConfig(cfg) && Shaped(cfg, c) && Quiet(c) && s.id in c.peers && c.peers[s.id] == s
    requires s.role == Candidate && s.members == cfg.members && |s.log| > 0
    requires m == ElectionReq(s.term + 1, LastEntry(s).term, LastEntry(s).index) && stood == StartElection(s).peer
    ensures CanReach(cfg, rules, c, c') && Shaped(cfg, c')
    ensures c'.peers == c.peers[s.id := stood] && c'.queues.Keys == c.queues.Keys
    ensures forall q | q in c.peers && q != s.id :: InFlight(c', s.id, q, m)
  {
    c' := Become(c, s.id, StartElection(s));
    assert PeerSpec.Timeout(s, false, 0) == StartElection(s);
    ReachStep(cfg, rules, c, Timer(s.id, false, 0), c');
    forall q | q in c.peers && q != s.id ensures InFlight(c', s.id, q, m) {
      AsksMember(cfg, c, s, m, q, c');
    }
  }

  lemma ReachOutdatedLeader(cfg: Config, rules: Rules, c: Cluster, s: PeerState, q: PeerState) returns (c': Cluster)
    requires Linked(cfg, c, s, q) && Quiet(c) && s.role == Leader && s.term < q.term && |q.log| > 0
    ensures CanReach(cfg, rules, c, c') && c'.peers == c.peers[s.id := Overtake(s, q.term, q.id)]
  {
    var m := PrefixRequest(s, |s.log| - 1);
    var c1 := ReachIdleTimer(cfg, rules, c, s.id, s, Effect(s, Broadcast(s.members, s.id, m)));
    BroadcastReaches(s.members, s.id, m, q.id);
    assert s.id in Members(cfg) && q.id in Members(cfg);
    c' := ReachRefusal(cfg, rules, c1, s, q, m);
    ReachFurther(cfg, rules, c, c1, c');
  }

  lemma StoodIs(s: PeerState, stood: PeerState)
    requires |s.log| > 0 && stood == StartElection(s).peer
    ensures stood.id == s.id && stood.term == s.term + 1 && stood.log == s.log
  {}

  lemma SetTwice(peers: map<Uid, PeerState>, a: Uid, s: PeerState, s': PeerState)
    ensures peers[a := s][a := s'] == peers[a := s']
  {}

  lemma ReachRefused(cfg: Config, rules: Rules, c: Cluster, s: PeerState, q: PeerState, m: Message) returns (c': Cluster)
    requires Shaped(cfg, c) && s.id in c.peers && c.peers[s.id] == s && q.id in c.peers && c.peers[q.id] == q
    requires s.id != q.id && m.ElectionReq? && m.term == s.term < q.term && |s.log| > 0 && |q.log| > 0
    requires forall r | r in c.peers && r != s.id :: InFlight(c, s.id, r, m)
    ensures CanReach(cfg, rules, c, c') && c'.peers == c.peers[s.id := Overtake(s, q.term, q.id)]
  {
    assert InFlight(c, s.id, q.id, m);
    c' := ReachRefusal(cfg, rules, c, s, q, m);
  }

  lemma ReachOutdatedCandidate(cfg: Config, rules: Rules, c: Cluster, s: PeerState, q: PeerState, stood: PeerState,
                               m: Message) returns (c': Cluster)
    requires Linked(cfg, c, s, q) && Quiet(c) && s.role == Candidate && s.term + 1 < q.term && |q.log| > 0
    requires m == ElectionReq(s.term + 1, LastEntry(s).term, LastEntry(s).index) && stood == StartElection(s).peer
    ensures CanReach(cfg, rules, c, c') && c'.peers == c.peers[s.id := Overtake(stood, q.term, q.id)]
  {
    StoodIs(s, stood);
    var c1 := ReachRetry(cfg, rules, c, s, m, stood);
    c' := ReachRefused(cfg, rules, c1, stood, q, m);
    SetTwice(c.peers, s.id, stood, Overtake(stood, q.term, q.id));
    ReachFurther(cfg, rules, c, c1, c');
  }

  /** A leader of an earlier term than the peer's, or a candidate that would still be in one if it stood again. */
  predicate IsOutrun(p: PeerState, q: PeerState) {
    (p.role == Leader && p.term < q.term) || (p.role == Candidate && p.term + 1 < q.term)
  }

  /** p has become a follower in this term, with the log it had; no other peer has changed. */
  predicate SteppedDown(now: map<Uid, PeerState>, later: map<Uid, PeerState>, p: Uid, term: nat) {
    && p in now && p in later && later == now[p := later[p]]
    && later[p].role == Follower && later[p].term == term && later[p].log == now[p].log
  }

  lemma ReachStepDown(cfg: Config, c: Cluster, s: PeerState, q: PeerState) returns (c': Cluster)
    requires Linked(cfg, c, s, q) && IsOutrun(s, q) && |q.log| > 0
    ensures CanReach(cfg, ALL_RULES, c, c') && SteppedDown(c.peers, c'.peers, s.id, q.term)
  {
    var c1 := LoseAll(cfg, ALL_RULES, c);
    if s.role == Leader {
      c' := ReachOutdatedLeader(cfg, ALL_RULES, c1, s, q);
    } else {
      var m := ElectionReq(s.term + 1, LastEntry(s).term, LastEntry(s).index);
      c' := ReachOutdatedCandidate(cfg, ALL_RULES, c1, s, q, StartElection(s).peer, m);
    }
    ReachFurther(cfg, ALL_RULES, c, c1, c');
  }

  lemma LinkedInRun(cfg: Config, states: seq<Cluster>, steps: seq<Step>, i: nat, p: Uid, q: Uid)
    requires InDefinedRun(cfg, states, steps, i, p) && InDefinedRun(cfg, states, steps, i, q) && p != q
    ensures Linked(cfg, states[i], PeerAt(states, i, p), PeerAt(states, i, q)) && |PeerAt(states, i, q).log| > 0
    ensures PeerAt(states, i, p).id == p && PeerAt(states, i, q).id == q
  {
    ReachableIsRooted(cfg, states, steps, i, p);
    ReachableIsRooted(cfg, states, steps, i, q);
    PeerInRun(cfg, states, steps, i, p);
    PeerInRun(cfg, states, steps, i, q);
  }

  lemma StepDownFrom(cfg: Config, states: seq<Cluster>, steps: seq<Step>, i: nat, p: Uid, q: Uid) returns (c': Cluster)
    requires InDefinedRun(cfg, states, steps, i, p) && InDefinedRun(cfg, states, steps, i, q) && p != q
    requires IsOutrun(PeerAt(states, i, p), PeerAt(states, i, q))
    ensures CanReach(cfg, ALL_RULES, states[i], c')
    ensures SteppedDown(states[i].peers, c'.peers, p, PeerAt(states, i, q).term)
  {
    LinkedInRun(cfg, states, steps, i, p, q);
    c' := ReachStepDown(cfg, states[i], PeerAt(states, i, p), PeerAt(states, i, q));
  }

  /** Whatever has happened so far under P1 and P2, a run with a leader whose term has passed can be continued,
      by its timer and deliveries that respect all of P1 to P6, until it is a follower in the later term, its
      log as it was and no other peer changed; so can one with a candidate that is two terms behind. */
  lemma OutrunPeersStepDown(cfg: Config, states: seq<Cluster>, steps: seq<Step>, p: Uid, q: Uid) returns (path: Path)
    requires InDefinedRun(cfg, states, steps, |steps|, p) && InDefinedRun(cfg, states, steps, |steps|, q) && p != q
    requires IsOutrun(PeerAt(states, |steps|, p), PeerAt(states, |steps|, q))
    ensures IsPath(cfg, ALL_RULES, path) && path.states[0] == states[|steps|]
    ensures IsDefinedRun(cfg, states + path.states[1..], steps + path.steps)
    ensures SteppedDown(states[|steps|].peers, path.states[|path.steps|].peers, p, PeerAt(states, |steps|, q).term)
  {
    var c' := StepDownFrom(cfg, states, steps, |steps|, p, q);
    path :| Joins(cfg, ALL_RULES, path, states[|steps|], c');
    ContinueDefinedRun(cfg, ALL_RULES, states, steps, path);
  }

  // ---- A candidate that can be elected

  function Granted(s: PeerState, term: nat, a: Uid): PeerState {
    Overtake(s, term, a).(endorsement := a)
  }

  function WithGrants(peers: map<Uid, PeerState>, voters: seq<Uid>, term: nat, a: Uid): map<Uid, PeerState> {
    map v | v in peers :: if v in voters then Granted(peers[v], term, a) else peers[v]
  }

  predicate Distinct(voters: seq<Uid>) {
    forall i, j | 0 <= i < j < |voters| :: voters[i] != voters[j]
  }

  ghost predicate CanGrant(c: Cluster, a: Uid, m: Message, v: Uid) {
    && m.ElectionReq? && v in c.peers && v != a && InFlight(c, a, v, m)
    && m.term > c.peers[v].term && |c.peers[v].log| > 0 && LogNotAhead(c.peers[v], m.lastTerm, m.lastIndex)
  }

  ghost predicate HasGrant(c: Cluster, a: Uid, term: nat, v: Uid) {
    Link(v, a) in c.queues && c.queues[Link(v, a)] == [ElectionRsp(term, true, term)]
  }

  lemma ReachOneGrant(cfg: Config, rules: Rules, c: Cluster, a: Uid, m: Message, v: Uid, s': PeerState) returns (c': Cluster)
    requires Shaped(cfg, c) && CanGrant(c, a, m, v) && s' == Granted(c.peers[v], m.term, a)
    ensures CanReach(cfg, rules, c, c') && Shaped(cfg, c') && c'.peers == c.peers[v := s']
    ensures HasGrant(c', a, m.term, v)
    ensures forall w | w != v && HasGrant(c, a, m.term, w) :: HasGrant(c', a, m.term, w)
    ensures forall w | w != v && CanGrant(c, a, m, w) :: CanGrant(c', a, m, w)
  {
    c' := ReachGrant(cfg, rules, c, a, v, c.peers[v], s', m);
  }

  lemma OneMoreGrant(peers: map<Uid, PeerState>, voters: seq<Uid>, term: nat, a: Uid)
    requires voters != [] && Distinct(voters) && voters[|voters| - 1] in peers
    ensures var front, v := voters[..|voters| - 1], voters[|voters| - 1];
      && v !in front && (forall w :: w in voters <==> w in front || w == v)
      && WithGrants(peers, front, term, a)[v] == peers[v]
      && WithGrants(peers, voters, term, a)
           == WithGrants(peers, front, term, a)[v := Granted(WithGrants(peers, front, term, a)[v], term, a)]
  {
    var front, v := voters[..|voters| - 1], voters[|voters| - 1];
    assert voters == front + [v];
  }

  /** Voters asked for their votes all give them. */
  lemma {:induction false} ReachGrants(cfg: Config, rules: Rules, c: Cluster, a: Uid, m: Message, voters: seq<Uid>)
    returns (c': Cluster)
    requires Shaped(cfg, c) && m.ElectionReq? && Distinct(voters) && forall v | v in voters :: CanGrant(c, a, m, v)
    ensures CanReach(cfg, rules, c, c') && Shaped(cfg, c') && c'.peers == WithGrants(c.peers, voters, m.term, a)
    ensures forall v | v in voters :: HasGrant(c', a, m.term, v)
    ensures forall v | v !in voters && CanGrant(c, a, m, v) :: CanGrant(c', a, m, v)
    decreases |voters|
  {
    if voters == [] {
      assert WithGrants(c.peers, voters, m.term, a) == c.peers;
      ReachSelf(cfg, rules, c);
      c' := c;
    } else {
      var front, v := voters[..|voters| - 1], voters[|voters| - 1];
      assert CanGrant(c, a, m, v);
      OneMoreGrant(c.peers, voters, m.term, a);
      var c1 := ReachGrants(cfg, rules, c, a, m, front);
      c' := ReachOneGrant(cfg, rules, c1, a, m, v, Granted(c1.peers[v], m.term, a));
      ReachFurther(cfg, rules, c, c1, c');
    }
  }

  /** One more grant counted: enough now, or one fewer to go. */
  lemma CountOne(s: PeerState, v: Uid, s': PeerState)
    requires s.role == Candidate && |s.log| > 0
    requires s' == RecvElectionRsp(s, v, ElectionRsp(s.term, true, s.term)).peer
    ensures s'.term == s.term && s'.log == s.log && s'.id == s.id && s'.members == s.members && s'.indices == s.indices
    ensures IsMajority(s.electionVotes + 1, |s.members|) ==> s'.role == Leader
    ensures !IsMajority(s.electionVotes + 1, |s.members|) ==>
      s'.role == Candidate && s'.electionVotes == s.electionVotes + 1
  {}

  /** The grants that are in flight are counted until they are enough. */
  lemma {:induction false} ReachWin(cfg: Config, rules: Rules, c: Cluster, a: Uid, s: PeerState, voters: seq<Uid>)
    returns (c': Cluster)
    requires Shaped(cfg, c) && a in c.peers && c.peers[a] == s && s.role == Candidate && |s.log| > 0
    requires Distinct(voters) && a !in voters && forall v | v in voters :: HasGrant(c, a, s.term, v)
    requires voters != [] && IsMajority(s.electionVotes + |voters|, |s.members|) && (rules.p3 ==> s.indices == map[])
    ensures CanReach(cfg, rules, c, c') && a in c'.peers && c'.peers == c.peers[a := c'.peers[a]]
    ensures c'.peers[a].role == Leader && c'.peers[a].term == s.term && c'.peers[a].log == s.log
    decreases |voters|
  {
    var v, rest := voters[0], voters[1..];
    var s' := RecvElectionRsp(s, v, ElectionRsp(s.term, true, s.term)).peer;
    CountOne(s, v, s');
    assert HasGrant(c, a, s.term, v);
    var c1 := ReachCount(cfg, rules, c, a, v, s, s');
    if s'.role == Leader {
      c' := c1;
    } else {
      forall w | w in rest ensures HasGrant(c1, a, s.term, w) {
        assert w in voters && w != v;
      }
      c' := ReachWin(cfg, rules, c1, a, s', rest);
      ReachFurther(cfg, rules, c, c1, c');
    }
  }

  /** The peer may still vote in the term the candidate would stand in next, and finds its log not behind. */
  predicate CanVoteFor(p: PeerState, v: PeerState) {
    |p.log| > 0 && |v.log| > 0 && v.term <= p.term && NotBehind(LastEntry(p).term, LastEntry(p).index, LastEntry(v))
  }

  /** p has become leader of the next term, with the log it had; only the voters have changed besides. */
  predicate HasWon(now: map<Uid, PeerState>, later: map<Uid, PeerState>, p: Uid, voters: seq<Uid>) {
    && p in now && later.Keys == now.Keys
    && later[p].role == Leader && later[p].term == now[p].term + 1 && later[p].log == now[p].log
    && forall r | r in now && r != p && r !in voters :: later[r] == now[r]
  }

  lemma AskedCanGrant(now: map<Uid, PeerState>, c: Cluster, s: PeerState, m: Message, v: Uid)
    requires v in now && v in c.peers && c.peers[v] == now[v] && v != s.id && InFlight(c, s.id, v, m)
    requires CanVoteFor(s, now[v]) && m == ElectionReq(s.term + 1, LastEntry(s).term, LastEntry(s).index)
    ensures CanGrant(c, s.id, m, v)
  {}

  lemma ReachAsked(cfg: Config, rules: Rules, c: Cluster, s: PeerState, voters: seq<Uid>, stood: PeerState, m: Message)
    returns (c': Cluster)
    requires ValidConfig(cfg) && Shaped(cfg, c) && Quiet(c) && s.id in c.peers && c.peers[s.id] == s
    requires s.role == Candidate && s.members == cfg.members && |s.log| > 0 && s.id !in voters
    requires m == ElectionReq(s.term + 1, LastEntry(s).term, LastEntry(s).index) && stood == StartElection(s).peer
    requires forall v | v in voters :: v in c.peers && CanVoteFor(s, c.peers[v])
    ensures CanReach(cfg, rules, c, c') && Shaped(cfg, c') && c'.peers == c.peers[s.id := stood]
    ensures forall v | v in voters :: CanGrant(c', s.id, m, v)
  {
    c' := ReachRetry(cfg, rules, c, s, m, stood);
    forall v | v in voters ensures CanGrant(c', s.id, m, v) {
      assert InFlight(c', s.id, v, m);
      AskedCanGrant(c.peers, c', s, m, v);
    }
  }

  lemma ReachVoted(cfg: Config, rules: Rules, c: Cluster, s: PeerState, voters: seq<Uid>, stood: PeerState, m: Message)
    returns (c': Cluster)
    requires ValidConfig(cfg) && Shaped(cfg, c) && Quiet(c) && s.id in c.peers && c.peers[s.id] == s
    requires s.role == Candidate && s.members == cfg.members && |s.log| > 0 && s.id !in voters && Distinct(voters)
    requires m == ElectionReq(s.term + 1, LastEntry(s).term, LastEntry(s).index) && stood == StartElection(s).peer
    requires forall v | v in voters :: v in c.peers && CanVoteFor(s, c.peers[v])
    ensures CanReach(cfg, rules, c, c') && Shaped(cfg, c')
    ensures c'.peers == WithGrants(c.peers[s.id := stood], voters, m.term, s.id) && c'.peers[s.id] == stood
    ensures forall v | v in voters :: HasGrant(c', s.id, m.term, v)
  {
    var c1 := ReachAsked(cfg, rules, c, s, voters, stood, m);
    c' := ReachGrants(cfg, rules, c1, s.id, m, voters);
    ReachFurther(cfg, rules, c, c1, c');
  }

  lemma WinnerAndVoters(now: map<Uid, PeerState>, later: map<Uid, PeerState>, a: Uid, stood: PeerState, voters: seq<Uid>)
    requires a in now && a in later && stood.term == now[a].term + 1 && stood.log == now[a].log
    requires later == WithGrants(now[a := stood], voters, stood.term, a)[a := later[a]]
    requires later[a].role == Leader && later[a].term == stood.term && later[a].log == stood.log
    ensures HasWon(now, later, a, voters)
  {}

  lemma CanStand(s: PeerState, stood: PeerState, voters: seq<Uid>)
    requires |s.log| > 0 && stood == StartElection(s).peer && IsMajority(1 + |voters|, |s.members|)
    ensures stood.role == Candidate && stood.term == s.term + 1 && stood.log == s.log && stood.indices == s.indices
    ensures IsMajority(stood.electionVotes + |voters|, |stood.members|)
  {}

  lemma ReachElection(cfg: Config, rules: Rules, c: Cluster, s: PeerState, voters: seq<Uid>, stood: PeerState, m: Message)
    returns (c': Cluster)
    requires ValidConfig(cfg) && Shaped(cfg, c) && Quiet(c) && s.id in c.peers && c.peers[s.id] == s
    requires s.role == Candidate && s.members == cfg.members && |s.log| > 0 && (rules.p3 ==> s.indices == map[])
    requires m == ElectionReq(s.term + 1, LastEntry(s).term, LastEntry(s).index) && stood == StartElection(s).peer
    requires voters != [] && Distinct(voters) && s.id !in voters && IsMajority(1 + |voters|, ClusterSize(cfg))
    requires forall v | v in voters :: v in c.peers && CanVoteFor(s, c.peers[v])
    ensures CanReach(cfg, rules, c, c') && HasWon(c.peers, c'.peers, s.id, voters)
  {
    CanStand(s, stood, voters);
    var c1 := ReachVoted(cfg, rules, c, s, voters, stood, m);
    c' := ReachWin(cfg, rules, c1, s.id, stood, voters);
    WinnerAndVoters(c.peers, c'.peers, s.id, stood, voters);
    ReachFurther(cfg, rules, c, c1, c');
  }

  lemma ReachWonElection(cfg: Config, rules: Rules, c: Cluster, s: PeerState, voters: seq<Uid>) returns (c': Cluster)
    requires ValidConfig(cfg) && Shaped(cfg, c) && s.id in c.peers && c.peers[s.id] == s
    requires s.role == Candidate && s.members == cfg.members && |s.log| > 0 && (rules.p3 ==> s.indices == map[])
    requires voters != [] && Distinct(voters) && s.id !in voters && IsMajority(1 + |voters|, ClusterSize(cfg))
    requires forall v | v in voters :: v in c.peers && CanVoteFor(s, c.peers[v])
    ensures CanReach(cfg, rules, c, c') && HasWon(c.peers, c'.peers, s.id, voters)
  {
    var c1 := LoseAll(cfg, rules, c);
    var m := ElectionReq(s.term + 1, LastEntry(s).term, LastEntry(s).index);
    c' := ReachElection(cfg, rules, c1, s, voters, StartElection(s).peer, m);
    ReachFurther(cfg, rules, c, c1, c');
  }

  /** Whatever has happened so far under P1 and P2, a run with a candidate can be continued, by its timer and
      deliveries that respect the rules, until it leads the next term, if peers enough for a majority can vote
      for it then (and it holds no follower indices, where the rules ask for P3). */
  lemma EveryCandidateCanWin(cfg: Config, rules: Rules, states: seq<Cluster>, steps: seq<Step>, p: Uid, voters: seq<Uid>)
    returns (path: Path)
    requires InDefinedRun(cfg, states, steps, |steps|, p) && PeerAt(states, |steps|, p).role == Candidate
    requires ClusterSize(cfg) > 1 && Distinct(voters) && p !in voters && IsMajority(1 + |voters|, ClusterSize(cfg))
    requires forall v | v in voters ::
      v in states[|steps|].peers && CanVoteFor(PeerAt(states, |steps|, p), PeerAt(states, |steps|, v))
    requires rules.p3 ==> PeerAt(states, |steps|, p).indices == map[]
    ensures IsPath(cfg, rules, path) && path.states[0] == states[|steps|]
    ensures IsDefinedRun(cfg, states + path.states[1..], steps + path.steps)
    ensures HasWon(states[|steps|].peers, path.states[|path.steps|].peers, p, voters)
  {
    PeerInRun(cfg, states, steps, |steps|, p);
    var c' := ReachWonElection(cfg, rules, states[|steps|], PeerAt(states, |steps|, p), voters);
    path :| Joins(cfg, rules, path, states[|steps|], c');
    ContinueDefinedRun(cfg, rules, states, steps, path);
  }

  // ---- Commits

  /** The highest index that more than half of those who reported reach. */
  ghost predicate IsHighest(indices: map<Uid, nat>, n: nat) {
    forall v: nat :: |Reaching(indices, v)| >= |indices| / 2 + 1 <==> v <= n
  }

  /** A leader that gets the report of a follower records it, and commits the highest index that more than half
      of its reporters reach, if that entry is of its own term and not committed yet; otherwise nothing. */
  lemma LeaderCommitsIff(cfg: Config, states: seq<Cluster>, steps: seq<Step>, i: nat, l: Link, m: Message, n: nat)
    requires InDefinedRun(cfg, states, steps, i, l.target) && i < |steps| && steps[i] == Deliver(l)
    requires l in states[i].queues && states[i].queues[l] != [] && states[i].queues[l][0] == m
    requires l.target in states[i + 1].peers && PeerAt(states, i, l.target).role == Leader
    requires m.AppendRsp? && m.success && m.term <= PeerAt(states, i, l.target).term
    requires IsHighest(PeerAt(states, i, l.target).indices[l.source := m.lastIndex], n)
    ensures var s, s' := PeerAt(states, i, l.target), PeerAt(states, i + 1, l.target);
      && s'.indices == s.indices[l.source := m.lastIndex] && n < |s.log|
      && s'.commitIndex == if s.log[n].term == s.term && n > s.commitIndex then n else s.commitIndex
  {
    DeliveredReport(cfg, states, steps, i, l, m);
    ReportCommits(PeerAt(states, i, l.target), l.source, m, n);
  }

  lemma DeliveredReport(cfg: Config, states: seq<Cluster>, steps: seq<Step>, i: nat, l: Link, m: Message)
    requires InDefinedRun(cfg, states, steps, i, l.target) && i < |steps| && steps[i] == Deliver(l)
    requires l in states[i].queues && states[i].queues[l] != [] && states[i].queues[l][0] == m && m.AppendRsp?
    requires l.target in states[i + 1].peers
    ensures AppendRspInBounds(PeerAt(states, i, l.target), l.source, m)
    ensures PeerAt(states, i + 1, l.target) == RecvAppendRsp(PeerAt(states, i, l.target), l.source, m).peer
  {
    StepOfDefinedRun(cfg, states, steps, i);
    PeersAfterStep(cfg, states[i], steps[i]);
  }

  lemma ReportCommits(p: PeerState, source: Uid, m: Message, n: nat)
    requires p.role == Leader && m.AppendRsp? && m.success && m.term <= p.term && AppendRspInBounds(p, source, m)
    requires IsHighest(p.indices[source := m.lastIndex], n)
    ensures n < |p.log|
    ensures var p' := RecvAppendRsp(p, source, m).peer;
      && p'.indices == p.indices[source := m.lastIndex]
      && p'.commitIndex == if p.log[n].term == p.term && n > p.commitIndex then n else p.commitIndex
  {
    var indices := p.indices[source := m.lastIndex];
    assert source in indices && |indices| > 0;
    MajorityIndexIsHighest(indices, n);
    MajorityIndexIsHighest(indices, MajorityIndex(indices));
    assert MajorityIndex(indices) == n;
  }
}

/** A follower that rejects an append catches up with its leader: the exchange of rejections and ever
    longer appends ends, and ends in equal logs. */
module CatchingUp {
  import opened Uids
  import opened PeerSpec
  import opened Clusters
  import opened ClusterSafety
  import opened Paths

  /** Both logs start alike and entries know their place. */
  predicate Rooted(log: seq<Entry>) {
    && |log| > 0 && log[0] == EMPTY_ENTRY
    && forall i | 0 <= i < |log| :: log[i].index == i
  }

  /** The leader of the follower's term is told that the follower does not have entry `prevIndex`. */
  predicate Behind(leader: PeerState, follower: PeerState, rsp: Message) {
    && leader.role == Leader && follower.role == Follower && leader.term == follower.term
    && Rooted(leader.log) && Rooted(follower.log)
    && rsp.AppendRsp? && !rsp.success && rsp.term == leader.term
    && 1 <= rsp.prevIndex < |leader.log|
  }

  predicate StillLeads(a: PeerState, b: PeerState) {
    b.role == Leader && b.term == a.term && Rooted(b.log) && a.log <= b.log
  }

  /** The leader at successive rounds; its log may grow between them. */
  predicate Leading(leaders: seq<PeerState>) {
    forall i, j {:trigger StillLeads(leaders[i], leaders[j])} | 0 <= i < j < |leaders| :: StillLeads(leaders[i], leaders[j])
  }

  datatype Outcome = Outcome(leader: PeerState, follower: PeerState, rejections: nat)

  /** What the leader answers to a rejection. */
  function Resend(leader: PeerState, follower: PeerState, rsp: Message): (req: Message)
    requires Behind(leader, follower, rsp)
    ensures req.AppendReq? && req.prevIndex == rsp.prevIndex - 1 && req.term == follower.term
    ensures req.prevTerm == leader.log[req.prevIndex].term && req.entries == leader.log[rsp.prevIndex..]
  {
    RecvAppendRsp(leader, follower.id, rsp).sent[0].message
  }

  /** Each round lowers prev_index by one, and at index 0 there is no rejection any more. */
  lemma RoundAdvances(leader: PeerState, follower: PeerState, rsp: Message)
    requires Behind(leader, follower, rsp)
    ensures var req := Resend(leader, follower, rsp); var e := RecvAppendReq(follower, leader.id, req);
      && |e.sent| == 1 && e.sent[0].message.AppendRsp?
      && e.sent[0].message.success == TermAndIndexExist(follower.log, req.prevTerm, req.prevIndex)
      && (e.sent[0].message.success ==>
            e.peer.log == UpTo(follower.log, req.prevIndex) + leader.log[rsp.prevIndex..]
            && e.sent[0].message.lastIndex == |e.peer.log| - 1)
      && (!e.sent[0].message.success ==>
            e.peer == follower
            && rsp.prevIndex > 1
            && e.sent[0].message.prevIndex == rsp.prevIndex - 1
            && Behind(leader, follower, e.sent[0].message))
  {}

  /** Rounds until the follower accepts. It ends because `prevIndex` decreases. */
  function CatchUp(leaders: seq<PeerState>, follower: PeerState, rsp: Message): Outcome
    requires rsp.AppendRsp? && 0 < rsp.prevIndex <= |leaders| && Leading(leaders)
    requires Behind(leaders[0], follower, rsp)
    decreases rsp.prevIndex
  {
    var req := Resend(leaders[0], follower, rsp);
    var e := RecvAppendReq(follower, leaders[0].id, req);
    RoundAdvances(leaders[0], follower, rsp);
    var answer := e.sent[0].message;
    if answer.success then Outcome(leaders[0], e.peer, 0)
    else
      NextLeader(leaders);
      var rest := CatchUp(leaders[1..], e.peer, answer);
      rest.(rejections := rest.rejections + 1)
  }

  lemma NextLeader(leaders: seq<PeerState>)
    requires Leading(leaders) && |leaders| > 0
    ensures Leading(leaders[1..])
    ensures |leaders| > 1 ==> StillLeads(leaders[0], leaders[1])
  {
    forall i, j | 0 <= i < j < |leaders[1..]| ensures StillLeads(leaders[1..][i], leaders[1..][j]) {
      assert StillLeads(leaders[i + 1], leaders[j + 1]);
    }
    assert |leaders| > 1 ==> StillLeads(leaders[0], leaders[1]);
  }

  /** The last index below n at which the follower has the leader's term. */
  function LastMatch(a: seq<Entry>, b: seq<Entry>, n: nat): (m: nat)
    requires Rooted(a) && Rooted(b) && 0 < n <= |a|
    ensures m < n && TermAndIndexExist(b, a[m].term, m)
    ensures forall k | m < k < n :: !TermAndIndexExist(b, a[k].term, k)
  {
    if TermAndIndexExist(b, a[n - 1].term, n - 1) then n - 1 else LastMatch(a, b, n - 1)
  }

  /** Where the leader's log and the follower's hold the same term, they agree up to there. */
  ghost predicate Matching(a: seq<Entry>, b: seq<Entry>) {
    forall k {:trigger a[k]} | 0 <= k < |a| && k < |b| && a[k].term == b[k].term :: a[..k + 1] == b[..k + 1]
  }

  /** How long catching up takes: one rejection for each index between the first rejected one and the last
      one that matches, so fewer than `prevIndex`. */
  lemma {:induction false} CatchUpTakes(leaders: seq<PeerState>, follower: PeerState, rsp: Message)
    requires rsp.AppendRsp? && 0 < rsp.prevIndex <= |leaders| && Leading(leaders)
    requires Behind(leaders[0], follower, rsp)
    ensures CatchUp(leaders, follower, rsp).rejections
         == rsp.prevIndex - 1 - LastMatch(leaders[0].log, follower.log, rsp.prevIndex)
    ensures CatchUp(leaders, follower, rsp).rejections < rsp.prevIndex
    ensures CatchUp(leaders, follower, rsp).leader == leaders[CatchUp(leaders, follower, rsp).rejections]
    decreases rsp.prevIndex
  {
    var req := Resend(leaders[0], follower, rsp);
    var e := RecvAppendReq(follower, leaders[0].id, req);
    RoundAdvances(leaders[0], follower, rsp);
    var answer := e.sent[0].message;
    if !answer.success {
      NextLeader(leaders);
      CatchUpTakes(leaders[1..], e.peer, answer);
      SameMatch(leaders[0].log, leaders[1].log, follower.log, answer.prevIndex);
    }
  }

  lemma {:induction false} SameMatch(a: seq<Entry>, a': seq<Entry>, b: seq<Entry>, n: nat)
    requires Rooted(a) && Rooted(a') && Rooted(b) && a <= a' && 0 < n <= |a|
    ensures LastMatch(a, b, n) == LastMatch(a', b, n)
  {
    if !TermAndIndexExist(b, a[n - 1].term, n - 1) {
      SameMatch(a, a', b, n - 1);
    }
  }

  /** Catching up ends with the log the leader had when it sent what was accepted. */
  lemma {:induction false} CatchUpEndsEqual(leaders: seq<PeerState>, follower: PeerState, rsp: Message)
    requires rsp.AppendRsp? && 0 < rsp.prevIndex <= |leaders| && Leading(leaders)
    requires Behind(leaders[0], follower, rsp)
    requires forall i {:trigger leaders[i]} | 0 <= i < |leaders| :: Matching(leaders[i].log, follower.log)
    ensures CatchUp(leaders, follower, rsp).follower.log == CatchUp(leaders, follower, rsp).leader.log
    decreases rsp.prevIndex
  {
    var req := Resend(leaders[0], follower, rsp);
    var e := RecvAppendReq(follower, leaders[0].id, req);
    RoundAdvances(leaders[0], follower, rsp);
    var answer := e.sent[0].message;
    if answer.success {
      var a, n := leaders[0].log, rsp.prevIndex;
      assert Matching(leaders[0].log, follower.log);
      assert a[n - 1].term == follower.log[n - 1].term;
      assert a == a[..n] + a[n..];
      assert UpTo(follower.log, n - 1) == follower.log[..n];
    } else {
      NextLeader(leaders);
      CatchUpEndsEqual(leaders[1..], e.peer, answer);
    }
  }

  // ---- In every reachable state

  lemma ReachableIsRooted(cfg: Config, states: seq<Cluster>, steps: seq<Step>, i: nat, p: Uid)
    requires InDefinedRun(cfg, states, steps, i, p)
    ensures Rooted(PeerAt(states, i, p).log)
  {
    PeerInRun(cfg, states, steps, i, p);
  }

  lemma ReachableLogsMatch(cfg: Config, states: seq<Cluster>, steps: seq<Step>, i: nat, p: Uid, j: nat, q: Uid)
    requires InDefinedRun(cfg, states, steps, i, p) && InDefinedRun(cfg, states, steps, j, q)
    ensures Matching(PeerAt(states, i, p).log, PeerAt(states, j, q).log)
  {
    var a, b := PeerAt(states, i, p).log, PeerAt(states, j, q).log;
    forall k | 0 <= k < |a| && k < |b| && a[k].term == b[k].term ensures a[..k + 1] == b[..k + 1] {
      LogMatchingAlways(cfg, states, steps, i, p, j, q, k);
    }
  }

  /** In every reachable state, a follower that rejected an append of its term's leader catches up with
      that leader's log in at most `prevIndex` rounds. */
  lemma EveryFollowerCatchesUp(cfg: Config, states: seq<Cluster>, steps: seq<Step>, i: nat, p: Uid, q: Uid, rsp: Message)
    requires InDefinedRun(cfg, states, steps, i, p) && InDefinedRun(cfg, states, steps, i, q)
    requires PeerAt(states, i, p).role == Leader && PeerAt(states, i, q).role == Follower
    requires PeerAt(states, i, p).term == PeerAt(states, i, q).term
    requires rsp.AppendRsp? && !rsp.success && rsp.term == PeerAt(states, i, p).term
    requires 1 <= rsp.prevIndex < |PeerAt(states, i, p).log|
    ensures var leaders := seq(rsp.prevIndex, _ => PeerAt(states, i, p));
      && Behind(PeerAt(states, i, p), PeerAt(states, i, q), rsp) && Leading(leaders)
      && CatchUp(leaders, PeerAt(states, i, q), rsp).rejections < rsp.prevIndex
      && CatchUp(leaders, PeerAt(states, i, q), rsp).follower.log == PeerAt(states, i, p).log
  {
    ReachableIsRooted(cfg, states, steps, i, p);
    ReachableIsRooted(cfg, states, steps, i, q);
    ReachableLogsMatch(cfg, states, steps, i, p, i, q);
    var leaders := seq(rsp.prevIndex, _ => PeerAt(states, i, p));
    var leader, follower := PeerAt(states, i, p), PeerAt(states, i, q);
    assert forall k | 0 <= k < |leaders| :: leaders[k] == leader;
    CatchUpTakes(leaders, follower, rsp);
    CatchUpEndsEqual(leaders, follower, rsp);
  }

  // ---- As a continuation of the run

  /** The leader's request about entry n is all that is in flight between leader and follower. */
  ghost predicate AtRound(cfg: Config, c: Cluster, leader: PeerState, follower: PeerState, n: nat) {
    var p, q := leader.id, follower.id;
    && Shaped(cfg, c) && IsLink(cfg, Link(p, q)) && IsLink(cfg, Link(q, p))
    && c.peers[p] == leader && c.peers[q] == follower
    && n < |leader.log|
    && c.queues[Link(p, q)] == [PrefixRequest(leader, n)] && c.queues[Link(q, p)] == []
  }

  predicate Leads(leader: PeerState, follower: PeerState) {
    && leader.role == Leader && follower.role == Follower && leader.term == follower.term
    && Rooted(leader.log) && Rooted(follower.log)
  }

  /** What the follower becomes once the leader's request about entry n, or an earlier one, is accepted. */
  function Caught(leader: PeerState, follower: PeerState, n: nat): PeerState
    requires Leads(leader, follower) && n < |leader.log|
  {
    RecvAppendReq(follower, leader.id, PrefixRequest(leader, LastMatch(leader.log, follower.log, n + 1))).peer
  }

  /** The follower's answer to the request it accepts. */
  function Acceptance(leader: PeerState, follower: PeerState, n: nat): Message
    requires Leads(leader, follower) && n < |leader.log|
  {
    var m := LastMatch(leader.log, follower.log, n + 1);
    AppendRsp(leader.term, leader.log[m].term, m, true, |Caught(leader, follower, n).log| - 1, leader.term)
  }

  lemma Answered(leader: PeerState, follower: PeerState, n: nat)
    requires Leads(leader, follower) && n < |leader.log|
    ensures var m := PrefixRequest(leader, n); var e := RecvAppendReq(follower, leader.id, m);
      && m.prevIndex == n
      && (TermAndIndexExist(follower.log, leader.log[n].term, n) ==>
            e.sent == [Packet(leader.id, AppendRsp(leader.term, m.prevTerm, n, true, |e.peer.log| - 1, leader.term))])
      && (!TermAndIndexExist(follower.log, leader.log[n].term, n) ==>
            n > 0
            && e == Effect(follower, [Packet(leader.id,
                                             AppendRsp(leader.term, m.prevTerm, n, false, NO_INDEX, leader.term))]))
  {}

  /** The leader answers a rejection with the next earlier request. */
  lemma Rejected(leader: PeerState, follower: PeerState, rsp: Message)
    requires Behind(leader, follower, rsp)
    ensures AppendRspInBounds(leader, follower.id, rsp)
    ensures RecvAppendRsp(leader, follower.id, rsp)
         == Effect(leader, [Packet(follower.id, PrefixRequest(leader, rsp.prevIndex - 1))])
  {}

  /** One rejection and the request that follows it. */
  lemma ReachEarlierRound(cfg: Config, rules: Rules, c: Cluster, leader: PeerState, follower: PeerState, n: nat)
    returns (c': Cluster)
    requires AtRound(cfg, c, leader, follower, n) && Leads(leader, follower)
    requires !TermAndIndexExist(follower.log, leader.log[n].term, n)
    ensures n > 0 && CanReach(cfg, rules, c, c') && c'.peers == c.peers
    ensures AtRound(cfg, c', leader, follower, n - 1)
  {
    var p, q := leader.id, follower.id;
    Answered(leader, follower, n);
    var rsp := AppendRsp(leader.term, leader.log[n].term, n, false, NO_INDEX, leader.term);
    var c1 := ReachDelivery(cfg, rules, c, Link(p, q), Effect(follower, [Packet(p, rsp)]));
    OnePacket(p, rsp, p);
    assert c1.peers == c.peers;
    Rejected(leader, follower, rsp);
    c' := ReachDelivery(cfg, rules, c1, Link(q, p), Effect(leader, [Packet(q, PrefixRequest(leader, n - 1))]));
    OnePacket(q, PrefixRequest(leader, n - 1), q);
    assert c'.peers == c.peers;
    ReachFurther(cfg, rules, c, c1, c');
  }

  lemma ReachAcceptance(cfg: Config, rules: Rules, c: Cluster, leader: PeerState, follower: PeerState, n: nat)
    returns (c': Cluster)
    requires AtRound(cfg, c, leader, follower, n) && Leads(leader, follower)
    requires TermAndIndexExist(follower.log, leader.log[n].term, n)
    ensures CanReach(cfg, rules, c, c') && Shaped(cfg, c')
    ensures c'.peers == c.peers[follower.id := Caught(leader, follower, n)]
    ensures c'.queues[Link(follower.id, leader.id)] == [Acceptance(leader, follower, n)]
  {
    var p, q := leader.id, follower.id;
    Answered(leader, follower, n);
    var e := RecvAppendReq(follower, p, PrefixRequest(leader, n));
    c' := ReachDelivery(cfg, rules, c, Link(p, q), e);
    OnePacket(p, e.sent[0].message, p);
  }

  lemma SameCaught(leader: PeerState, follower: PeerState, n: nat)
    requires Leads(leader, follower) && 0 < n < |leader.log|
    requires !TermAndIndexExist(follower.log, leader.log[n].term, n)
    ensures Caught(leader, follower, n) == Caught(leader, follower, n - 1)
    ensures Acceptance(leader, follower, n) == Acceptance(leader, follower, n - 1)
  {}

  /** From any round on, deliveries between the two alone bring the follower to acceptance. */
  lemma {:induction false} ReachCaught(cfg: Config, rules: Rules, c: Cluster, leader: PeerState, follower: PeerState, n: nat)
    returns (c': Cluster)
    requires AtRound(cfg, c, leader, follower, n) && Leads(leader, follower)
    ensures CanReach(cfg, rules, c, c') && Shaped(cfg, c')
    ensures c'.peers == c.peers[follower.id := Caught(leader, follower, n)]
    ensures c'.queues[Link(follower.id, leader.id)] == [Acceptance(leader, follower, n)]
    decreases n
  {
    if TermAndIndexExist(follower.log, leader.log[n].term, n) {
      c' := ReachAcceptance(cfg, rules, c, leader, follower, n);
    } else {
      var c1 := ReachEarlierRound(cfg, rules, c, leader, follower, n);
      c' := ReachCaught(cfg, rules, c1, leader, follower, n - 1);
      SameCaught(leader, follower, n);
      ReachFurther(cfg, rules, c, c1, c');
    }
  }

  /** The commit index c, raised to d as far as the last entry allows, if d is higher. */
  function RaisedTo(c: nat, d: nat, last: nat): nat {
    if d <= c then c else if d < last then d else last
  }

  /** Under log matching, what is accepted is the leader's log, and its commit index comes with it. */
  lemma CaughtHasLeadersLog(leader: PeerState, follower: PeerState, n: nat)
    requires Leads(leader, follower) && n < |leader.log| && Matching(leader.log, follower.log)
    ensures Caught(leader, follower, n).log == leader.log
    ensures Caught(leader, follower, n).commitIndex
         == RaisedTo(follower.commitIndex, leader.commitIndex, |leader.log| - 1)
  {
    var a, m := leader.log, LastMatch(leader.log, follower.log, n + 1);
    assert a[m].term == follower.log[m].term;
    assert UpTo(follower.log, m) == follower.log[..m + 1] == a[..m + 1];
    assert a == a[..m + 1] + a[m + 1..];
  }

  lemma ReachIdleTimer(cfg: Config, rules: Rules, c: Cluster, p: Uid, leader: PeerState, e: Effect) returns (c': Cluster)
    requires Shaped(cfg, c) && p in c.peers && c.peers[p] == leader && leader.role == Leader && |leader.log| > 0
    requires e == Effect(leader, Heartbeat(leader))
    ensures CanReach(cfg, rules, c, c') && c' == Become(c, p, e) && c'.peers == c.peers
  {
    assert PeerSpec.Timeout(leader, false, 0) == e;
    c' := Become(c, p, e);
    ReachStep(cfg, rules, c, Timer(p, false, 0), c');
  }

  /** A quiet cluster, whose leader's timer goes off: the heartbeat is the first round. */
  lemma ReachHeartbeat(cfg: Config, rules: Rules, c: Cluster, leader: PeerState, follower: PeerState) returns (c': Cluster)
    requires ValidConfig(cfg) && Shaped(cfg, c) && Quiet(c)
    requires IsLink(cfg, Link(leader.id, follower.id)) && IsLink(cfg, Link(follower.id, leader.id))
    requires c.peers[leader.id] == leader && c.peers[follower.id] == follower
    requires leader.members == cfg.members && leader.role == Leader && |leader.log| > 0
    ensures CanReach(cfg, rules, c, c') && c'.peers == c.peers
    ensures AtRound(cfg, c', leader, follower, |leader.log| - 1)
  {
    var p, q, m := leader.id, follower.id, PrefixRequest(leader, |leader.log| - 1);
    c' := ReachIdleTimer(cfg, rules, c, p, leader, Effect(leader, Broadcast(leader.members, p, m)));
    BroadcastReaches(leader.members, p, m, q);
  }

  ghost predicate Linked(cfg: Config, c: Cluster, leader: PeerState, follower: PeerState) {
    var p, q := leader.id, follower.id;
    && ValidConfig(cfg) && Shaped(cfg, c) && IsLink(cfg, Link(p, q)) && IsLink(cfg, Link(q, p))
    && c.peers[p] == leader && c.peers[q] == follower
    && leader.members == cfg.members && |leader.log| > 0
  }

  /** Losing what is in flight, the leader's timer and the deliveries between the two. */
  lemma ReachLeadersLog(cfg: Config, rules: Rules, c: Cluster, leader: PeerState, follower: PeerState) returns (c': Cluster)
    requires Linked(cfg, c, leader, follower) && Leads(leader, follower)
    ensures CanReach(cfg, rules, c, c') && Shaped(cfg, c')
    ensures c'.peers == c.peers[follower.id := Caught(leader, follower, |leader.log| - 1)]
    ensures c'.queues[Link(follower.id, leader.id)] == [Acceptance(leader, follower, |leader.log| - 1)]
  {
    var c1 := LoseAll(cfg, rules, c);
    var c2 := ReachHeartbeat(cfg, rules, c1, leader, follower);
    c' := ReachCaught(cfg, rules, c2, leader, follower, |leader.log| - 1);
    ReachFurther(cfg, rules, c, c1, c2);
    ReachFurther(cfg, rules, c, c2, c');
  }

  lemma PairInRun(cfg: Config, states: seq<Cluster>, steps: seq<Step>, i: nat, p: Uid, q: Uid)
    requires InDefinedRun(cfg, states, steps, i, p) && InDefinedRun(cfg, states, steps, i, q) && p != q
    requires PeerAt(states, i, p).role == Leader && PeerAt(states, i, q).role == Follower
    requires PeerAt(states, i, p).term == PeerAt(states, i, q).term
    ensures Linked(cfg, states[i], PeerAt(states, i, p), PeerAt(states, i, q))
    ensures Leads(PeerAt(states, i, p), PeerAt(states, i, q))
    ensures PeerAt(states, i, p).id == p && PeerAt(states, i, q).id == q
    ensures Matching(PeerAt(states, i, p).log, PeerAt(states, i, q).log)
  {
    ReachableLogsMatch(cfg, states, steps, i, p, i, q);
    ReachableIsRooted(cfg, states, steps, i, p);
    ReachableIsRooted(cfg, states, steps, i, q);
    PeerInRun(cfg, states, steps, i, p);
    PeerInRun(cfg, states, steps, i, q);
  }

  lemma OneChanged(now: map<Uid, PeerState>, later: map<Uid, PeerState>, q: Uid, s: PeerState)
    requires q in now && later == now[q := s]
    ensures later.Keys == now.Keys && later[q] == s && forall r | r in now && r != q :: later[r] == now[r]
  {}

  lemma ReachSameLog(cfg: Config, c: Cluster, leader: PeerState, follower: PeerState, follower': PeerState)
      returns (c': Cluster)
    requires Linked(cfg, c, leader, follower) && Leads(leader, follower)
        && follower' == Caught(leader, follower, |leader.log| - 1)
    ensures CanReach(cfg, ALL_RULES, c, c')
    ensures c'.peers.Keys == c.peers.Keys && c'.peers[follower.id] == follower'
    ensures forall r | r in c.peers && r != follower.id :: c'.peers[r] == c.peers[r]
  {
    c' := ReachLeadersLog(cfg, ALL_RULES, c, leader, follower);
    OneChanged(c.peers, c'.peers, follower.id, follower');
  }

  lemma CatchUpBetween(cfg: Config, c: Cluster, leader: PeerState, follower: PeerState) returns (c': Cluster)
    requires Linked(cfg, c, leader, follower) && Leads(leader, follower) && Matching(leader.log, follower.log)
    ensures CanReach(cfg, ALL_RULES, c, c')
    ensures c'.peers.Keys == c.peers.Keys && follower.id in c'.peers && c'.peers[follower.id].log == leader.log
    ensures c'.peers[follower.id].commitIndex == RaisedTo(follower.commitIndex, leader.commitIndex, |leader.log| - 1)
    ensures forall r | r in c.peers && r != follower.id :: c'.peers[r] == c.peers[r]
  {
    CaughtHasLeadersLog(leader, follower, |leader.log| - 1);
    c' := ReachSameLog(cfg, c, leader, follower, Caught(leader, follower, |leader.log| - 1));
  }

  /** q has the log of p, and has committed what p has; no other peer has changed. */
  predicate CaughtUp(now: map<Uid, PeerState>, later: map<Uid, PeerState>, p: Uid, q: Uid) {
    && p in now && q in now && later.Keys == now.Keys && |now[p].log| > 0
    && later[q].log == now[p].log
    && later[q].commitIndex == RaisedTo(now[q].commitIndex, now[p].commitIndex, |now[p].log| - 1)
    && forall r | r in now && r != q :: later[r] == now[r]
  }

  lemma CatchUpFrom(cfg: Config, states: seq<Cluster>, steps: seq<Step>, i: nat, p: Uid, q: Uid) returns (c': Cluster)
    requires InDefinedRun(cfg, states, steps, i, p) && InDefinedRun(cfg, states, steps, i, q) && p != q
    requires PeerAt(states, i, p).role == Leader && PeerAt(states, i, q).role == Follower
    requires PeerAt(states, i, p).term == PeerAt(states, i, q).term
    ensures CanReach(cfg, ALL_RULES, states[i], c') && CaughtUp(states[i].peers, c'.peers, p, q)
  {
    PairInRun(cfg, states, steps, i, p, q);
    c' := CatchUpBetween(cfg, states[i], PeerAt(states, i, p), PeerAt(states, i, q));
  }

  lemma SameWorkflowThen(cfg: Config, states: seq<Cluster>, steps: seq<Step>, path: Path, p: Uid, q: Uid)
    requires IsRun(cfg, states, steps) && p in states[|steps|].peers && q in states[|steps|].peers && p != q
    requires |path.states| == |path.steps| + 1 && path.states[0] == states[|steps|]
    requires IsRun(cfg, states + path.states[1..], steps + path.steps)
    requires CaughtUp(states[|steps|].peers, path.states[|path.steps|].peers, p, q)
    requires PeerAt(states, |steps|, q).commitIndex <= PeerAt(states, |steps|, p).commitIndex
    ensures path.states[|path.steps|].peers[q].workflow == PeerAt(states, |steps|, p).workflow
  {
    var all, more := states + path.states[1..], steps + path.steps;
    var n := |more|;
    assert all[n] == path.states[|path.steps|];
    WorkflowIsReplay(cfg, states, steps, |steps|, p);
    ReplicasAgree(cfg, all, more, n, q, n, p);
  }

  /** Whatever has happened so far under P1 and P2, a run in which some peer leads and another follows it can
      be continued, by steps that respect all of P1 to P6, until the follower has the leader's log and has
      committed what the leader has, without any change to the other peers. Under P1 to P4 it is then also in
      the leader's workflow state, if it was not ahead. */
  lemma EveryRunCanCatchUp(cfg: Config, states: seq<Cluster>, steps: seq<Step>, p: Uid, q: Uid) returns (path: Path)
    requires InDefinedRun(cfg, states, steps, |steps|, p) && InDefinedRun(cfg, states, steps, |steps|, q) && p != q
    requires PeerAt(states, |steps|, p).role == Leader && PeerAt(states, |steps|, q).role == Follower
    requires PeerAt(states, |steps|, p).term == PeerAt(states, |steps|, q).term
    ensures IsPath(cfg, ALL_RULES, path) && path.states[0] == states[|steps|]
    ensures IsDefinedRun(cfg, states + path.states[1..], steps + path.steps)
    ensures IsRun(cfg, states, steps) ==> IsRun(cfg, states + path.states[1..], steps + path.steps)
    ensures CaughtUp(states[|steps|].peers, path.states[|path.steps|].peers, p, q)
    ensures IsRun(cfg, states, steps) && PeerAt(states, |steps|, q).commitIndex <= PeerAt(states, |steps|, p).commitIndex ==>
      path.states[|path.steps|].peers[q].workflow == PeerAt(states, |steps|, p).workflow
  {
    var c' := CatchUpFrom(cfg, states, steps, |steps|, p, q);
    path :| Joins(cfg, ALL_RULES, path, states[|steps|], c');
    ContinueDefinedRun(cfg, ALL_RULES, states, steps, path);
    if IsRun(cfg, states, steps) {
      ContinueRun(cfg, ALL_RULES, states, steps, path);
      if PeerAt(states, |steps|, q).commitIndex <= PeerAt(states, |steps|, p).commitIndex {
        SameWorkflowThen(cfg, states, steps, path, p, q);
      }
    }
  }
}

/** Continuing a run: what a cluster can be brought to from a state by steps of one's choice. */
module Paths {
  import opened Uids
  import opened PeerSpec
  import opened Clusters
  import opened Locks

  /** What the steps of a path respect besides P1 and P2: P3, P4, P5, P6, and a ban on answers from some
      sources about some lock requests. */
  datatype Rules = Rules(p3: bool, p4: bool, p5: bool, p6: bool, silent: set<(Uid, Tag)>)

  const ALL_RULES := Rules(true, true, true, true, {})

  ghost predicate Respects(cfg: Config, rules: Rules, c: Cluster, s: Step)
    requires CanHappen(cfg, c, s)
  {
    && (rules.p3 ==> P3At(cfg, c, s))
    && (rules.p4 ==> P4At(cfg, c, s))
    && (rules.p5 && !s.Lose? && Actor(s) in c.peers ==> P5Honest(c.peers[Actor(s)], s))
    && (rules.p6 && !s.Lose? && Actor(s) in c.peers ==> P6Settled(c.peers[Actor(s)], s))
    && (s.CommandAnswer? ==> (s.rsp.source, s.rsp.tag) !in rules.silent)
  }

  ghost predicate Follows(cfg: Config, rules: Rules, c: Cluster, s: Step, c': Cluster) {
    && CanHappen(cfg, c, s) && P2At(cfg, c, s)
    && Respects(cfg, rules, c, s)
    && InBounds(cfg, c, s) && c' == Take(cfg, c, s)
  }

  datatype Path = Path(states: seq<Cluster>, steps: seq<Step>)

  ghost predicate FollowsAt(cfg: Config, rules: Rules, path: Path, i: nat)
    requires i < |path.steps| && i + 1 < |path.states|
  {
    Follows(cfg, rules, path.states[i], path.steps[i], path.states[i + 1])
  }

  ghost predicate IsPath(cfg: Config, rules: Rules, path: Path) {
    && |path.states| == |path.steps| + 1
    && forall i {:trigger FollowsAt(cfg, rules, path, i)} | 0 <= i < |path.steps| :: FollowsAt(cfg, rules, path, i)
  }

  ghost predicate Joins(cfg: Config, rules: Rules, path: Path, c: Cluster, c': Cluster) {
    IsPath(cfg, rules, path) && path.states[0] == c && path.states[|path.steps|] == c'
  }

  /** A run of the cluster whose steps respect the rules. */
  ghost predicate IsRunUnder(cfg: Config, rules: Rules, states: seq<Cluster>, steps: seq<Step>) {
    ValidConfig(cfg) && IsPath(cfg, rules, Path(states, steps)) && Init(cfg, states[0])
  }

  /** Some path leads from c to c'. */
  ghost predicate CanReach(cfg: Config, rules: Rules, c: Cluster, c': Cluster) {
    exists path :: Joins(cfg, rules, path, c, c')
  }

  function Join(a: Path, b: Path): Path
    requires |b.states| > 0
  {
    Path(a.states + b.states[1..], a.steps + b.steps)
  }

  lemma JoinIsPath(cfg: Config, rules: Rules, a: Path, b: Path)
    requires IsPath(cfg, rules, a) && IsPath(cfg, rules, b) && a.states[|a.steps|] == b.states[0]
    ensures Joins(cfg, rules, Join(a, b), a.states[0], b.states[|b.steps|])
  {
    var path, n := Join(a, b), |a.steps|;
    forall i | 0 <= i < |path.steps| ensures FollowsAt(cfg, rules, path, i) {
      if i < n {
        assert FollowsAt(cfg, rules, a, i);
      } else {
        assert FollowsAt(cfg, rules, b, i - n);
      }
    }
  }

  lemma ReachSelf(cfg: Config, rules: Rules, c: Cluster)
    ensures CanReach(cfg, rules, c, c)
  {
    assert Joins(cfg, rules, Path([c], []), c, c);
  }

  lemma ReachStep(cfg: Config, rules: Rules, c: Cluster, s: Step, c': Cluster)
    requires CanHappen(cfg, c, s) && P2At(cfg, c, s) && InBounds(cfg, c, s) && Respects(cfg, rules, c, s)
    requires c' == Take(cfg, c, s)
    ensures CanReach(cfg, rules, c, c')
  {
    var path := Path([c, c'], [s]);
    assert FollowsAt(cfg, rules, path, 0);
    assert Joins(cfg, rules, path, c, c');
  }

  lemma ReachFurther(cfg: Config, rules: Rules, c: Cluster, c1: Cluster, c2: Cluster)
    requires CanReach(cfg, rules, c, c1) && CanReach(cfg, rules, c1, c2)
    ensures CanReach(cfg, rules, c, c2)
  {
    var a :| Joins(cfg, rules, a, c, c1);
    var b :| Joins(cfg, rules, b, c1, c2);
    JoinIsPath(cfg, rules, a, b);
  }

  /** What can be reached from an initial state is where some run ends. */
  lemma ReachedByRun(cfg: Config, rules: Rules, c: Cluster, c': Cluster) returns (states: seq<Cluster>, steps: seq<Step>)
    requires ValidConfig(cfg) && Init(cfg, c) && CanReach(cfg, rules, c, c')
    ensures IsRunUnder(cfg, rules, states, steps) && states[|steps|] == c'
  {
    var path :| Joins(cfg, rules, path, c, c');
    states, steps := path.states, path.steps;
  }

  /** The same, by way of a cluster in between. */
  lemma ReachedThrough(cfg: Config, rules: Rules, c: Cluster, c1: Cluster, c2: Cluster)
    returns (states: seq<Cluster>, steps: seq<Step>, k: nat)
    requires ValidConfig(cfg) && Init(cfg, c) && CanReach(cfg, rules, c, c1) && CanReach(cfg, rules, c1, c2)
    ensures IsRunUnder(cfg, rules, states, steps) && k <= |steps| && states[k] == c1 && states[|steps|] == c2
  {
    var a :| Joins(cfg, rules, a, c, c1);
    var b :| Joins(cfg, rules, b, c1, c2);
    JoinIsPath(cfg, rules, a, b);
    states, steps, k := Join(a, b).states, Join(a, b).steps, |a.steps|;
  }

  /** Such a run is one under P1 and P2. */
  lemma RunUnderIsDefined(cfg: Config, rules: Rules, states: seq<Cluster>, steps: seq<Step>)
    requires IsRunUnder(cfg, rules, states, steps)
    ensures IsDefinedRun(cfg, states, steps)
  {
    forall i | 0 <= i < |steps| ensures DefinedAt(cfg, states, steps, i) {
      assert FollowsAt(cfg, rules, Path(states, steps), i);
    }
  }

  /** A path from the end of a run continues the run. */
  lemma ContinueRun(cfg: Config, rules: Rules, states: seq<Cluster>, steps: seq<Step>, path: Path)
    requires rules.p3 && rules.p4 && IsRun(cfg, states, steps)
    requires IsPath(cfg, rules, path) && path.states[0] == states[|steps|]
    ensures IsRun(cfg, states + path.states[1..], steps + path.steps)
  {
    var all, more, n := states + path.states[1..], steps + path.steps, |steps|;
    forall i | 0 <= i < |more| ensures StepAt(cfg, all, more, i) {
      ContinuedAt(states, path, all, i);
      if i < n {
        assert StepAt(cfg, states, steps, i);
      } else {
        assert FollowsAt(cfg, rules, path, i - n);
      }
    }
  }

  lemma ContinueDefinedRun(cfg: Config, rules: Rules, states: seq<Cluster>, steps: seq<Step>, path: Path)
    requires IsDefinedRun(cfg, states, steps) && IsPath(cfg, rules, path) && path.states[0] == states[|steps|]
    ensures IsDefinedRun(cfg, states + path.states[1..], steps + path.steps)
  {
    var all, more, n := states + path.states[1..], steps + path.steps, |steps|;
    forall i | 0 <= i < |more| ensures DefinedAt(cfg, all, more, i) {
      ContinuedAt(states, path, all, i);
      if i < n {
        assert DefinedAt(cfg, states, steps, i);
      } else {
        assert FollowsAt(cfg, rules, path, i - n);
      }
    }
  }

  lemma ContinuedAt(states: seq<Cluster>, path: Path, all: seq<Cluster>, i: nat)
    requires |states| > 0 && |path.states| > 0 && path.states[0] == states[|states| - 1]
    requires all == states + path.states[1..] && i + 1 < |all|
    ensures i + 1 < |states| ==> all[i] == states[i] && all[i + 1] == states[i + 1]
    ensures i + 1 >= |states| ==> all[i] == path.states[i + 1 - |states|] && all[i + 1] == path.states[i + 2 - |states|]
  {}

  // ---- The initial state

  function Start(cfg: Config): Cluster {
    Cluster(map id | id in Members(cfg) ::
              Configured(id, cfg.members, cfg.clusterEvent, cfg.peerToEvent, cfg.firstLeader, cfg.workflow),
            map p, q | p in Members(cfg) && q in Members(cfg) && p != q :: Link(p, q) := [])
  }

  lemma StartIsInit(cfg: Config, c: Cluster)
    requires ValidConfig(cfg) && c == Start(cfg)
    ensures Init(cfg, c)
  {
    forall l ensures l in c.queues <==> IsLink(cfg, l) {
      assert l == Link(l.source, l.target);
    }
  }

  // ---- Losing what is in flight

  function WithQueue(c: Cluster, l: Link, q: seq<Message>): Cluster {
    c.(queues := c.queues[l := q])
  }

  lemma {:induction false} LoseLink(cfg: Config, rules: Rules, c: Cluster, l: Link)
    requires Shaped(cfg, c) && l in c.queues
    ensures CanReach(cfg, rules, c, WithQueue(c, l, []))
    decreases |c.queues[l]|
  {
    if c.queues[l] == [] {
      assert WithQueue(c, l, []) == c;
      ReachSelf(cfg, rules, c);
    } else {
      var c1 := Pop(c, l);
      ReachStep(cfg, rules, c, Lose(l), c1);
      LoseLink(cfg, rules, c1, l);
      assert WithQueue(c1, l, []) == WithQueue(c, l, []);
      ReachFurther(cfg, rules, c, c1, WithQueue(c, l, []));
    }
  }

  function Emptied(c: Cluster, links: set<Link>): Cluster {
    c.(queues := map l | l in c.queues :: if l in links then [] else c.queues[l])
  }

  lemma {:induction false} LoseLinks(cfg: Config, rules: Rules, c: Cluster, links: set<Link>)
    requires Shaped(cfg, c) && links <= c.queues.Keys
    ensures CanReach(cfg, rules, c, Emptied(c, links))
    decreases |links|
  {
    if links == {} {
      assert Emptied(c, links) == c;
      ReachSelf(cfg, rules, c);
    } else {
      var l :| l in links;
      var c1 := WithQueue(c, l, []);
      LoseLink(cfg, rules, c, l);
      LoseLinks(cfg, rules, c1, links - {l});
      assert Emptied(c1, links - {l}) == Emptied(c, links);
      ReachFurther(cfg, rules, c, c1, Emptied(c, links));
    }
  }

  ghost predicate Quiet(c: Cluster) {
    forall l | l in c.queues :: c.queues[l] == []
  }

  /** Whatever is in flight can get lost. */
  lemma LoseAll(cfg: Config, rules: Rules, c: Cluster) returns (c': Cluster)
    requires Shaped(cfg, c)
    ensures CanReach(cfg, rules, c, c') && Shaped(cfg, c') && Quiet(c') && c'.peers == c.peers
  {
    c' := Emptied(c, c.queues.Keys);
    LoseLinks(cfg, rules, c, c.queues.Keys);
  }

  // ---- Single steps

  /** Delivery of the first message of a link. */
  lemma ReachDelivery(cfg: Config, rules: Rules, c: Cluster, l: Link, e: Effect) returns (c': Cluster)
    requires Shaped(cfg, c) && l in c.queues && c.queues[l] != [] && InBounds(cfg, c, Deliver(l))
    requires P2ResponseInTerm(c.peers[l.target], c.queues[l][0])
    requires rules.p4 ==> P4EnoughReports(c.peers[l.target], l.source, c.queues[l][0])
    requires rules.p3 ==> P3At(cfg, c, Deliver(l))
    requires e == Handle(c.peers[l.target], l.source, c.queues[l][0])
    ensures CanReach(cfg, rules, c, c') && Shaped(cfg, c')
    ensures c'.peers == c.peers[l.target := e.peer]
    ensures c'.queues[l] == c.queues[l][1..]
    ensures forall k | k in c.queues && k != l ::
      c'.queues[k] == if k.source == l.target then c.queues[k] + MessagesTo(e.sent, k.target) else c.queues[k]
  {
    c' := Become(Pop(c, l), l.target, e);
    ReachStep(cfg, rules, c, Deliver(l), c');
  }

  lemma ReachCommand(cfg: Config, rules: Rules, c: Cluster, a: Uid, req: CommandReq, p: PeerState, p': PeerState)
    returns (c': Cluster)
    requires Shaped(cfg, c) && a in c.peers && c.peers[a] == p
    requires CommandReqInBounds(p, req) && p' == RecvCommandReq(p, req).peer
    requires P5Honest(p, Command(a, req)) && P6Settled(p, Command(a, req))
    ensures CanReach(cfg, rules, c, c') && Shaped(cfg, c') && c'.peers == c.peers[a := p']
  {
    c' := Take(cfg, c, Command(a, req));
    ReachStep(cfg, rules, c, Command(a, req), c');
  }

  lemma ReachAnswer(cfg: Config, rules: Rules, c: Cluster, a: Uid, rsp: CommandRsp, p: PeerState, p': PeerState)
    returns (c': Cluster)
    requires Shaped(cfg, c) && a in c.peers && c.peers[a] == p && CommandRspInBounds(p, rsp)
    requires p' == RecvCommandRsp(p, rsp).peer && (rsp.source, rsp.tag) !in rules.silent
    requires P5Honest(p, CommandAnswer(a, rsp)) && P6Settled(p, CommandAnswer(a, rsp))
    ensures CanReach(cfg, rules, c, c') && Shaped(cfg, c') && c'.peers == c.peers[a := p']
  {
    c' := Take(cfg, c, CommandAnswer(a, rsp));
    ReachStep(cfg, rules, c, CommandAnswer(a, rsp), c');
  }

  lemma ReachTimer(cfg: Config, rules: Rules, c: Cluster, a: Uid, tagUid: Uid, p: PeerState, p': PeerState)
    returns (c': Cluster)
    requires Shaped(cfg, c) && a in c.peers && c.peers[a] == p && TimerInBounds(p, true)
    requires p' == PeerSpec.Timeout(p, true, tagUid).peer && (rules.p6 ==> P6Settled(p, Timer(a, true, tagUid)))
    ensures CanReach(cfg, rules, c, c') && Shaped(cfg, c') && c'.peers == c.peers[a := p']
  {
    c' := Take(cfg, c, Timer(a, true, tagUid));
    ReachStep(cfg, rules, c, Timer(a, true, tagUid), c');
  }

  // ---- Elections

  lemma CandidacyAsks(p: PeerState, m: Message, target: Uid)
    requires |p.log| > 0 && m == ElectionReq(p.term + 1, LastEntry(p).term, LastEntry(p).index)
    requires forall i, j | 0 <= i < j < |p.members| :: p.members[i] != p.members[j]
    requires target in p.members && target != p.id
    ensures MessagesTo(StartElection(p).sent, target) == [m]
  {
    BroadcastReaches(p.members, p.id, m, target);
  }

  /** A follower of a quiet cluster stands, and asks every other peer. */
  lemma ReachCandidacy(cfg: Config, rules: Rules, c: Cluster, a: Uid, s: PeerState, s': PeerState, m: Message)
    returns (c': Cluster)
    requires ValidConfig(cfg) && ClusterSize(cfg) > 1 && Shaped(cfg, c) && Quiet(c) && a in c.peers && c.peers[a] == s
    requires s.role == Follower && s.id == a && s.members == cfg.members && |s.log| > 0
    requires s' == StartElection(s).peer && m == ElectionReq(s.term + 1, LastEntry(s).term, LastEntry(s).index)
    ensures CanReach(cfg, rules, c, c') && Shaped(cfg, c')
    ensures c'.peers == c.peers[a := s']
    ensures forall l | l in c'.queues && l.source != a :: c'.queues[l] == []
    ensures forall l | l in c'.queues && l.source == a :: c'.queues[l] == [m]
  {
    c' := Become(c, a, StartElection(s));
    ReachStep(cfg, rules, c, PollWon(a), c');
    forall l | l in c'.queues && l.source == a ensures c'.queues[l] == [m] {
      assert IsLink(cfg, l);
      CandidacyAsks(s, m, l.target);
    }
  }

  /** A peer in an earlier term grants the request that heads its link. */
  lemma ReachGrant(cfg: Config, rules: Rules, c: Cluster, a: Uid, u: Uid, s: PeerState, s': PeerState, m: Message)
    returns (c': Cluster)
    requires Shaped(cfg, c) && a != u && u in c.peers && c.peers[u] == s
    requires Link(a, u) in c.queues && c.queues[Link(a, u)] == [m] && m.ElectionReq?
    requires Link(u, a) in c.queues && c.queues[Link(u, a)] == []
    requires m.term > s.term && |s.log| > 0 && LogNotAhead(s, m.lastTerm, m.lastIndex)
    requires s' == Overtake(s, m.term, a).(endorsement := a)
    ensures CanReach(cfg, rules, c, c') && Shaped(cfg, c')
    ensures c'.peers == c.peers[u := s']
    ensures c'.queues.Keys == c.queues.Keys && c'.queues[Link(u, a)] == [ElectionRsp(m.term, true, m.term)]
    ensures forall l | l in c.queues && l.source != u && l.target != u :: c'.queues[l] == c.queues[l]
    ensures forall v | v != u && Link(a, v) in c.queues :: c'.queues[Link(a, v)] == c.queues[Link(a, v)]
  {
    var rsp := ElectionRsp(m.term, true, m.term);
    var e := Effect(s', [Packet(a, rsp)]);
    assert e == RecvElectionReq(s, a, m);
    c' := ReachDelivery(cfg, rules, c, Link(a, u), e);
    OnePacket(a, rsp, a);
    assert c'.queues.Keys == c.queues.Keys;
  }

  /** A follower of a quiet cluster stands and gets its first vote from peer u. */
  lemma ReachFirstGrant(cfg: Config, rules: Rules, c: Cluster, s: PeerState, s': PeerState, u: Uid, q: PeerState,
                        q': PeerState, m: Message) returns (c': Cluster)
    requires ValidConfig(cfg) && ClusterSize(cfg) > 1 && Shaped(cfg, c) && Quiet(c)
    requires s.id in c.peers && c.peers[s.id] == s && u in c.peers && c.peers[u] == q && u != s.id
    requires Link(s.id, u) in c.queues && Link(u, s.id) in c.queues
    requires s.role == Follower && s.members == cfg.members && |s.log| > 0 && s' == StartElection(s).peer
    requires m == ElectionReq(s.term + 1, LastEntry(s).term, LastEntry(s).index)
    requires q.term <= s.term && |q.log| > 0 && LogNotAhead(q, m.lastTerm, m.lastIndex)
    requires q' == Overtake(q, m.term, s.id).(endorsement := s.id)
    ensures CanReach(cfg, rules, c, c') && Shaped(cfg, c') && c'.peers == c.peers[s.id := s'][u := q']
    ensures c'.queues.Keys == c.queues.Keys && c'.queues[Link(u, s.id)] == [ElectionRsp(m.term, true, m.term)]
    ensures forall v | v != u && v != s.id && Link(s.id, v) in c.queues && Link(v, s.id) in c.queues ::
      c'.queues[Link(s.id, v)] == [m] && c'.queues[Link(v, s.id)] == []
  {
    var c1 := ReachCandidacy(cfg, rules, c, s.id, s, s', m);
    assert c1.queues.Keys == c.queues.Keys;
    c' := ReachGrant(cfg, rules, c1, s.id, u, q, q', m);
    ReachFurther(cfg, rules, c, c1, c');
  }

  /** A candidate counts a grant of its term. */
  lemma ReachCount(cfg: Config, rules: Rules, c: Cluster, a: Uid, u: Uid, s: PeerState, s': PeerState) returns (c': Cluster)
    requires Shaped(cfg, c) && a in c.peers && c.peers[a] == s && Link(u, a) in c.queues
    requires s.role == Candidate && |s.log| > 0 && (rules.p3 ==> s.indices == map[])
    requires c.queues[Link(u, a)] == [ElectionRsp(s.term, true, s.term)]
    requires s' == RecvElectionRsp(s, u, ElectionRsp(s.term, true, s.term)).peer
    ensures CanReach(cfg, rules, c, c') && Shaped(cfg, c')
    ensures c'.peers == c.peers[a := s']
    ensures c'.queues.Keys == c.queues.Keys
    ensures forall l | l in c.queues && l != Link(u, a) && l.source != a :: c'.queues[l] == c.queues[l]
  {
    c' := ReachDelivery(cfg, rules, c, Link(u, a), RecvElectionRsp(s, u, ElectionRsp(s.term, true, s.term)));
    assert c'.queues.Keys == c.queues.Keys;
  }
}

/** A cluster of peers joined by message queues, one per ordered pair of peers, and the steps it can
    take. What the code leaves to its environment is named here:

    P1  each link is first-in first-out and delivers a message at most once (it may lose any);
    P2  a response is delivered only while its requester is still in the term of the request;
    P3  a peer that wins an election has no follower indices recorded from an earlier reign;
    P4  a leader that commits on the reports of k followers has k/2 + 1 >= (cluster size - 1) / 2;
    P7  terms and indexes do not wrap, peers follow the protocol and have non-empty ids.

    Polls reach the model as `Learn` (a poll carries its sender's term) and `PollWon`. */
module Clusters {
  import opened Uids
  import opened Workflows
  import opened PeerSpec

  datatype Config = Config(
    members: seq<Uid>, clusterEvent: Uid, peerToEvent: map<Uid, Uid>, firstLeader: Uid, workflow: Workflow)

  predicate ValidConfig(cfg: Config) {
    && cfg.members != []
    && EMPTY_UID !in cfg.members
    && forall i, j | 0 <= i < j < |cfg.members| :: cfg.members[i] != cfg.members[j]
  }

  function Members(cfg: Config): set<Uid> {
    Elements(cfg.members)
  }

  function ClusterSize(cfg: Config): nat {
    |cfg.members|
  }

  datatype Link = Link(source: Uid, target: Uid)

  datatype Cluster = Cluster(peers: map<Uid, PeerState>, queues: map<Link, seq<Message>>)

  predicate IsLink(cfg: Config, l: Link) {
    l.source in Members(cfg) && l.target in Members(cfg) && l.source != l.target
  }

  ghost predicate Shaped(cfg: Config, c: Cluster) {
    && c.peers.Keys == Members(cfg)
    && forall l :: l in c.queues <==> IsLink(cfg, l)
  }

  ghost predicate Init(cfg: Config, c: Cluster) {
    && Shaped(cfg, c)
    && (forall p | p in c.peers ::
          c.peers[p] == Configured(p, cfg.members, cfg.clusterEvent, cfg.peerToEvent, cfg.firstLeader, cfg.workflow))
    && forall l | l in c.queues :: c.queues[l] == []
  }

  datatype Step =
    | Timer(peer: Uid, idle: bool, tagUid: Uid)
    | PollWon(peer: Uid)
    | Learn(peer: Uid, source: Uid, term: nat)
    | Command(peer: Uid, req: CommandReq)
    | CommandAnswer(peer: Uid, rsp: CommandRsp)
    | Deliver(link: Link)
    | Lose(link: Link)

  /** The messages a packet list puts on the link to `target`, in sending order. */
  function MessagesTo(sent: seq<Packet>, target: Uid): seq<Message> {
    if sent == [] then []
    else
      var before := MessagesTo(sent[..|sent| - 1], target);
      var last := sent[|sent| - 1];
      if last.target == target then before + [last.message] else before
  }

  lemma {:induction false} BroadcastReaches(members: seq<Uid>, self: Uid, m: Message, target: Uid)
    requires forall i, j | 0 <= i < j < |members| :: members[i] != members[j]
    ensures MessagesTo(Broadcast(members, self, m), target) == if target in members && target != self then [m] else []
  {
    if members != [] {
      var front, last := members[..|members| - 1], members[|members| - 1];
      BroadcastReaches(front, self, m, target);
      assert members == front + [last];
      var before := Broadcast(front, self, m);
      assert (before + [Packet(last, m)])[..|before|] == before;
    }
  }

  lemma OnePacket(target: Uid, m: Message, to: Uid)
    ensures MessagesTo([Packet(target, m)], to) == if to == target then [m] else []
  {
    assert [Packet(target, m)][..0] == [];
  }

  function Send(queues: map<Link, seq<Message>>, source: Uid, sent: seq<Packet>): map<Link, seq<Message>> {
    map l | l in queues :: if l.source == source then queues[l] + MessagesTo(sent, l.target) else queues[l]
  }

  function Become(c: Cluster, p: Uid, e: Effect): Cluster {
    Cluster(c.peers[p := e.peer], Send(c.queues, p, e.sent))
  }

  function Pop(c: Cluster, l: Link): Cluster
    requires l in c.queues && c.queues[l] != []
  {
    c.(queues := c.queues[l := c.queues[l][1..]])
  }

  // ---- Which steps can be taken

  predicate IsResponse(m: Message) {
    m.ElectionRsp? || m.AppendRsp?
  }

  predicate P2ResponseInTerm(p: PeerState, m: Message) {
    IsResponse(m) ==> m.requestTerm == p.term
  }

  predicate P3FreshIndices(p: PeerState, source: Uid, m: Message)
    requires |p.log| > 0
  {
    m.ElectionRsp? && RecvElectionRsp(p, source, m).peer.role == Leader && p.role != Leader ==> p.indices == map[]
  }

  predicate P4EnoughReports(p: PeerState, source: Uid, m: Message) {
    m.AppendRsp? && AppendRspInBounds(p, source, m)
    && RecvAppendRsp(p, source, m).peer.commitIndex != p.commitIndex ==>
      |p.indices.Keys + {source}| / 2 + 1 >= (|p.members| - 1) / 2
  }

  /** What the state of the cluster allows, whatever the network is like. */
  ghost predicate CanHappen(cfg: Config, c: Cluster, s: Step) {
    && Shaped(cfg, c)
    && match s
       case Timer(p, _, _) => p in c.peers
       case PollWon(p) => p in c.peers && c.peers[p].role == Follower && ClusterSize(cfg) > 1
       case Learn(p, q, t) => p in c.peers && q in c.peers && p != q && c.peers[p].term < t <= c.peers[q].term
       case Command(p, _) => p in c.peers
       case CommandAnswer(p, _) => p in c.peers
       case Deliver(l) => l in c.queues && c.queues[l] != []
       case Lose(l) => l in c.queues && c.queues[l] != []
  }

  ghost predicate P2At(cfg: Config, c: Cluster, s: Step)
    requires CanHappen(cfg, c, s)
  {
    s.Deliver? ==> P2ResponseInTerm(c.peers[s.link.target], c.queues[s.link][0])
  }

  ghost predicate P4At(cfg: Config, c: Cluster, s: Step)
    requires CanHappen(cfg, c, s)
  {
    s.Deliver? ==> P4EnoughReports(c.peers[s.link.target], s.link.source, c.queues[s.link][0])
  }

  /** The step respects P2 and P4; queues respect P1. */
  ghost predicate Admitted(cfg: Config, c: Cluster, s: Step) {
    CanHappen(cfg, c, s) && P2At(cfg, c, s) && P4At(cfg, c, s)
  }

  ghost predicate P3At(cfg: Config, c: Cluster, s: Step)
    requires CanHappen(cfg, c, s)
  {
    s.Deliver? && |c.peers[s.link.target].log| > 0 ==>
      P3FreshIndices(c.peers[s.link.target], s.link.source, c.queues[s.link][0])
  }

  ghost predicate Possible(cfg: Config, c: Cluster, s: Step) {
    Admitted(cfg, c, s) && P3At(cfg, c, s)
  }

  // ---- What a step does

  /** Every vector access the handler of this step makes is inside its vector. */
  ghost predicate InBounds(cfg: Config, c: Cluster, s: Step)
    requires CanHappen(cfg, c, s)
  {
    match s
    case Timer(p, idle, _) => TimerInBounds(c.peers[p], idle)
    case PollWon(p) => |c.peers[p].log| > 0
    case Learn(_, _, _) => true
    case Command(p, req) => CommandReqInBounds(c.peers[p], req)
    case CommandAnswer(p, rsp) => CommandRspInBounds(c.peers[p], rsp)
    case Deliver(l) =>
      && |c.peers[l.target].log| > 0
      && (c.queues[l][0].AppendRsp? ==> AppendRspInBounds(c.peers[l.target], l.source, c.queues[l][0]))
    case Lose(_) => true
  }

  function Handle(p: PeerState, source: Uid, m: Message): Effect
    requires |p.log| > 0
    requires m.AppendRsp? ==> AppendRspInBounds(p, source, m)
  {
    match m
    case ElectionReq(_, _, _) => RecvElectionReq(p, source, m)
    case ElectionRsp(_, _, _) => RecvElectionRsp(p, source, m)
    case AppendReq(_, _, _, _, _) => RecvAppendReq(p, source, m)
    case AppendRsp(_, _, _, _, _, _) => RecvAppendRsp(p, source, m)
  }

  ghost function Take(cfg: Config, c: Cluster, s: Step): Cluster
    requires CanHappen(cfg, c, s) && InBounds(cfg, c, s)
  {
    match s
    case Timer(p, idle, tagUid) => Become(c, p, PeerSpec.Timeout(c.peers[p], idle, tagUid))
    case PollWon(p) => Become(c, p, StartElection(c.peers[p]))
    case Learn(p, q, t) => Become(c, p, Effect(Overtake(c.peers[p], t, q), []))
    case Command(p, req) => Become(c, p, RecvCommandReq(c.peers[p], req))
    case CommandAnswer(p, rsp) => Become(c, p, RecvCommandRsp(c.peers[p], rsp))
    case Deliver(l) => Become(Pop(c, l), l.target, Handle(c.peers[l.target], l.source, c.queues[l][0]))
    case Lose(l) => Pop(c, l)
  }

  /** The peer a step happens to; a loss happens to the link's target. */
  function Actor(s: Step): Uid {
    match s
    case Timer(p, _, _) => p
    case PollWon(p) => p
    case Learn(p, _, _) => p
    case Command(p, _) => p
    case CommandAnswer(p, _) => p
    case Deliver(l) => l.target
    case Lose(l) => l.target
  }

  /** What the actor makes of the step. */
  ghost function EffectOf(cfg: Config, c: Cluster, s: Step): Effect
    requires CanHappen(cfg, c, s) && InBounds(cfg, c, s) && !s.Lose?
  {
    match s
    case Timer(p, idle, tagUid) => PeerSpec.Timeout(c.peers[p], idle, tagUid)
    case PollWon(p) => StartElection(c.peers[p])
    case Learn(p, q, t) => Effect(Overtake(c.peers[p], t, q), [])
    case Command(p, req) => RecvCommandReq(c.peers[p], req)
    case CommandAnswer(p, rsp) => RecvCommandRsp(c.peers[p], rsp)
    case Deliver(l) => Handle(c.peers[l.target], l.source, c.queues[l][0])
  }

  lemma ActorIsPeer(cfg: Config, c: Cluster, s: Step)
    requires CanHappen(cfg, c, s) && !s.Lose?
    ensures Actor(s) in c.peers
  {}

  /** A step changes its actor and no other peer. */
  lemma PeersAfterStep(cfg: Config, c: Cluster, s: Step)
    requires CanHappen(cfg, c, s) && InBounds(cfg, c, s)
    ensures Take(cfg, c, s).peers == if s.Lose? then c.peers else c.peers[Actor(s) := EffectOf(cfg, c, s).peer]
  {}

  /** An access outside a vector is undefined behaviour: after one, any state may follow. */
  ghost predicate Next(cfg: Config, c: Cluster, s: Step, c': Cluster) {
    Possible(cfg, c, s) && (InBounds(cfg, c, s) ==> c' == Take(cfg, c, s))
  }

  ghost predicate StepAt(cfg: Config, states: seq<Cluster>, steps: seq<Step>, i: nat)
    requires i < |steps| && i + 1 < |states|
  {
    Next(cfg, states[i], steps[i], states[i + 1])
  }

  /** A run of the cluster: `states[i + 1]` follows from `states[i]` by `steps[i]`. */
  ghost predicate IsRun(cfg: Config, states: seq<Cluster>, steps: seq<Step>) {
    && ValidConfig(cfg)
    && |states| == |steps| + 1
    && Init(cfg, states[0])
    && forall i {:trigger StepAt(cfg, states, steps, i)} | 0 <= i < |steps| :: StepAt(cfg, states, steps, i)
  }

  // ---- Runs under P1 and P2 alone

  /** A step under P1 and P2 that reads inside its vectors. */
  ghost predicate DefinedNext(cfg: Config, c: Cluster, s: Step, c': Cluster) {
    CanHappen(cfg, c, s) && P2At(cfg, c, s) && InBounds(cfg, c, s) && c' == Take(cfg, c, s)
  }

  ghost predicate DefinedAt(cfg: Config, states: seq<Cluster>, steps: seq<Step>, i: nat)
    requires i < |steps| && i + 1 < |states|
  {
    DefinedNext(cfg, states[i], steps[i], states[i + 1])
  }

  /** A run of which nothing but P1 and P2 is assumed, up to where it might read outside a vector. */
  ghost predicate IsDefinedRun(cfg: Config, states: seq<Cluster>, steps: seq<Step>) {
    && ValidConfig(cfg)
    && |states| == |steps| + 1
    && Init(cfg, states[0])
    && forall i {:trigger DefinedAt(cfg, states, steps, i)} | 0 <= i < |steps| :: DefinedAt(cfg, states, steps, i)
  }
}

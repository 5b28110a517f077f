/** Every step of the cluster keeps the invariant. Each lemma extends the history by what its step
    decides. */
module ClusterSteps {
  import opened Uids
  import opened PeerSpec
  import opened Clusters
  import opened ClusterInvariant
  import opened ClusterFrame

  // ---- Sending

  lemma {:induction false} MessagesToConcat(a: seq<Packet>, b: seq<Packet>, target: Uid)
    ensures MessagesTo(a + b, target) == MessagesTo(a, target) + MessagesTo(b, target)
  {
    if b == [] {
      assert a + b == a;
    } else {
      MessagesToConcat(a, b[..|b| - 1], target);
      assert (a + b)[..|a + b| - 1] == a + b[..|b| - 1];
    }
  }

  lemma BecomeTwice(c: Cluster, p: Uid, first: Effect, second: Effect)
    ensures Become(Become(c, p, first), p, second) == Become(c, p, Effect(second.peer, first.sent + second.sent))
  {
    SendTwice(c.queues, p, first.sent, second.sent);
  }

  lemma BecomeAfterQuiet(c: Cluster, p: Uid, s: PeerState, e: Effect)
    ensures Become(Become(c, p, Effect(s, [])), p, e) == Become(c, p, e)
  {
    BecomeTwice(c, p, Effect(s, []), e);
    assert [] + e.sent == e.sent;
  }

  lemma SendTwice(queues: map<Link, seq<Message>>, p: Uid, first: seq<Packet>, second: seq<Packet>)
    ensures Send(Send(queues, p, first), p, second) == Send(queues, p, first + second)
  {
    var once, twice := Send(queues, p, first + second), Send(Send(queues, p, first), p, second);
    forall l | l in queues ensures twice[l] == once[l] {
      MessagesToConcat(first, second, l.target);
    }
    assert twice.Keys == once.Keys == queues.Keys;
  }

  /** A message that may join the queue of link l. */
  ghost predicate CanSend(cfg: Config, h: History, q: seq<Message>, l: Link, m: Message) {
    && MessageInv(cfg, h, l, m) && NewsInv(h, l, m)
    && forall i | 0 <= i < |q| :: OrderInv(q[i], m)
  }

  lemma ItemsGrow(cfg: Config, h: History, h': History, p: Uid, l: Link, q: seq<Message>)
    requires GrowsBy(h, h', p) && ItemsInv(cfg, h, l, q)
    requires forall i | 0 <= i < |q| :: NewsInv(h', l, q[i])
    ensures ItemsInv(cfg, h', l, q)
  {
    forall i | 0 <= i < |q| ensures MessageInv(cfg, h', l, q[i]) {
      FrameMessage(cfg, h, h', p, l, q[i]);
    }
  }

  lemma OrderGrows(q: seq<Message>, m: Message)
    requires InSendingOrder(q) && forall i | 0 <= i < |q| :: OrderInv(q[i], m)
    ensures InSendingOrder(q + [m])
  {
    var r := q + [m];
    forall i, j | 0 <= i < j < |r| ensures OrderInv(r[i], r[j]) {
      if j < |q| {
        assert OrderInv(q[i], q[j]);
      }
    }
  }

  lemma QueueGrows(cfg: Config, h: History, h': History, p: Uid, l: Link, q: seq<Message>, sent: seq<Message>)
    requires GrowsBy(h, h', p) && QueueInv(cfg, h, l, q)
    requires forall i | 0 <= i < |q| :: NewsInv(h', l, q[i])
    requires sent == [] || (|sent| == 1 && CanSend(cfg, h', q, l, sent[0]))
    ensures QueueInv(cfg, h', l, q + sent)
  {
    ItemsGrow(cfg, h, h', p, l, q);
    if sent == [] {
      assert q + sent == q;
    } else {
      OrderGrows(q, sent[0]);
      assert sent == [sent[0]];
    }
  }

  /** Nothing in flight is stale for the history h. */
  ghost predicate AllNews(c: Cluster, h: History) {
    forall l, i | l in c.queues && 0 <= i < |c.queues[l]| :: NewsInv(h, l, c.queues[l][i])
  }

  /** What the packets put on link l may join its queue. */
  ghost predicate MaySend(cfg: Config, c: Cluster, h: History, l: Link, sent: seq<Message>)
    requires l in c.queues
  {
    sent == [] || (|sent| == 1 && CanSend(cfg, h, c.queues[l], l, sent[0]))
  }

  /** What peer p sends may join the queues it goes to. */
  ghost predicate SendsAllowed(cfg: Config, c: Cluster, h: History, p: Uid, sent: seq<Packet>) {
    forall l {:trigger MaySend(cfg, c, h, l, MessagesTo(sent, l.target))} | l in c.queues && l.source == p ::
      MaySend(cfg, c, h, l, MessagesTo(sent, l.target))
  }

  lemma QueueAfter(cfg: Config, c: Cluster, h: History, h': History, p: Uid, e: Effect, l: Link)
    requires Inv(cfg, c, h) && GrowsBy(h, h', p) && AllNews(c, h') && l in c.queues
    requires SendsAllowed(cfg, c, h', p, e.sent)
    ensures QueueInv(cfg, h', l, Become(c, p, e).queues[l])
  {
    assert l.source == p ==> MaySend(cfg, c, h', l, MessagesTo(e.sent, l.target));
    assert QueueInv(cfg, h, l, c.queues[l]);
    var sent := if l.source == p then MessagesTo(e.sent, l.target) else [];
    QueueGrows(cfg, h, h', p, l, c.queues[l], sent);
    assert c.queues[l] + [] == c.queues[l];
  }

  lemma PeerAfter(cfg: Config, c: Cluster, h: History, h': History, p: Uid, e: Effect, q: Uid)
    requires Inv(cfg, c, h) && GrowsBy(h, h', p) && q in c.peers
    requires PeerInv(cfg, h', p, e.peer)
    ensures PeerInv(cfg, h', q, Become(c, p, e).peers[q])
  {
    if q != p {
      assert PeerInv(cfg, h, q, c.peers[q]);
      FramePeer(cfg, h, h', p, q, c.peers[q]);
    }
  }

  lemma PeersAfter(cfg: Config, c: Cluster, h: History, h': History, p: Uid, e: Effect)
    requires Inv(cfg, c, h) && GrowsBy(h, h', p) && PeerInv(cfg, h', p, e.peer) && p in c.peers
    ensures forall q {:trigger PeerInv(cfg, h', q, Become(c, p, e).peers[q])} | q in Become(c, p, e).peers ::
      PeerInv(cfg, h', q, Become(c, p, e).peers[q])
  {
    forall q | q in Become(c, p, e).peers ensures PeerInv(cfg, h', q, Become(c, p, e).peers[q]) {
      PeerAfter(cfg, c, h, h', p, e, q);
    }
  }

  lemma QueuesAfter(cfg: Config, c: Cluster, h: History, h': History, p: Uid, e: Effect)
    requires Inv(cfg, c, h) && GrowsBy(h, h', p) && AllNews(c, h') && SendsAllowed(cfg, c, h', p, e.sent)
    ensures forall l {:trigger QueueInv(cfg, h', l, Become(c, p, e).queues[l])} | l in Become(c, p, e).queues ::
      QueueInv(cfg, h', l, Become(c, p, e).queues[l])
  {
    forall l | l in Become(c, p, e).queues ensures QueueInv(cfg, h', l, Become(c, p, e).queues[l]) {
      QueueAfter(cfg, c, h, h', p, e, l);
    }
  }

  /** A step of peer p that extends history to h' and sends at most one message a link. */
  lemma StepKeepsInv(cfg: Config, c: Cluster, h: History, h': History, p: Uid, e: Effect)
    requires Inv(cfg, c, h) && p in c.peers
    requires GrowsBy(h, h', p) && HistoryInv(cfg, h') && PeerInv(cfg, h', p, e.peer)
    requires AllNews(c, h') && SendsAllowed(cfg, c, h', p, e.sent)
    ensures Inv(cfg, Become(c, p, e), h')
  {
    PeersAfter(cfg, c, h, h', p, e);
    QueuesAfter(cfg, c, h, h', p, e);
    assert Become(c, p, e).peers.Keys == c.peers.Keys;
  }

  lemma InvIsNews(cfg: Config, c: Cluster, h: History)
    requires Inv(cfg, c, h)
    ensures AllNews(c, h)
  {
    forall l, i | l in c.queues && 0 <= i < |c.queues[l]| ensures NewsInv(h, l, c.queues[l][i]) {
      assert QueueInv(cfg, h, l, c.queues[l]);
    }
  }

  lemma SameHistory(h: History, p: Uid)
    ensures GrowsBy(h, h, p)
  {}

  lemma QuietKeepsInv(cfg: Config, c: Cluster, h: History, p: Uid, s: PeerState)
    requires Inv(cfg, c, h) && p in c.peers && PeerInv(cfg, h, p, s)
    ensures Inv(cfg, Become(c, p, Effect(s, [])), h)
  {
    InvIsNews(cfg, c, h);
    SameHistory(h, p);
    assert SendsAllowed(cfg, c, h, p, []);
    StepKeepsInv(cfg, c, h, h, p, Effect(s, []));
  }

  /** A step that answers one peer. */
  lemma OneReplyKeepsInv(cfg: Config, c: Cluster, h: History, h': History, p: Uid, s: PeerState, target: Uid, m: Message)
    requires Inv(cfg, c, h) && p in c.peers
    requires GrowsBy(h, h', p) && HistoryInv(cfg, h') && PeerInv(cfg, h', p, s)
    requires AllNews(c, h')
    requires Link(p, target) in c.queues ==> CanSend(cfg, h', c.queues[Link(p, target)], Link(p, target), m)
    ensures Inv(cfg, Become(c, p, Effect(s, [Packet(target, m)])), h')
  {
    var sent := [Packet(target, m)];
    forall l | l in c.queues && l.source == p ensures MaySend(cfg, c, h', l, MessagesTo(sent, l.target)) {
      OnePacket(target, m, l.target);
      assert l == Link(p, l.target);
    }
    assert SendsAllowed(cfg, c, h', p, sent);
    StepKeepsInv(cfg, c, h, h', p, Effect(s, sent));
  }

  /** A step that decides nothing new and answers one peer. */
  lemma ReplyKeepsInv(cfg: Config, c: Cluster, h: History, p: Uid, s: PeerState, target: Uid, m: Message)
    requires Inv(cfg, c, h) && p in c.peers && PeerInv(cfg, h, p, s)
    requires Link(p, target) in c.queues ==> CanSend(cfg, h, c.queues[Link(p, target)], Link(p, target), m)
    ensures Inv(cfg, Become(c, p, Effect(s, [Packet(target, m)])), h)
  {
    InvIsNews(cfg, c, h);
    SameHistory(h, p);
    OneReplyKeepsInv(cfg, c, h, h, p, s, target, m);
  }

  ghost predicate BroadcastAllowed(cfg: Config, c: Cluster, h: History, p: Uid, m: Message) {
    forall l {:trigger CanSend(cfg, h, c.queues[l], l, m)} | l in c.queues && l.source == p ::
      CanSend(cfg, h, c.queues[l], l, m)
  }

  lemma BroadcastSends(cfg: Config, c: Cluster, h: History, p: Uid, m: Message)
    requires ValidConfig(cfg) && Shaped(cfg, c) && BroadcastAllowed(cfg, c, h, p, m)
    ensures SendsAllowed(cfg, c, h, p, Broadcast(cfg.members, p, m))
  {
    var sent := Broadcast(cfg.members, p, m);
    forall l | l in c.queues && l.source == p ensures MaySend(cfg, c, h, l, MessagesTo(sent, l.target)) {
      BroadcastReaches(cfg.members, p, m, l.target);
      assert CanSend(cfg, h, c.queues[l], l, m);
    }
  }

  lemma BroadcastKeepsInv(cfg: Config, c: Cluster, h: History, h': History, p: Uid, s: PeerState, m: Message)
    requires Inv(cfg, c, h) && p in c.peers
    requires GrowsBy(h, h', p) && HistoryInv(cfg, h') && PeerInv(cfg, h', p, s)
    requires AllNews(c, h') && BroadcastAllowed(cfg, c, h', p, m)
    ensures Inv(cfg, Become(c, p, Effect(s, Broadcast(cfg.members, p, m))), h')
  {
    BroadcastSends(cfg, c, h', p, m);
    StepKeepsInv(cfg, c, h, h', p, Effect(s, Broadcast(cfg.members, p, m)));
  }

  lemma PeerOf(cfg: Config, c: Cluster, h: History, p: Uid)
    requires Inv(cfg, c, h) && p in c.peers
    ensures PeerInv(cfg, h, p, c.peers[p])
  {}

  // ---- Terms and elections

  lemma LaterTermKeeps(h: History, log: seq<Entry>, n: nat, t: nat, top: nat, later: nat)
    requires Kept(h, log, n, t, top) && top <= later
    ensures Kept(h, log, n, t, later)
  {
    if !Has(log, n, t) {
      var u: nat :| u < top && Lost(h, n, t, u);
      assert u < later;
    }
  }

  lemma LaterTermKept(h: History, p: Uid, term: nat, log: seq<Entry>, later: nat)
    requires KeptInv(h, p, term, log) && term <= later
    ensures KeptInv(h, p, later, log)
  {
    forall u: nat, n: nat | AcceptedEntry(h, p, u, n) ensures Kept(h, log, n, u, later + 1) {
      LaterTermKeeps(h, log, n, u, term + 1, later + 1);
    }
  }

  lemma LaterTermLog(h: History, log: seq<Entry>, term: nat, later: nat)
    requires LogInv(h, log, term) && term <= later
    ensures LogInv(h, log, later)
  {}

  lemma OvertakeKeepsPeer(cfg: Config, h: History, p: Uid, s: PeerState, t: nat, q: Uid)
    requires PeerInv(cfg, h, p, s)
    ensures PeerInv(cfg, h, p, Overtake(s, t, q))
  {
    if t > s.term {
      LaterTermKept(h, p, s.term, s.log, t);
      LaterTermLog(h, s.log, s.term, t);
      if h.commits {
        CommitPartStays(cfg, h, h, p, s, Overtake(s, t, q));
      }
    }
  }

  lemma OvertakeKeepsInv(cfg: Config, c: Cluster, h: History, p: Uid, t: nat, q: Uid)
    requires Inv(cfg, c, h) && p in c.peers
    ensures Inv(cfg, Become(c, p, Effect(Overtake(c.peers[p], t, q), [])), h)
  {
    OvertakeKeepsPeer(cfg, h, p, c.peers[p], t, q);
    QuietKeepsInv(cfg, c, h, p, Overtake(c.peers[p], t, q));
  }

  /** The history after voter v, in term t, votes for candidate q with this log. */
  ghost function WithBallot(h: History, v: Uid, t: nat, q: Uid, log: seq<Entry>): History {
    h.(ballots := h.ballots[At(v, t) := Ballot(q, log)])
  }

  lemma BallotGrows(cfg: Config, h: History, v: Uid, t: nat, q: Uid, log: seq<Entry>)
    requires At(v, t) !in h.ballots
    ensures GrowsBy(h, WithBallot(h, v, t, q, log), v)
  {}

  lemma BallotKeepsHistory(cfg: Config, h: History, h': History, v: Uid, t: nat)
    requires HistoryInv(cfg, h) && At(v, t) !in h.ballots && At(v, t) in h'.ballots
    requires h' == WithBallot(h, v, t, h'.ballots[At(v, t)].candidate, h'.ballots[At(v, t)].log)
    requires BallotInv(cfg, h', v, t) && BallotKeeps(h', v, t)
    ensures GrowsBy(h, h', v) && HistoryInv(cfg, h')
  {
    BallotGrows(cfg, h, v, t, h'.ballots[At(v, t)].candidate, h'.ballots[At(v, t)].log);
    FrameHistory(cfg, h, h', v);
  }

  ghost function WithCounted(h: History, p: Uid, t: nat, voters: set<Uid>): History {
    h.(counted := h.counted[At(p, t) := voters])
  }

  lemma CountedKeepsHistory(cfg: Config, h: History, p: Uid, t: nat, voters: set<Uid>)
    requires HistoryInv(cfg, h) && p in Members(cfg) && p in voters
    requires At(p, t) in h.counted ==> h.counted[At(p, t)] <= voters
    requires forall v | v in voters :: v in Members(cfg) && Voted(h, v, t, p)
    ensures GrowsBy(h, WithCounted(h, p, t, voters), p) && HistoryInv(cfg, WithCounted(h, p, t, voters))
  {
    FrameHistory(cfg, h, WithCounted(h, p, t, voters), p);
  }

  lemma GrowsTwice(h: History, h1: History, h2: History, p: Uid)
    requires GrowsBy(h, h1, p) && GrowsBy(h1, h2, p) && h1.reigns == h.reigns && h1.accepted == h.accepted
    ensures GrowsBy(h, h2, p)
  {}

  ghost function Standing(h: History, p: Uid, t: nat, log: seq<Entry>): History {
    WithCounted(WithBallot(h, p, t, p, log), p, t, {p})
  }

  /** A vote with the log a peer holds keeps what the peer accepted. */
  lemma NewBallotKeeps(h: History, h': History, p: Uid, term: nat, t: nat, q: Uid, log: seq<Entry>)
    requires At(p, t) !in h.ballots && h' == WithBallot(h, p, t, q, log)
    requires KeptInv(h, p, term, log) && term < t
    ensures BallotKeeps(h', p, t)
  {
    forall u: nat, n: nat | u < t && AcceptedEntry(h', p, u, n) ensures Kept(h', log, n, u, t) {
      assert AcceptedEntry(h, p, u, n);
      LaterTermKeeps(h, log, n, u, term + 1, t);
      KeptGrows(h, h', log, n, u, t);
    }
  }

  lemma StandingBallot(cfg: Config, h: History, h': History, p: Uid, term: nat, log: seq<Entry>)
    requires HistoryInv(cfg, h) && p in Members(cfg)
    requires LogInv(h, log, term) && KeptInv(h, p, term, log)
    requires At(p, term + 1) !in h.ballots && h' == WithBallot(h, p, term + 1, p, log)
    ensures GrowsBy(h, h', p) && HistoryInv(cfg, h')
  {
    BallotGrows(cfg, h, p, term + 1, p, log);
    RecordedGrows(h, h', log);
    NewBallotKeeps(h, h', p, term, term + 1, p, log);
    BallotKeepsHistory(cfg, h, h', p, term + 1);
  }

  lemma StandingHistory(cfg: Config, h: History, h': History, p: Uid, term: nat, log: seq<Entry>)
    requires HistoryInv(cfg, h) && p in Members(cfg)
    requires LogInv(h, log, term) && KeptInv(h, p, term, log)
    requires At(p, term + 1) !in h.counted && At(p, term + 1) !in h.ballots
    requires h' == Standing(h, p, term + 1, log)
    ensures GrowsBy(h, h', p) && HistoryInv(cfg, h')
  {
    var t := term + 1;
    var h1 := WithBallot(h, p, t, p, log);
    StandingBallot(cfg, h, h1, p, term, log);
    CountedKeepsHistory(cfg, h1, p, t, {p});
    GrowsTwice(h, h1, h', p);
  }

  lemma StandingTerms(h: History, p: Uid, s: PeerState, s': PeerState, log: seq<Entry>)
    requires TermInv(h, s) && s.id == p && s.role != Leader
    requires s'.id == p && s'.term == s.term + 1
    requires GrowsBy(h, Standing(h, p, s.term + 1, log), p)
    ensures TermInv(Standing(h, p, s.term + 1, log), s')
  {}

  /** What a log, unchanged, still is after history grew and the term rose. */
  lemma LogPartLater(cfg: Config, h: History, h': History, p: Uid, q: Uid, term: nat, log: seq<Entry>, later: nat)
    requires HistoryInv(cfg, h) && GrowsBy(h, h', p) && SameAccepted(h, h', q) && term <= later
    requires LogInv(h, log, term) && KeptInv(h, q, term, log)
    ensures LogInv(h', log, later) && KeptInv(h', q, later, log)
  {
    LogGrows(h, h', log, term);
    LaterTermLog(h', log, term, later);
    KeptInvGrows(cfg, h, h', p, q, term, log);
    LaterTermKept(h', q, term, log, later);
  }

  lemma StandingPeer(cfg: Config, h: History, h': History, p: Uid, s: PeerState, s': PeerState)
    requires TermInv(h, s) && s.role != Leader && s.id == p && SameRelations(cfg, s)
    requires s.members == cfg.members && p in Members(cfg)
    requires h' == Standing(h, p, s.term + 1, s.log) && GrowsBy(h, h', p)
    requires LogInv(h', s.log, s.term + 1) && KeptInv(h', p, s.term + 1, s.log)
    requires s' == UpdateTerm(s, s.term + 1, p).(role := Candidate)
    ensures LogPart(cfg, h', p, s')
  {
    StandingTerms(h, p, s, s', s.log);
    assert RoleInv(h', s');
  }

  lemma VotedForItself(cfg: Config, h: History, v: Uid, t: nat, c: Uid)
    requires HistoryInv(cfg, h) && Voted(h, v, t, c)
    ensures Voted(h, c, t, c)
  {
    assert BallotInv(cfg, h, v, t);
  }

  lemma CountedForItself(cfg: Config, h: History, c: Uid, t: nat)
    requires HistoryInv(cfg, h) && At(c, t) in h.counted
    ensures Voted(h, c, t, c)
  {
    assert CountedInv(cfg, h, c, t);
  }

  /** Nobody can have voted for or counted for p in a term p has not reached. */
  lemma FutureIsOpen(cfg: Config, h: History, p: Uid, s: PeerState, t: nat)
    requires HistoryInv(cfg, h) && TermInv(h, s) && s.id == p && s.term < t
    ensures At(p, t) !in h.counted && At(p, t) !in h.ballots
    ensures forall v :: !Voted(h, v, t, p)
  {
    if At(p, t) in h.counted {
      CountedForItself(cfg, h, p, t);
      assert false;
    }
    forall v ensures !Voted(h, v, t, p) {
      if Voted(h, v, t, p) {
        VotedForItself(cfg, h, v, t, p);
        assert false;
      }
    }
  }

  lemma StandingNews(cfg: Config, c: Cluster, h: History, h': History, p: Uid, t: nat, log: seq<Entry>)
    requires Inv(cfg, c, h) && h' == Standing(h, p, t, log) && forall v :: !Voted(h, v, t, p)
    ensures AllNews(c, h')
  {
    forall l, i | l in c.queues && 0 <= i < |c.queues[l]| ensures NewsInv(h', l, c.queues[l][i]) {
      assert QueueInv(cfg, h, l, c.queues[l]);
      assert MessageInv(cfg, h, l, c.queues[l][i]) && NewsInv(h, l, c.queues[l][i]);
    }
  }

  lemma StandingKeeps(cfg: Config, h: History, h': History, p: Uid, s: PeerState, s': PeerState)
    requires HistoryInv(cfg, h) && PeerInv(cfg, h, p, s) && s.role != Leader
    requires s' == UpdateTerm(s, s.term + 1, p).(role := Candidate)
    requires h' == Standing(h, p, s.term + 1, s.log) && GrowsBy(h, h', p)
    ensures PeerInv(cfg, h', p, s')
  {
    LogPartLater(cfg, h, h', p, p, s.term, s.log, s.term + 1);
    StandingPeer(cfg, h, h', p, s, s');
    if h.commits {
      CommitPartStays(cfg, h, h', p, s, s');
    }
  }

  lemma StandingEffect(s: PeerState)
    requires |s.log| > 0
    ensures StartElection(s) ==
      Effect(UpdateTerm(s, s.term + 1, s.id).(role := Candidate),
             Broadcast(s.members, s.id, ElectionReq(s.term + 1, LastEntry(s).term, LastEntry(s).index)))
  {}

  lemma StandingSends(cfg: Config, c: Cluster, h: History, p: Uid, s: PeerState, m: Message)
    requires WellFormed(s.log, s.term)
    requires Voted(h, p, s.term + 1, p) && h.ballots[At(p, s.term + 1)].log == s.log
    requires m == ElectionReq(s.term + 1, LastEntry(s).term, LastEntry(s).index)
    ensures BroadcastAllowed(cfg, c, h, p, m)
  {
    forall l | l in c.queues && l.source == p ensures CanSend(cfg, h, c.queues[l], l, m) {
      assert MessageInv(cfg, h, l, m);
    }
  }

  lemma StandingIsRecorded(cfg: Config, c: Cluster, h: History, p: Uid, s: PeerState, h': History)
    requires Inv(cfg, c, h) && p in c.peers && c.peers[p] == s && h' == Standing(h, p, s.term + 1, s.log)
    ensures PeerInv(cfg, h, p, s) && GrowsBy(h, h', p) && HistoryInv(cfg, h') && AllNews(c, h')
  {
    PeerOf(cfg, c, h, p);
    FutureIsOpen(cfg, h, p, s, s.term + 1);
    StandingHistory(cfg, h, h', p, s.term, s.log);
    StandingNews(cfg, c, h, h', p, s.term + 1, s.log);
  }

  lemma StandingIsReady(cfg: Config, c: Cluster, h: History, p: Uid, s: PeerState, s': PeerState, h': History)
    requires Inv(cfg, c, h) && p in c.peers && c.peers[p] == s && s.role != Leader && |s.log| > 0
    requires s' == UpdateTerm(s, s.term + 1, p).(role := Candidate) && h' == Standing(h, p, s.term + 1, s.log)
    ensures GrowsBy(h, h', p) && HistoryInv(cfg, h') && PeerInv(cfg, h', p, s') && AllNews(c, h')
    ensures WellFormed(s.log, s.term) && s.members == cfg.members && s.id == p
  {
    StandingIsRecorded(cfg, c, h, p, s, h');
    StandingKeeps(cfg, h, h', p, s, s');
  }

  lemma StartElectionKeepsInv(cfg: Config, c: Cluster, h: History, p: Uid) returns (h': History)
    requires Inv(cfg, c, h) && p in c.peers && c.peers[p].role != Leader && |c.peers[p].log| > 0
    ensures Inv(cfg, Become(c, p, StartElection(c.peers[p])), h')
    ensures GrowsBy(h, h', p)
  {
    var s := c.peers[p];
    var s' := UpdateTerm(s, s.term + 1, p).(role := Candidate);
    h' := Standing(h, p, s.term + 1, s.log);
    StandingIsReady(cfg, c, h, p, s, s', h');
    var m := ElectionReq(s.term + 1, LastEntry(s).term, LastEntry(s).index);
    StandingEffect(s);
    StandingSends(cfg, c, h', p, s, m);
    BroadcastKeepsInv(cfg, c, h, h', p, s', m);
  }
}

/** Who is told what: over whole runs, every member hears of what a leader appends, and every request that is
    delivered is answered. */
module Announcements {
  import opened Uids
  import opened PeerSpec
  import opened Clusters
  import opened ClusterSafety
  import ClusterSteps
  import opened CatchingUp
  import opened Votes
  import opened VoteRule
  import opened Sending

  // ---- What a leader sends to one member

  /** The member q of p's cluster. */
  predicate IsOther(p: PeerState, q: Uid) {
    && q in p.members && q != p.id && p.id in p.members
    && forall i, j | 0 <= i < j < |p.members| :: p.members[i] != p.members[j]
  }

  lemma OthersAreMany(p: PeerState, q: Uid)
    requires IsOther(p, q)
    ensures |p.members| != 1
  {}

  lemma HeartbeatTells(p: PeerState, q: Uid)
    requires IsOther(p, q) && |p.log| > 0
    ensures MessagesTo(Heartbeat(p), q) == [PrefixRequest(p, |p.log| - 1)]
  {
    BroadcastReaches(p.members, p.id, PrefixRequest(p, |p.log| - 1), q);
  }

  lemma AppendTells(p: PeerState, e: Entry, q: Uid)
    requires IsOther(p, q) && |p.log| > 0
    ensures AppendToLog(p, e).peer == p.(log := p.log + [e])
    ensures MessagesTo(AppendToLog(p, e).sent, q) == [PrefixRequest(p.(log := p.log + [e]), |p.log| - 1)]
  {
    OthersAreMany(p, q);
    BroadcastReaches(p.members, p.id, PrefixRequest(p.(log := p.log + [e]), |p.log| - 1), q);
  }

  /** The request gives whoever has the log `before` the log of the leader. */
  predicate Brings(leader: PeerState, before: seq<Entry>, m: Message) {
    m.AppendReq? && SpeaksFor(leader, m) && m.prevIndex < |before| && before <= leader.log
  }

  /** What a call sends to q ends in such a request. */
  predicate Tells(p: PeerState, e: Effect, q: Uid) {
    var ms := MessagesTo(e.sent, q);
    ms != [] && Brings(e.peer, p.log, ms[|ms| - 1])
  }

  lemma CommandTells(p: PeerState, req: CommandReq, q: Uid)
    requires IsOther(p, q) && Rooted(p.log) && CommandReqInBounds(p, req) && RecvCommandReq(p, req).peer.log != p.log
    ensures Tells(p, RecvCommandReq(p, req), q) && |MessagesTo(RecvCommandReq(p, req).sent, q)| == 1
  {
    AppendTells(p, EntryForCommand(p, req)[0], q);
  }

  lemma AnswerTells(p: PeerState, rsp: CommandRsp, q: Uid)
    requires IsOther(p, q) && Rooted(p.log) && CommandRspInBounds(p, rsp) && RecvCommandRsp(p, rsp).peer.log != p.log
    ensures Tells(p, RecvCommandRsp(p, rsp), q) && |MessagesTo(RecvCommandRsp(p, rsp).sent, q)| == 1
  {
    var p1 := p.(lockedEvents := p.lockedEvents + {EventOfPeer(p, rsp.source)});
    AppendTells(p1, NewEntry(p1, p.clusterEvent, p.id, Tag(rsp.tag.uid, Exec)), q);
  }

  lemma TimerTells(p: PeerState, idle: bool, tagUid: Uid, q: Uid)
    requires IsOther(p, q) && Rooted(p.log) && p.role == Leader && TimerInBounds(p, idle)
    ensures Tells(p, PeerSpec.Timeout(p, idle, tagUid), q)
  {
    var retry := RetryRequests(p, idle, tagUid);
    ClusterSteps.MessagesToConcat(Heartbeat(p), retry.sent, q);
    HeartbeatTells(p, q);
    AppendTells(p, NewEntry(p, p.clusterEvent, p.id, Tag(tagUid, Checkpoint)), q);
  }

  lemma WinTells(p: PeerState, source: Uid, m: Message, q: Uid)
    requires IsOther(p, q) && Rooted(p.log) && m.ElectionRsp?
    requires p.role != Leader && RecvElectionRsp(p, source, m).peer.role == Leader
    ensures Tells(p, RecvElectionRsp(p, source, m), q) && |MessagesTo(RecvElectionRsp(p, source, m).sent, q)| == 1
  {
    var p1 := Overtake(p, m.term, source);
    HeartbeatTells(p1.(electionVotes := p1.electionVotes + 1), q);
  }

  // ---- What a step sends

  /** After this step of a leader everybody must hear of it. */
  predicate IsNews(p: PeerState, s: Step, p': PeerState) {
    p'.role == Leader && (p.role != Leader || s.Timer? || p'.log != p.log)
  }

  lemma MessageTells(p: PeerState, source: Uid, m: Message, q: Uid)
    requires IsOther(p, q) && Rooted(p.log) && (m.AppendRsp? ==> AppendRspInBounds(p, source, m))
    requires Handle(p, source, m).peer.role == Leader && (p.role != Leader || Handle(p, source, m).peer.log != p.log)
    ensures Tells(p, Handle(p, source, m), q) && |MessagesTo(Handle(p, source, m).sent, q)| == 1
  {
    if m.ElectionRsp? {
      WinTells(p, source, m, q);
    } else {
      NoNewsByMessage(p, source, m);
    }
  }

  /** Only a grant makes a leader, and no message lengthens the log of one. */
  lemma NoNewsByMessage(p: PeerState, source: Uid, m: Message)
    requires |p.log| > 0 && !m.ElectionRsp? && (m.AppendRsp? ==> AppendRspInBounds(p, source, m))
    ensures Handle(p, source, m).peer.role == Leader ==> p.role == Leader && Handle(p, source, m).peer.log == p.log
  {}

  lemma StepTells(cfg: Config, c: Cluster, s: Step, p: PeerState, e: Effect, q: Uid)
    requires CanHappen(cfg, c, s) && InBounds(cfg, c, s) && !s.Lose? && p == c.peers[Actor(s)] && e == EffectOf(cfg, c, s)
    requires IsOther(p, q) && Rooted(p.log) && IsNews(p, s, e.peer)
    ensures Tells(p, e, q) && (!s.Timer? ==> |MessagesTo(e.sent, q)| == 1)
  {
    match s
    case Timer(_, idle, tagUid) => TimerTells(p, idle, tagUid, q);
    case PollWon(_) =>
    case Learn(_, _, _) =>
    case Command(_, req) => CommandTells(p, req, q);
    case CommandAnswer(_, rsp) => AnswerTells(p, rsp, q);
    case Deliver(l) => MessageTells(p, l.source, c.queues[l][0], q);
  }

  // ---- Over runs

  /** What a step puts on the links of its actor. */
  lemma LinkAfterStep(cfg: Config, c: Cluster, s: Step, l: Link)
    requires CanHappen(cfg, c, s) && InBounds(cfg, c, s) && !s.Lose? && l in c.queues && l.source == Actor(s) != l.target
    ensures l in Take(cfg, c, s).queues
    ensures Take(cfg, c, s).queues[l] == c.queues[l] + MessagesTo(EffectOf(cfg, c, s).sent, l.target)
  {}

  /** A follower in the leader's term with this log. */
  predicate IsAt(f: PeerState, leader: PeerState, log: seq<Entry>) {
    f.role == Follower && f.term == leader.term && f.log == log
  }

  /** By the request the follower gets the leader's log and commit index. */
  predicate Levels(f: PeerState, leader: PeerState, m: Message)
    requires m.AppendReq? && |leader.log| > 0
  {
    var f' := RecvAppendReq(f, leader.id, m).peer;
    f'.log == leader.log && f'.commitIndex == RaisedTo(f.commitIndex, leader.commitIndex, |leader.log| - 1)
  }

  lemma BroughtUpToDate(leader: PeerState, before: seq<Entry>, m: Message, f: PeerState)
    requires Brings(leader, before, m) && IsAt(f, leader, before)
    ensures Levels(f, leader, m)
  {
    SameLog(f.log, leader.log, m);
  }

  /** The last message of the queue is an append that gives any follower of the leader's term that has the log
      `before` the log of the leader, and its commit index. */
  ghost predicate EndsInNews(q: seq<Message>, leader: PeerState, before: seq<Entry>) {
    && q != [] && q[|q| - 1].AppendReq? && |leader.log| > 0
    && forall f {:trigger IsAt(f, leader, before)} | IsAt(f, leader, before) :: Levels(f, leader, q[|q| - 1])
  }

  lemma BringsIsNews(leader: PeerState, before: seq<Entry>, q: seq<Message>)
    requires q != [] && Brings(leader, before, q[|q| - 1])
    ensures EndsInNews(q, leader, before)
  {
    forall f | IsAt(f, leader, before) ensures Levels(f, leader, q[|q| - 1]) {
      BroughtUpToDate(leader, before, q[|q| - 1], f);
    }
  }

  lemma OtherInRun(cfg: Config, states: seq<Cluster>, steps: seq<Step>, i: nat, p: Uid, q: Uid)
    requires InDefinedRun(cfg, states, steps, i, p) && q in states[i].peers && q != p
    ensures IsOther(PeerAt(states, i, p), q) && Rooted(PeerAt(states, i, p).log) && PeerAt(states, i, p).id == p
    ensures Link(p, q) in states[i].queues
  {
    PeerInRun(cfg, states, steps, i, p);
    PeerInRun(cfg, states, steps, i, q);
    ReachableIsRooted(cfg, states, steps, i, p);
    assert IsLink(cfg, Link(p, q));
  }

  /** The step adds messages to this queue, the last of which brings its reader up to date. */
  predicate AddsNews(old': seq<Message>, new': seq<Message>, s: Step, before: PeerState, after: PeerState) {
    && |old'| < |new'| && old' == new'[..|old'|] && (!s.Timer? ==> |new'| == |old'| + 1)
    && Brings(after, before.log, new'[|new'| - 1])
  }

  lemma LinkIsTold(cfg: Config, c: Cluster, s: Step, c': Cluster, p: PeerState, q: Uid, e: Effect)
    requires CanHappen(cfg, c, s) && InBounds(cfg, c, s) && !s.Lose? && c' == Take(cfg, c, s)
    requires Actor(s) == p.id && p == c.peers[p.id] && e == EffectOf(cfg, c, s)
    requires IsOther(p, q) && Rooted(p.log) && IsNews(p, s, e.peer) && Link(p.id, q) in c.queues
    ensures Link(p.id, q) in c'.queues
    ensures AddsNews(c.queues[Link(p.id, q)], c'.queues[Link(p.id, q)], s, p, e.peer)
  {
    StepTells(cfg, c, s, p, e, q);
    LinkAfterStep(cfg, c, s, Link(p.id, q));
  }

  lemma LinkIsToldInRun(cfg: Config, states: seq<Cluster>, steps: seq<Step>, i: nat, p: Uid, q: Uid)
    requires InDefinedRun(cfg, states, steps, i, p) && i < |steps| && !steps[i].Lose? && Actor(steps[i]) == p
    requires q in states[i].peers && q != p && p in states[i + 1].peers
    requires IsNews(PeerAt(states, i, p), steps[i], PeerAt(states, i + 1, p))
    requires Link(p, q) in states[i].queues && Link(p, q) in states[i + 1].queues
    ensures AddsNews(states[i].queues[Link(p, q)], states[i + 1].queues[Link(p, q)], steps[i], PeerAt(states, i, p),
                     PeerAt(states, i + 1, p))
  {
    OtherInRun(cfg, states, steps, i, p, q);
    StepOfDefinedRun(cfg, states, steps, i);
    PeersAfterStep(cfg, states[i], steps[i]);
    LinkIsTold(cfg, states[i], steps[i], states[i + 1], PeerAt(states, i, p), q, EffectOf(cfg, states[i], steps[i]));
  }

  lemma LinkInRun(cfg: Config, states: seq<Cluster>, steps: seq<Step>, i: nat, p: Uid, q: Uid)
    requires InDefinedRun(cfg, states, steps, i, p) && i < |steps| && q in states[i].peers && q != p
    ensures Link(p, q) in states[i].queues && Link(p, q) in states[i + 1].queues && p in states[i + 1].peers
  {
    StepOfDefinedRun(cfg, states, steps, i);
    PeersAfterStep(cfg, states[i], steps[i]);
    OtherInRun(cfg, states, steps, i, p, q);
    PeerInRun(cfg, states, steps, i + 1, p);
    assert IsLink(cfg, Link(p, q));
  }

  /** When a step lengthens the log of a leader, or is its timer, or makes a peer leader, the link to every other
      member ends in an append that brings who had the log of before up to date; for all but the timer it is the
      only message added. */
  lemma EveryMemberIsTold(cfg: Config, states: seq<Cluster>, steps: seq<Step>, i: nat, p: Uid, q: Uid)
    requires InDefinedRun(cfg, states, steps, i, p) && i < |steps| && !steps[i].Lose? && Actor(steps[i]) == p
    requires q in states[i].peers && q != p && p in states[i + 1].peers
    requires IsNews(PeerAt(states, i, p), steps[i], PeerAt(states, i + 1, p))
    ensures Link(p, q) in states[i].queues && Link(p, q) in states[i + 1].queues
    ensures var old', new' := states[i].queues[Link(p, q)], states[i + 1].queues[Link(p, q)];
      && |old'| < |new'| && old' == new'[..|old'|] && (!steps[i].Timer? ==> |new'| == |old'| + 1)
      && EndsInNews(new', PeerAt(states, i + 1, p), PeerAt(states, i, p).log)
  {
    LinkInRun(cfg, states, steps, i, p, q);
    LinkIsToldInRun(cfg, states, steps, i, p, q);
    BringsIsNews(PeerAt(states, i + 1, p), PeerAt(states, i, p).log, states[i + 1].queues[Link(p, q)]);
  }

  // ---- Every request is answered

  predicate IsRequest(m: Message) {
    m.ElectionReq? || m.AppendReq?
  }

  /** The request passes: the log takes the append, or the vote is given. */
  predicate Passes(p: PeerState, m: Message)
    requires IsRequest(m) && |p.log| > 0
  {
    if m.AppendReq? then Accepts(p, m)
    else
      && m.term >= p.term && (m.term > p.term || !Spent(p))
      && NotBehind(m.lastTerm, m.lastIndex, LastEntry(p))
  }

  /** The answer r to the request m that made p into p'. */
  predicate Replies(p: PeerState, m: Message, p': PeerState, r: Message)
    requires IsRequest(m) && |p.log| > 0
  {
    && IsResponse(r) && (r.AppendRsp? <==> m.AppendReq?) && r.requestTerm == m.term && r.term == p'.term
    && (r.success <==> Passes(p, m))
    && (r.AppendRsp? && r.success ==> r.lastIndex == |p'.log| - 1)
    && (r.AppendRsp? && !r.success && m.term == p'.term ==> r.prevIndex == m.prevIndex && r.prevTerm == m.prevTerm)
  }

  /** One answer to every request, except that a candidate or leader ignores requests of its own term. */
  lemma OneReply(p: PeerState, source: Uid, m: Message)
    requires IsRequest(m) && |p.log| > 0
    ensures var e := Handle(p, source, m);
      if m.term == p.term && p.role != Follower then e == Effect(p, [])
      else |e.sent| == 1 && e.sent[0].target == source && Replies(p, m, e.peer, e.sent[0].message)
  {}

  /** The queue gets one answer, or none from a candidate or leader of the term of the request. */
  predicate GetsReply(old': seq<Message>, new': seq<Message>, m: Message, before: PeerState, after: PeerState)
    requires IsRequest(m) && |before.log| > 0
  {
    if m.term == before.term && before.role != Follower then new' == old'
    else |new'| == |old'| + 1 && old' == new'[..|old'|] && Replies(before, m, after, new'[|old'|])
  }

  lemma RequestIsAnswered(cfg: Config, c: Cluster, l: Link, m: Message, c': Cluster)
    requires CanHappen(cfg, c, Deliver(l)) && InBounds(cfg, c, Deliver(l)) && c' == Take(cfg, c, Deliver(l))
    requires c.queues[l][0] == m && IsRequest(m)
    ensures l.target in c.peers && l.target in c'.peers && |c.peers[l.target].log| > 0
    ensures Link(l.target, l.source) in c.queues && Link(l.target, l.source) in c'.queues
    ensures GetsReply(c.queues[Link(l.target, l.source)], c'.queues[Link(l.target, l.source)], m, c.peers[l.target],
                      c'.peers[l.target])
  {
    assert IsLink(cfg, l) && IsLink(cfg, Link(l.target, l.source));
    LinkAfterStep(cfg, c, Deliver(l), Link(l.target, l.source));
    OneReply(c.peers[l.target], l.source, m);
    var sent := EffectOf(cfg, c, Deliver(l)).sent;
    if sent != [] {
      assert sent == [Packet(l.source, sent[0].message)];
      OnePacket(l.source, sent[0].message, l.source);
    }
  }

  /** Over runs: every delivered request puts one answer on the link back, with the term the peer is in now and
      the right verdict, unless the peer is a candidate or leader of just that term. */
  lemma RequestsAreAnswered(cfg: Config, states: seq<Cluster>, steps: seq<Step>, i: nat, l: Link, m: Message)
    requires IsDefinedRun(cfg, states, steps) && i < |steps| && steps[i] == Deliver(l)
    requires l in states[i].queues && states[i].queues[l] != [] && states[i].queues[l][0] == m && IsRequest(m)
    requires InDefinedRun(cfg, states, steps, i, l.target) && l.target in states[i + 1].peers
    requires |PeerAt(states, i, l.target).log| > 0
    ensures var back := Link(l.target, l.source); back in states[i].queues && back in states[i + 1].queues
    ensures var back := Link(l.target, l.source);
      GetsReply(states[i].queues[back], states[i + 1].queues[back], m, PeerAt(states, i, l.target),
                PeerAt(states, i + 1, l.target))
  {
    StepOfDefinedRun(cfg, states, steps, i);
    PeersAfterStep(cfg, states[i], steps[i]);
    RequestIsAnswered(cfg, states[i], l, m, states[i + 1]);
  }

  // ---- Who is taken for leader

  predicate SameLeader(p: PeerState, p': PeerState) {
    p'.leader == p.leader && p'.term == p.term
  }

  lemma AppendKeepsLeader(p: PeerState, e: Entry)
    requires |p.log| > 0
    ensures SameLeader(p, AppendToLog(p, e).peer)
  {}

  lemma CallsKeepLeader(p: PeerState, req: CommandReq, rsp: CommandRsp)
    requires |p.log| > 0
    ensures CommandReqInBounds(p, req) ==> SameLeader(p, RecvCommandReq(p, req).peer)
    ensures CommandRspInBounds(p, rsp) ==> SameLeader(p, RecvCommandRsp(p, rsp).peer)
  {
    var p1 := p.(lockedEvents := p.lockedEvents + {EventOfPeer(p, rsp.source)});
    AppendKeepsLeader(p1, NewEntry(p1, p.clusterEvent, p.id, Tag(rsp.tag.uid, Exec)));
  }

  lemma TimerNamesLeader(p: PeerState, idle: bool, tagUid: Uid)
    requires |p.log| > 0 && TimerInBounds(p, idle)
    ensures var p' := PeerSpec.Timeout(p, idle, tagUid).peer; p'.leader == if p'.term == p.term then p.leader else p.id
  {
    AppendKeepsLeader(p, NewEntry(p, p.clusterEvent, p.id, Tag(tagUid, Checkpoint)));
  }

  lemma MessageNamesLeader(p: PeerState, source: Uid, m: Message)
    requires |p.log| > 0 && (m.AppendRsp? ==> AppendRspInBounds(p, source, m))
    ensures var p' := Handle(p, source, m).peer; p'.leader == if p'.term == p.term then p.leader else source
  {
    match m
    case ElectionReq(_, _, _) =>
    case ElectionRsp(_, _, _) =>
    case AppendReq(_, _, _, _, _) =>
    case AppendRsp(_, _, _, _, _, _) =>
  }

  lemma StepNamesLeader(cfg: Config, c: Cluster, s: Step, p: PeerState)
    requires CanHappen(cfg, c, s) && InBounds(cfg, c, s) && !s.Lose? && p == c.peers[Actor(s)] && |p.log| > 0
    ensures var p' := EffectOf(cfg, c, s).peer;
      p'.leader == if p'.term == p.term then p.leader
                   else match s
                     case Deliver(l) => l.source
                     case Learn(_, q, _) => q
                     case _ => p.id
  {
    match s
    case Timer(_, idle, tagUid) => TimerNamesLeader(p, idle, tagUid);
    case PollWon(_) =>
    case Learn(_, _, _) =>
    case Command(_, req) => CallsKeepLeader(p, req, CommandRsp(0, Tag(0, Lock), false, 0));
    case CommandAnswer(_, rsp) => CallsKeepLeader(p, CommandReq(0, Tag(0, Lock), 0), rsp);
    case Deliver(l) => MessageNamesLeader(p, l.source, c.queues[l][0]);
  }

  /** A peer's leader is whoever raised its term last: the sender of the message, or itself as a candidate. */
  lemma LeaderRaisedTheTerm(cfg: Config, states: seq<Cluster>, steps: seq<Step>, i: nat, p: Uid)
    requires InDefinedRun(cfg, states, steps, i, p) && i < |steps| && p in states[i + 1].peers
    ensures var s, s' := PeerAt(states, i, p), PeerAt(states, i + 1, p);
      s'.leader == if s'.term == s.term then s.leader
                   else match steps[i]
                     case Deliver(l) => l.source
                     case Learn(_, q, _) => q
                     case _ => p
  {
    StepOfDefinedRun(cfg, states, steps, i);
    PeersAfterStep(cfg, states[i], steps[i]);
    PeerInRun(cfg, states, steps, i, p);
    ReachableIsRooted(cfg, states, steps, i, p);
    if !steps[i].Lose? && Actor(steps[i]) == p {
      StepNamesLeader(cfg, states[i], steps[i], PeerAt(states, i, p));
    }
  }
}

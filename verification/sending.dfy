/** What append requests say about the logs they were sent from, over whole runs. */
module Sending {
  import opened Uids
  import opened PeerSpec
  import opened Clusters
  import opened ClusterSafety
  import opened CatchingUp
  import opened Votes

  // ---- Where queued messages come from

  lemma {:induction false} MessagesToAreSent(sent: seq<Packet>, target: Uid, m: Message)
    requires m in MessagesTo(sent, target)
    ensures exists k :: k in sent && k.message == m
  {
    var front, last := sent[..|sent| - 1], sent[|sent| - 1];
    assert sent == front + [last];
    if m in MessagesTo(front, target) {
      MessagesToAreSent(front, target, m);
    } else {
      assert last in sent && last.message == m;
    }
  }

  lemma NewInQueue(c: Cluster, p: Uid, e: Effect, l: Link, m: Message)
    requires l in c.queues && m in Become(c, p, e).queues[l]
    ensures m in c.queues[l] || (l.source == p && exists k :: k in e.sent && k.message == m)
  {
    if m !in c.queues[l] {
      assert Become(c, p, e).queues[l] == c.queues[l] + MessagesTo(e.sent, l.target);
      MessagesToAreSent(e.sent, l.target, m);
    }
  }

  /** A message in a queue after a step was there before or was sent by the step. */
  lemma QueueAfterStep(cfg: Config, c: Cluster, s: Step, l: Link, m: Message)
    requires CanHappen(cfg, c, s) && InBounds(cfg, c, s)
    requires l in Take(cfg, c, s).queues && m in Take(cfg, c, s).queues[l]
    ensures l in c.queues
    ensures m in c.queues[l]
      || (!s.Lose? && l.source == Actor(s) && exists k :: k in EffectOf(cfg, c, s).sent && k.message == m)
  {
    match s
    case Lose(_) =>
    case Deliver(d) => NewInQueue(Pop(c, d), d.target, EffectOf(cfg, c, s), l, m);
    case _ => NewInQueue(c, Actor(s), EffectOf(cfg, c, s), l, m);
  }

  // ---- What a peer sends describes its log

  /** The request names an entry of this log and carries everything after it. */
  predicate Describes(log: seq<Entry>, m: Message)
    requires m.AppendReq?
  {
    m.prevIndex < |log| && m.prevTerm == log[m.prevIndex].term && m.entries == log[m.prevIndex + 1..]
  }

  /** The request speaks for a leader of its term with this log and commit index. */
  predicate SpeaksFor(p: PeerState, m: Message)
    requires m.AppendReq?
  {
    p.role == Leader && p.term == m.term && p.commitIndex == m.commitIndex && Describes(p.log, m)
  }

  /** Every append a peer sends speaks for it as it was before or after the call. */
  ghost predicate SendsItsLog(p: PeerState, e: Effect) {
    forall k | k in e.sent && k.message.AppendReq? :: SpeaksFor(p, k.message) || SpeaksFor(e.peer, k.message)
  }

  lemma AppendSendsItsLog(p: PeerState, entry: Entry)
    requires Rooted(p.log) && p.role == Leader
    ensures SendsItsLog(p, AppendToLog(p, entry))
  {
    var p1 := p.(log := p.log + [entry]);
    BroadcastIsOf(p.members, p.id, PrefixRequest(p1, |p1.log| - 2));
  }

  lemma HeartbeatSendsItsLog(p: PeerState)
    requires Rooted(p.log)
    ensures forall k | k in Heartbeat(p) ::
      && k.message.AppendReq? && k.message.term == p.term && k.message.commitIndex == p.commitIndex
      && Describes(p.log, k.message)
  {
    BroadcastIsOf(p.members, p.id, PrefixRequest(p, |p.log| - 1));
  }

  lemma TimerSendsItsLog(p: PeerState, idle: bool, tagUid: Uid)
    requires Rooted(p.log) && TimerInBounds(p, idle)
    ensures SendsItsLog(p, PeerSpec.Timeout(p, idle, tagUid))
  {
    match p.role
    case Leader =>
      HeartbeatSendsItsLog(p);
      AppendSendsItsLog(p, NewEntry(p, p.clusterEvent, p.id, Tag(tagUid, Checkpoint)));
    case Candidate => CandidacySendsNone(p);
    case Follower =>
  }

  lemma CandidacySendsNone(p: PeerState)
    requires |p.log| > 0
    ensures forall k | k in StartElection(p).sent :: k.message.ElectionReq?
  {
    var p1 := UpdateTerm(p, p.term + 1, p.id).(role := Candidate);
    BroadcastIsOf(p.members, p.id, ElectionReq(p1.term, LastEntry(p1).term, LastEntry(p1).index));
  }

  lemma CommandSendsItsLog(p: PeerState, req: CommandReq)
    requires Rooted(p.log) && CommandReqInBounds(p, req)
    ensures SendsItsLog(p, RecvCommandReq(p, req))
  {
    var entries := EntryForCommand(p, req);
    if entries != [] {
      AppendSendsItsLog(p, entries[0]);
    }
  }

  lemma AnswerSendsItsLog(p: PeerState, rsp: CommandRsp)
    requires Rooted(p.log) && CommandRspInBounds(p, rsp)
    ensures SendsItsLog(p, RecvCommandRsp(p, rsp))
  {
    var p1 := p.(lockedEvents := p.lockedEvents + {EventOfPeer(p, rsp.source)});
    if p.role == Leader {
      AppendSendsItsLog(p1, NewEntry(p1, p.clusterEvent, p.id, Tag(rsp.tag.uid, Exec)));
    }
  }

  lemma HandleSendsItsLog(p: PeerState, source: Uid, m: Message)
    requires Rooted(p.log) && (m.AppendRsp? ==> AppendRspInBounds(p, source, m))
    ensures SendsItsLog(p, Handle(p, source, m))
  {
    match m
    case ElectionReq(_, _, _) =>
    case ElectionRsp(_, _, _) =>
      var p1 := Overtake(p, m.term, source);
      HeartbeatSendsItsLog(p1.(electionVotes := p1.electionVotes + 1));
    case AppendReq(_, _, _, _, _) =>
    case AppendRsp(_, _, _, _, _, _) =>
  }

  lemma StepSendsItsLog(cfg: Config, c: Cluster, s: Step)
    requires CanHappen(cfg, c, s) && InBounds(cfg, c, s) && !s.Lose?
    requires Actor(s) in c.peers && Rooted(c.peers[Actor(s)].log)
    ensures SendsItsLog(c.peers[Actor(s)], EffectOf(cfg, c, s))
  {
    match s
    case Timer(p, idle, tagUid) => TimerSendsItsLog(c.peers[p], idle, tagUid);
    case PollWon(p) => CandidacySendsNone(c.peers[p]);
    case Learn(_, _, _) =>
    case Command(p, req) => CommandSendsItsLog(c.peers[p], req);
    case CommandAnswer(p, rsp) => AnswerSendsItsLog(c.peers[p], rsp);
    case Deliver(l) => HandleSendsItsLog(c.peers[l.target], l.source, c.queues[l][0]);
  }

  // ---- Over runs

  ghost predicate SentBy(states: seq<Cluster>, i: nat, p: Uid, m: Message)
    requires m.AppendReq?
  {
    exists j: nat :: j <= i < |states| && p in states[j].peers && SpeaksFor(PeerAt(states, j, p), m)
  }

  lemma NoMessagesYet(cfg: Config, states: seq<Cluster>, steps: seq<Step>, l: Link, m: Message)
    requires IsDefinedRun(cfg, states, steps) && l in states[0].queues
    ensures m !in states[0].queues[l]
  {
    assert states[0].queues[l] == [];
  }

  lemma SentInStep(cfg: Config, states: seq<Cluster>, steps: seq<Step>, i: nat, m: Message)
    requires IsDefinedRun(cfg, states, steps) && i < |steps| && CanHappen(cfg, states[i], steps[i])
    requires InBounds(cfg, states[i], steps[i]) && states[i + 1] == Take(cfg, states[i], steps[i]) && !steps[i].Lose?
    requires m.AppendReq? && exists k :: k in EffectOf(cfg, states[i], steps[i]).sent && k.message == m
    ensures SentBy(states, i + 1, Actor(steps[i]), m)
  {
    var p, c, s := Actor(steps[i]), states[i], steps[i];
    ActorIsPeer(cfg, c, s);
    ReachableIsRooted(cfg, states, steps, i, p);
    StepSendsItsLog(cfg, c, s);
    PeersAfterStep(cfg, c, s);
    if SpeaksFor(PeerAt(states, i, p), m) {
    } else {
      assert SpeaksFor(PeerAt(states, i + 1, p), m);
    }
  }

  lemma SentEarlier(states: seq<Cluster>, i: nat, p: Uid, m: Message)
    requires m.AppendReq? && SentBy(states, i, p, m) && i + 1 < |states|
    ensures SentBy(states, i + 1, p, m)
  {}

  lemma QueuedOrSent(cfg: Config, states: seq<Cluster>, steps: seq<Step>, i: nat, l: Link, m: Message)
    requires IsDefinedRun(cfg, states, steps) && i < |steps|
    requires l in states[i + 1].queues && m in states[i + 1].queues[l] && m.AppendReq?
    ensures l in states[i].queues
    ensures m in states[i].queues[l] || SentBy(states, i + 1, l.source, m)
  {
    StepOfDefinedRun(cfg, states, steps, i);
    QueueAfterStep(cfg, states[i], steps[i], l, m);
    if m !in states[i].queues[l] {
      SentInStep(cfg, states, steps, i, m);
    }
  }

  /** Every append request on a link was sent by the leader of its term, and describes the log that leader
      had at some earlier moment, up to the end of that log, with the commit index it had then. */
  lemma {:induction false} AppendsDescribeLogs(cfg: Config, states: seq<Cluster>, steps: seq<Step>,
                                               i: nat, l: Link, m: Message)
    requires IsDefinedRun(cfg, states, steps) && i < |states|
    requires l in states[i].queues && m in states[i].queues[l] && m.AppendReq?
    ensures SentBy(states, i, l.source, m)
    decreases i
  {
    if i == 0 {
      NoMessagesYet(cfg, states, steps, l, m);
      assert false;
    } else {
      QueuedOrSent(cfg, states, steps, i - 1, l, m);
      if m in states[i - 1].queues[l] {
        AppendsDescribeLogs(cfg, states, steps, i - 1, l, m);
        SentEarlier(states, i - 1, l.source, m);
      }
    }
  }

  lemma DeliveredAppend(cfg: Config, states: seq<Cluster>, steps: seq<Step>, i: nat, l: Link, m: Message)
    requires IsDefinedRun(cfg, states, steps) && i < |steps| && steps[i] == Deliver(l)
    requires l in states[i].queues && states[i].queues[l] != [] && states[i].queues[l][0] == m && m.AppendReq?
    requires l.target in states[i].peers && l.target in states[i + 1].peers
    ensures PeerAt(states, i + 1, l.target) == RecvAppendReq(PeerAt(states, i, l.target), l.source, m).peer
  {
    StepOfDefinedRun(cfg, states, steps, i);
    PeersAfterStep(cfg, states[i], steps[i]);
  }

  /** An accepted append leaves the follower's log equal to the log the leader of the request's term had
      when it sent the request. */
  lemma AcceptedAppendCopiesTheLog(cfg: Config, states: seq<Cluster>, steps: seq<Step>, i: nat, l: Link, m: Message)
    returns (j: nat)
    requires IsDefinedRun(cfg, states, steps) && i < |steps| && steps[i] == Deliver(l)
    requires l in states[i].queues && states[i].queues[l] != [] && states[i].queues[l][0] == m && m.AppendReq?
    requires l.target in states[i].peers && l.target in states[i + 1].peers
    requires Accepts(PeerAt(states, i, l.target), m)
    ensures j <= i && l.source in states[j].peers
    ensures PeerAt(states, i + 1, l.target).log == PeerAt(states, j, l.source).log
    ensures SpeaksFor(PeerAt(states, j, l.source), m)
  {
    DeliveredAppend(cfg, states, steps, i, l, m);
    AppendsDescribeLogs(cfg, states, steps, i, l, m);
    j :| j <= i && l.source in states[j].peers && SpeaksFor(PeerAt(states, j, l.source), m);
    AcceptedLogIs(PeerAt(states, i, l.target), l.source, m);
    LogMatchingAlways(cfg, states, steps, i, l.target, j, l.source, m.prevIndex);
    SameLog(PeerAt(states, i, l.target).log, PeerAt(states, j, l.source).log, m);
  }

  /** The request passes the term, role and log checks of recv_append_req. */
  predicate Accepts(s: PeerState, m: Message)
    requires m.AppendReq?
  {
    && m.term >= s.term
    && (m.term == s.term ==> s.role == Follower)
    && TermAndIndexExist(s.log, m.prevTerm, m.prevIndex)
  }

  lemma AcceptedLogIs(s: PeerState, source: Uid, m: Message)
    requires m.AppendReq?
    ensures Accepts(s, m) ==> RecvAppendReq(s, source, m).peer.log == UpTo(s.log, m.prevIndex) + m.entries
    ensures !Accepts(s, m) ==> RecvAppendReq(s, source, m).peer.log == s.log
  {}

  lemma SameLog(log: seq<Entry>, source: seq<Entry>, m: Message)
    requires m.AppendReq? && Describes(source, m) && m.prevIndex < |log|
    requires log[..m.prevIndex + 1] == source[..m.prevIndex + 1]
    ensures UpTo(log, m.prevIndex) + m.entries == source
  {
    assert UpTo(log, m.prevIndex) == source[..m.prevIndex + 1];
  }
}

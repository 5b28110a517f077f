/** Votes and elections keep the invariant. */
module ClusterElection {
  import opened Uids
  import opened PeerSpec
  import opened CommitRule
  import opened Clusters
  import opened ClusterInvariant
  import opened LeaderCompleteness
  import opened ClusterFrame
  import opened ClusterSteps

  // ---- Casting a vote

  lemma StandingLog(cfg: Config, h: History, q: Uid, t: nat)
    requires HistoryInv(cfg, h) && Voted(h, q, t, q)
    ensures t > 0 && WellFormed(h.ballots[At(q, t)].log, t - 1) && q in Members(cfg)
  {
    assert BallotInv(cfg, h, q, t);
  }

  /** The vote of a follower in the current term keeps what the follower accepted before. */
  lemma VoteBallotKeeps(cfg: Config, h: History, h': History, p: Uid, t: nat, q: Uid, log: seq<Entry>)
    requires HistoryInv(cfg, h)
    requires At(p, t) !in h.ballots && h' == WithBallot(h, p, t, q, log)
    requires KeptInv(h, p, t, log)
    ensures BallotKeeps(h', p, t)
  {
    if t in h.reigns && t > 0 {
      assert ElectedInv(cfg, h, t);
      assert p in h.reigns[t].voters ==> Voted(h, p, t, h.reigns[t].leader);
    } else {
      forall u: nat, n: nat | u < t && AcceptedEntry(h', p, u, n) ensures Kept(h', log, n, u, t) {
        assert AcceptedEntry(h, p, u, n);
        assert Kept(h, log, n, u, t + 1);
        if !Has(log, n, u) {
          var w: nat :| w < t + 1 && Lost(h, n, u, w);
          assert Lost(h', n, u, w) && w < t;
        }
      }
    }
  }

  lemma VoteHistory(cfg: Config, h: History, h': History, p: Uid, t: nat, q: Uid, log: seq<Entry>)
    requires HistoryInv(cfg, h) && p in Members(cfg) && p != q
    requires LogInv(h, log, t) && KeptInv(h, p, t, log)
    requires At(p, t) !in h.ballots && h' == WithBallot(h, p, t, q, log)
    requires Voted(h, q, t, q) && |h.ballots[At(q, t)].log| > 0 && UpToDate(h.ballots[At(q, t)].log, log)
    ensures GrowsBy(h, h', p) && HistoryInv(cfg, h')
  {
    BallotGrows(cfg, h, p, t, q, log);
    RecordedGrows(h, h', log);
    StandingLog(cfg, h, q, t);
    VoteBallotKeeps(cfg, h, h', p, t, q, log);
    BallotKeepsHistory(cfg, h, h', p, t);
  }

  lemma VotePeer(cfg: Config, h: History, h': History, p: Uid, s: PeerState, q: Uid)
    requires HistoryInv(cfg, h) && PeerInv(cfg, h, p, s) && s.role == Follower
    requires h' == WithBallot(h, p, s.term, q, s.log) && GrowsBy(h, h', p)
    ensures PeerInv(cfg, h', p, s.(endorsement := q))
  {
    LogPartLater(cfg, h, h', p, p, s.term, s.log, s.term);
    AcceptedLogGrows(h, h', p, p, s.term, s.log);
    if h.commits {
      CommitPartStays(cfg, h, h', p, s, s.(endorsement := q));
    }
  }

  lemma CandidateIsMember(cfg: Config, h: History, v: Uid, t: nat)
    requires HistoryInv(cfg, h) && At(v, t) in h.ballots
    ensures h.ballots[At(v, t)].candidate in Members(cfg)
  {
    assert BallotInv(cfg, h, v, t);
  }

  lemma CountedVoted(cfg: Config, h: History, c: Uid, t: nat, v: Uid)
    requires HistoryInv(cfg, h) && At(c, t) in h.counted && v in h.counted[At(c, t)]
    ensures Voted(h, v, t, c) && v in Members(cfg)
  {
    assert CountedInv(cfg, h, c, t);
  }

  /** A follower that has not endorsed anyone has not voted in its term. */
  lemma NotVotedYet(cfg: Config, h: History, p: Uid, s: PeerState)
    requires ValidConfig(cfg) && HistoryInv(cfg, h) && RoleInv(h, s) && s.id == p
    requires s.role == Follower && s.endorsement == EMPTY_UID
    ensures At(p, s.term) !in h.ballots
  {
    if At(p, s.term) in h.ballots {
      CandidateIsMember(cfg, h, p, s.term);
      assert false;
    }
  }

  lemma VoteNews(cfg: Config, c: Cluster, h: History, p: Uid, t: nat, q: Uid, log: seq<Entry>)
    requires Inv(cfg, c, h)
    ensures AllNews(c, WithBallot(h, p, t, q, log))
  {
    InvIsNews(cfg, c, h);
    forall l, i | l in c.queues && 0 <= i < |c.queues[l]|
      ensures NewsInv(WithBallot(h, p, t, q, log), l, c.queues[l][i])
    {
      assert NewsInv(h, l, c.queues[l][i]);
    }
  }

  /** A grant answers the first vote of its voter in its term, so it meets no other grant. */
  lemma GrantMaySend(cfg: Config, c: Cluster, h: History, h': History, p: Uid, t: nat, q: Uid, log: seq<Entry>)
    requires Inv(cfg, c, h) && Link(p, q) in c.queues
    requires At(p, t) !in h.ballots && h' == WithBallot(h, p, t, q, log)
    ensures CanSend(cfg, h', c.queues[Link(p, q)], Link(p, q), ElectionRsp(t, true, t))
  {
    var l := Link(p, q);
    assert QueueInv(cfg, h, l, c.queues[l]);
    if At(q, t) in h'.counted && p in h'.counted[At(q, t)] {
      CountedVoted(cfg, h, q, t, p);
      assert false;
    }
    forall i | 0 <= i < |c.queues[l]| ensures OrderInv(c.queues[l][i], ElectionRsp(t, true, t)) {
      assert MessageInv(cfg, h, l, c.queues[l][i]);
    }
  }

  lemma RefusalMaySend(cfg: Config, h: History, q: seq<Message>, l: Link, t: nat, r: nat)
    requires r <= t
    ensures CanSend(cfg, h, q, l, ElectionRsp(t, false, r))
  {}

  /** Handling an election request once the term check is done. */
  lemma ElectionReqKeepsInv(cfg: Config, c: Cluster, h: History, l: Link, m: Message) returns (h': History)
    requires Inv(cfg, c, h) && l in c.queues && m.ElectionReq?
    requires MessageInv(cfg, h, l, m) && m.term <= c.peers[l.target].term && |c.peers[l.target].log| > 0
    ensures Inv(cfg, Become(c, l.target, RecvElectionReq(c.peers[l.target], l.source, m)), h')
    ensures GrowsBy(h, h', l.target)
  {
    var p, q := l.target, l.source;
    var s, back := c.peers[p], Link(p, q);
    PeerOf(cfg, c, h, p);
    SameHistory(h, p);
    h' := h;
    if m.term < s.term {
      RefusalMaySend(cfg, h, c.queues[back], back, s.term, m.term);
      ReplyKeepsInv(cfg, c, h, p, s, q, ElectionRsp(s.term, false, m.term));
    } else if s.role != Follower {
      QuietKeepsInv(cfg, c, h, p, s);
    } else if s.endorsement == EMPTY_UID && LogNotAhead(s, m.lastTerm, m.lastIndex) {
      h' := GrantKeepsInv(cfg, c, h, l, m, s, RecvElectionReq(s, q, m));
    } else {
      RefusalMaySend(cfg, h, c.queues[back], back, s.term, m.term);
      ReplyKeepsInv(cfg, c, h, p, s, q, ElectionRsp(s.term, false, m.term));
    }
  }

  lemma GrantKeeps(cfg: Config, h: History, h': History, p: Uid, s: PeerState, q: Uid)
    requires ValidConfig(cfg) && HistoryInv(cfg, h) && PeerInv(cfg, h, p, s) && p != q
    requires s.role == Follower && s.endorsement == EMPTY_UID && h' == WithBallot(h, p, s.term, q, s.log)
    requires Voted(h, q, s.term, q) && |h.ballots[At(q, s.term)].log| > 0
    requires UpToDate(h.ballots[At(q, s.term)].log, s.log)
    ensures At(p, s.term) !in h.ballots
    ensures GrowsBy(h, h', p) && HistoryInv(cfg, h') && PeerInv(cfg, h', p, s.(endorsement := q))
  {
    NotVotedYet(cfg, h, p, s);
    VoteHistory(cfg, h, h', p, s.term, q, s.log);
    VotePeer(cfg, h, h', p, s, q);
  }

  lemma GrantIsReady(cfg: Config, c: Cluster, h: History, l: Link, m: Message, s: PeerState, h': History)
    requires Inv(cfg, c, h) && l in c.queues && m.ElectionReq? && MessageInv(cfg, h, l, m)
    requires c.peers[l.target] == s && m.term == s.term && |s.log| > 0
    requires s.role == Follower && s.endorsement == EMPTY_UID && LogNotAhead(s, m.lastTerm, m.lastIndex)
    requires h' == WithBallot(h, l.target, s.term, l.source, s.log)
    ensures GrowsBy(h, h', l.target) && HistoryInv(cfg, h') && PeerInv(cfg, h', l.target, s.(endorsement := l.source))
    ensures At(l.target, s.term) !in h.ballots
  {
    PeerOf(cfg, c, h, l.target);
    GrantKeeps(cfg, h, h', l.target, s, l.source);
  }

  lemma GrantKeepsInv(cfg: Config, c: Cluster, h: History, l: Link, m: Message, s: PeerState, e: Effect) returns (h': History)
    requires Inv(cfg, c, h) && l in c.queues && m.ElectionReq? && MessageInv(cfg, h, l, m)
    requires c.peers[l.target] == s && m.term == s.term && |s.log| > 0
    requires s.role == Follower && s.endorsement == EMPTY_UID && LogNotAhead(s, m.lastTerm, m.lastIndex)
    requires e == Effect(s.(endorsement := l.source), [Packet(l.source, ElectionRsp(m.term, true, m.term))])
    ensures Inv(cfg, Become(c, l.target, e), h')
    ensures GrowsBy(h, h', l.target)
  {
    var p, q := l.target, l.source;
    h' := WithBallot(h, p, s.term, q, s.log);
    GrantIsReady(cfg, c, h, l, m, s, h');
    GrantIsSent(cfg, c, h, h', p, s.term, q, s.log, e);
  }

  lemma GrantIsSent(cfg: Config, c: Cluster, h: History, h': History, p: Uid, t: nat, q: Uid, log: seq<Entry>, e: Effect)
    requires Inv(cfg, c, h) && p in c.peers && Link(p, q) in c.queues && At(p, t) !in h.ballots
    requires h' == WithBallot(h, p, t, q, log)
    requires GrowsBy(h, h', p) && HistoryInv(cfg, h') && PeerInv(cfg, h', p, e.peer)
    requires e.sent == [Packet(q, ElectionRsp(t, true, t))]
    ensures Inv(cfg, Become(c, p, e), h')
  {
    VoteNews(cfg, c, h, p, t, q, log);
    GrantMaySend(cfg, c, h, h', p, t, q, log);
    OneReplyKeepsInv(cfg, c, h, h', p, e.peer, q, ElectionRsp(t, true, t));
  }

  // ---- Counting votes

  lemma CountPeer(cfg: Config, h: History, h': History, p: Uid, s: PeerState, s': PeerState, voters: set<Uid>)
    requires HistoryInv(cfg, h) && PeerInv(cfg, h, p, s) && s.role == Candidate
    requires h' == WithCounted(h, p, s.term, voters) && GrowsBy(h, h', p)
    requires |voters| == s.electionVotes + 1
    requires s' == s.(electionVotes := s.electionVotes + 1)
    ensures PeerInv(cfg, h', p, s')
  {
    LogPartLater(cfg, h, h', p, p, s.term, s.log, s.term);
    AcceptedLogGrows(h, h', p, p, s.term, s.log);
    if h.commits {
      CommitPartStays(cfg, h, h', p, s, s');
    }
  }

  /** Votes still in flight come from voters not counted yet. */
  lemma CountNews(cfg: Config, c: Cluster, h: History, p: Uid, t: nat, v: Uid, voters: set<Uid>)
    requires Inv(cfg, c, h) && At(p, t) in h.counted && voters == h.counted[At(p, t)] + {v}
    requires Link(v, p) in c.queues
    requires forall i | 0 <= i < |c.queues[Link(v, p)]| :: OrderInv(ElectionRsp(t, true, t), c.queues[Link(v, p)][i])
    ensures AllNews(c, WithCounted(h, p, t, voters))
  {
    InvIsNews(cfg, c, h);
    forall l, i | l in c.queues && 0 <= i < |c.queues[l]|
      ensures NewsInv(WithCounted(h, p, t, voters), l, c.queues[l][i])
    {
      assert NewsInv(h, l, c.queues[l][i]);
      assert l == Link(l.source, l.target);
    }
  }

  lemma CountVotes(cfg: Config, h: History, p: Uid, t: nat, v: Uid) returns (voters: set<Uid>)
    requires HistoryInv(cfg, h) && At(p, t) in h.counted && v in Members(cfg)
    requires Voted(h, v, t, p) && v !in h.counted[At(p, t)]
    ensures voters == h.counted[At(p, t)] + {v} && |voters| == |h.counted[At(p, t)]| + 1
    ensures forall w | w in voters :: w in Members(cfg) && Voted(h, w, t, p)
    ensures p in voters && p in Members(cfg)
    ensures GrowsBy(h, WithCounted(h, p, t, voters), p) && HistoryInv(cfg, WithCounted(h, p, t, voters))
  {
    voters := h.counted[At(p, t)] + {v};
    assert CountedInv(cfg, h, p, t);
    CountedKeepsHistory(cfg, h, p, t, voters);
  }

  // ---- Winning

  ghost function Crowned(h: History, p: Uid, t: nat, log: seq<Entry>, voters: set<Uid>): History {
    h.(reigns := h.reigns[t := Reign(p, |log|, log, voters)],
       accepted := h.accepted[At(p, t) := |log|])
  }

  lemma VoterVoted(cfg: Config, h: History, t: nat, v: Uid)
    requires HistoryInv(cfg, h) && t in h.reigns && t > 0 && v in h.reigns[t].voters
    ensures Voted(h, v, t, h.reigns[t].leader)
  {
    assert ElectedInv(cfg, h, t);
  }

  /** The term of a candidate that holds a majority has no leader yet. */
  lemma TermIsVacant(cfg: Config, h: History, p: Uid, s: PeerState, voters: set<Uid>)
    requires ValidConfig(cfg) && HistoryInv(cfg, h) && TermInv(h, s) && s.id == p && s.role == Candidate
    requires s.term > 0 && IsMajority(|voters|, ClusterSize(cfg))
    requires forall w | w in voters :: w in Members(cfg) && Voted(h, w, s.term, p)
    ensures s.term !in h.reigns
  {
    if s.term in h.reigns {
      assert ElectedInv(cfg, h, s.term);
      var v := MajoritiesMeet(cfg, voters, h.reigns[s.term].voters);
      VoterVoted(cfg, h, s.term, v);
      assert false;
    }
  }

  lemma CrownGrows(h: History, p: Uid, t: nat, log: seq<Entry>, voters: set<Uid>)
    requires t !in h.reigns && At(p, t) !in h.accepted
    ensures GrowsBy(h, Crowned(h, p, t, log, voters), p)
  {}

  lemma CrownReign(cfg: Config, h: History, h': History, p: Uid, t: nat, log: seq<Entry>, voters: set<Uid>)
    requires t !in h.reigns && At(p, t) !in h.accepted && h' == Crowned(h, p, t, log, voters)
    requires LogInv(h, log, t - 1)
    ensures ReignInv(h', t)
  {
    CrownGrows(h, p, t, log, voters);
    RecordedGrows(h, h', log);
  }

  lemma CrownHistory(cfg: Config, h: History, h': History, p: Uid, t: nat, log: seq<Entry>, voters: set<Uid>)
    requires HistoryInv(cfg, h) && t !in h.reigns && h' == Crowned(h, p, t, log, voters)
    requires At(p, t) !in h.accepted && (forall u: nat | At(p, u) in h.ballots :: u <= t)
    requires LogInv(h, log, t - 1) && t > 0
    requires Voted(h, p, t, p) && h.ballots[At(p, t)].log == log
    requires voters <= Members(cfg) && p in Members(cfg) && IsMajority(|voters|, ClusterSize(cfg))
    requires forall w | w in voters :: Voted(h, w, t, p)
    ensures GrowsBy(h, h', p) && HistoryInv(cfg, h')
  {
    CrownGrows(h, p, t, log, voters);
    CrownReign(cfg, h, h', p, t, log, voters);
    assert ElectedInv(cfg, h', t) by {
      assert log[..|log|] == log;
    }
    forall b | b in h.ballots && b.peer == p ensures b.term <= t {
      assert b == At(p, b.term);
    }
    FrameHistory(cfg, h, h', p);
  }

  lemma NotAcceptedYet(cfg: Config, h: History, p: Uid, t: nat)
    requires HistoryInv(cfg, h) && t !in h.reigns
    ensures At(p, t) !in h.accepted
  {
    if At(p, t) in h.accepted {
      AcceptedReign(cfg, h, p, t);
      assert false;
    }
  }

  lemma AcceptedReign(cfg: Config, h: History, p: Uid, t: nat)
    requires HistoryInv(cfg, h) && At(p, t) in h.accepted
    ensures t in h.reigns && h.reigns[t].base <= h.accepted[At(p, t)] <= |h.reigns[t].log|
  {
    assert AcceptedInv(cfg, h, p, t);
  }

  /** What the new leader holds committed is a stable prefix of its reign. */
  lemma CrownStable(cfg: Config, h: History, h': History, p: Uid, t: nat, log: seq<Entry>, voters: set<Uid>, c: nat)
    requires t !in h.reigns && At(p, t) !in h.accepted && h' == Crowned(h, p, t, log, voters)
    requires HoldsCommitted(cfg, h, p, t, log, c)
    ensures Stable(cfg, h', t, c) && HoldsCommitted(cfg, h', p, t, log, c)
  {
    CrownGrows(h, p, t, log, voters);
    var u: nat :| u <= t && Stable(cfg, h, u, c) && h.reigns[u].log[..c + 1] == log[..c + 1]
      && (u == t ==> At(p, u) in h.accepted && c < h.accepted[At(p, u)]);
    StableLater(cfg, h, h', u, t, c);
  }

  lemma StableLater(cfg: Config, h: History, h': History, u: nat, t: nat, c: nat)
    requires Extends(h, h') && Stable(cfg, h, u, c) && u <= t && t in h'.reigns
    requires c < |h'.reigns[t].log| && h'.reigns[t].log[..c + 1] == h.reigns[u].log[..c + 1]
    ensures Stable(cfg, h', t, c)
  {
    StableGrows(cfg, h, h', u, c);
    ReignPrefix(h, h', u, c + 1);
    var w: nat, n: nat :| w <= u && c <= n && Committed(cfg, h', w, n)
      && h'.reigns[w].log[..c + 1] == h'.reigns[u].log[..c + 1];
    assert w <= t;
  }

  lemma CrownKept(cfg: Config, h: History, h': History, p: Uid, t: nat, log: seq<Entry>, voters: set<Uid>)
    requires HistoryInv(cfg, h) && t !in h.reigns && At(p, t) !in h.accepted && h' == Crowned(h, p, t, log, voters)
    requires KeptInv(h, p, t, log) && WellFormed(log, t - 1)
    ensures KeptInv(h', p, t, log)
  {
    CrownGrows(h, p, t, log, voters);
    forall u: nat, n: nat | AcceptedEntry(h', p, u, n) ensures Kept(h', log, n, u, t + 1) {
      if u != t {
        AcceptedEntryBack(cfg, h, h', p, p, u, n);
        KeptGrows(h, h', log, n, u, t + 1);
      }
    }
  }

  lemma CrownLogPart(cfg: Config, h: History, h': History, p: Uid, s: PeerState, s': PeerState, voters: set<Uid>)
    requires HistoryInv(cfg, h) && LogPart(cfg, h, p, s) && s.role == Candidate && s.term > 0
    requires s.term !in h.reigns && At(p, s.term) !in h.accepted
    requires h' == Crowned(h, p, s.term, s.log, voters)
    requires WellFormed(s.log, s.term - 1)
    requires s' == s.(role := Leader, lastCheckpoint := s'.lastCheckpoint)
    ensures LogPart(cfg, h', p, s')
  {
    CrownGrows(h, p, s.term, s.log, voters);
    LogGrows(h, h', s.log, s.term);
    CrownKept(cfg, h, h', p, s.term, s.log, voters);
    assert s.log[..|s.log|] == s.log;
  }

  lemma CrownCommitPart(cfg: Config, h: History, h': History, p: Uid, s: PeerState, s': PeerState, voters: set<Uid>)
    requires HistoryInv(cfg, h) && CommitPart(cfg, h, p, s) && s.role == Candidate
    requires s.term !in h.reigns && At(p, s.term) !in h.accepted
    requires h' == Crowned(h, p, s.term, s.log, voters)
    requires WellFormed(s.log, s.term - 1) && s.indices == map[]
    requires s' == s.(role := Leader, lastCheckpoint := s'.lastCheckpoint)
    ensures CommitPart(cfg, h', p, s')
  {
    CrownStable(cfg, h, h', p, s.term, s.log, voters, s.commitIndex);
  }

  lemma CrownPeer(cfg: Config, h: History, h': History, p: Uid, s: PeerState, s': PeerState, voters: set<Uid>)
    requires HistoryInv(cfg, h) && PeerInv(cfg, h, p, s) && s.role == Candidate && s.term > 0
    requires s.term !in h.reigns && At(p, s.term) !in h.accepted
    requires h' == Crowned(h, p, s.term, s.log, voters)
    requires WellFormed(s.log, s.term - 1) && (h.commits ==> s.indices == map[])
    requires s' == s.(role := Leader, lastCheckpoint := s'.lastCheckpoint)
    ensures PeerInv(cfg, h', p, s')
  {
    CrownLogPart(cfg, h, h', p, s, s', voters);
    if h.commits {
      CrownCommitPart(cfg, h, h', p, s, s', voters);
    }
  }

  lemma CrownNews(cfg: Config, c: Cluster, h: History, p: Uid, t: nat, log: seq<Entry>, voters: set<Uid>)
    requires Inv(cfg, c, h) && t !in h.reigns
    ensures AllNews(c, Crowned(h, p, t, log, voters))
  {
    InvIsNews(cfg, c, h);
    forall l, i | l in c.queues && 0 <= i < |c.queues[l]|
      ensures NewsInv(Crowned(h, p, t, log, voters), l, c.queues[l][i])
    {
      assert QueueInv(cfg, h, l, c.queues[l]);
      assert MessageInv(cfg, h, l, c.queues[l][i]);
      assert NewsInv(h, l, c.queues[l][i]);
    }
  }

  // ---- What a leader sends

  /** Every request of a leader runs to the end of its log, so it may follow whatever it sent before. */
  lemma LeaderMaySend(cfg: Config, h: History, h': History, p: Uid, s: PeerState, prevIndex: nat, l: Link, q: seq<Message>)
    requires HistoryInv(cfg, h') && GrowsBy(h, h', p) && PeerInv(cfg, h', p, s) && s.role == Leader
    requires prevIndex < |s.log| && l.source == p && QueueInv(cfg, h, l, q)
    ensures CanSend(cfg, h', q, l, PrefixRequest(s, prevIndex))
  {
    var m := PrefixRequest(s, prevIndex);
    LeaderMessage(cfg, h', p, s, prevIndex, l);
    if At(l.target, s.term) in h'.accepted {
      AcceptedReign(cfg, h', l.target, s.term);
    }
    forall i | 0 <= i < |q| ensures OrderInv(q[i], m) {
      assert MessageInv(cfg, h, l, q[i]);
      if q[i].AppendReq? && q[i].term == s.term {
        assert ReignGrows(h.reigns[s.term], h'.reigns[s.term], s.term);
      }
    }
  }

  lemma LeaderMessage(cfg: Config, h: History, p: Uid, s: PeerState, prevIndex: nat, l: Link)
    requires HistoryInv(cfg, h) && PeerInv(cfg, h, p, s) && s.role == Leader
    requires prevIndex < |s.log| && l.source == p
    ensures MessageInv(cfg, h, l, PrefixRequest(s, prevIndex)) && End(PrefixRequest(s, prevIndex)) == |s.log|
  {
    assert ReignInv(h, s.term);
    assert s.log[prevIndex].index == prevIndex;
    assert s.log[prevIndex + 1..] == s.log[prevIndex + 1..|s.log|];
  }

  lemma LeaderBroadcastAllowed(cfg: Config, c: Cluster, h: History, h': History, p: Uid, s: PeerState, prevIndex: nat)
    requires Inv(cfg, c, h) && HistoryInv(cfg, h') && GrowsBy(h, h', p) && PeerInv(cfg, h', p, s) && s.role == Leader
    requires prevIndex < |s.log|
    ensures BroadcastAllowed(cfg, c, h', p, PrefixRequest(s, prevIndex))
  {
    forall l | l in c.queues && l.source == p ensures CanSend(cfg, h', c.queues[l], l, PrefixRequest(s, prevIndex)) {
      LeaderMaySend(cfg, h, h', p, s, prevIndex, l, c.queues[l]);
    }
  }

  lemma LeaderBroadcastKeepsInv(cfg: Config, c: Cluster, h: History, p: Uid, s: PeerState, prevIndex: nat, m: Message)
    requires Inv(cfg, c, h) && p in c.peers && PeerInv(cfg, h, p, s) && s.role == Leader
    requires prevIndex < |s.log| && m == PrefixRequest(s, prevIndex)
    ensures Inv(cfg, Become(c, p, Effect(s, Broadcast(cfg.members, p, m))), h)
  {
    InvIsNews(cfg, c, h);
    SameHistory(h, p);
    LeaderBroadcastAllowed(cfg, c, h, h, p, s, prevIndex);
    BroadcastKeepsInv(cfg, c, h, h, p, s, m);
  }

  /** A heartbeat. */
  lemma HeartbeatKeepsInv(cfg: Config, c: Cluster, h: History, p: Uid, s: PeerState)
    requires Inv(cfg, c, h) && p in c.peers && c.peers[p] == s && s.role == Leader && |s.log| > 0
    ensures Inv(cfg, Become(c, p, Effect(s, Heartbeat(s))), h)
  {
    PeerOf(cfg, c, h, p);
    assert Heartbeat(s) == Broadcast(cfg.members, p, PrefixRequest(s, |s.log| - 1));
    LeaderBroadcastKeepsInv(cfg, c, h, p, s, |s.log| - 1, PrefixRequest(s, |s.log| - 1));
  }

  // ---- Handling a vote

  /** Counts the vote and, with a majority, opens the new reign; heartbeats follow. */
  lemma WinKeepsInv(cfg: Config, c: Cluster, h: History, p: Uid, voters: set<Uid>, s': PeerState) returns (h': History)
    requires Inv(cfg, c, h) && p in c.peers && c.peers[p].role == Candidate
    requires At(p, c.peers[p].term) in h.counted && h.counted[At(p, c.peers[p].term)] == voters
    requires IsMajority(c.peers[p].electionVotes, ClusterSize(cfg))
    requires h.commits ==> c.peers[p].indices == map[]
    requires s' == c.peers[p].(role := Leader, lastCheckpoint := s'.lastCheckpoint)
    ensures Inv(cfg, Become(c, p, Effect(s', [])), h')
    ensures GrowsBy(h, h', p)
  {
    var s := c.peers[p];
    PeerOf(cfg, c, h, p);
    StandingLog(cfg, h, p, s.term);
    CountedAllVoted(cfg, h, p, s.term);
    TermIsVacant(cfg, h, p, s, voters);
    NotAcceptedYet(cfg, h, p, s.term);
    h' := Crowned(h, p, s.term, s.log, voters);
    CrownHistory(cfg, h, h', p, s.term, s.log, voters);
    CrownPeer(cfg, h, h', p, s, s', voters);
    CrownNews(cfg, c, h, p, s.term, s.log, voters);
    assert SendsAllowed(cfg, c, h', p, []);
    StepKeepsInv(cfg, c, h, h', p, Effect(s', []));
  }

  lemma CountedAllVoted(cfg: Config, h: History, c: Uid, t: nat)
    requires HistoryInv(cfg, h) && At(c, t) in h.counted
    ensures h.counted[At(c, t)] <= Members(cfg)
    ensures forall v | v in h.counted[At(c, t)] :: v in Members(cfg) && Voted(h, v, t, c)
  {
    assert CountedInv(cfg, h, c, t);
  }

  lemma CountKeepsInv(cfg: Config, c: Cluster, h: History, l: Link, s: PeerState, s1: PeerState) returns (h': History)
    requires Inv(cfg, c, h) && l in c.queues && c.peers[l.target] == s && s.role == Candidate
    requires MessageInv(cfg, h, l, ElectionRsp(s.term, true, s.term)) && NewsInv(h, l, ElectionRsp(s.term, true, s.term))
    requires forall i | 0 <= i < |c.queues[l]| :: OrderInv(ElectionRsp(s.term, true, s.term), c.queues[l][i])
    requires s1 == s.(electionVotes := s.electionVotes + 1)
    ensures Inv(cfg, Become(c, l.target, Effect(s1, [])), h')
    ensures GrowsBy(h, h', l.target)
  {
    var p, v := l.target, l.source;
    assert l == Link(v, p);
    PeerOf(cfg, c, h, p);
    var voters := CountVotes(cfg, h, p, s.term, v);
    h' := WithCounted(h, p, s.term, voters);
    CountPeer(cfg, h, h', p, s, s1, voters);
    CountNews(cfg, c, h, p, s.term, v, voters);
    assert SendsAllowed(cfg, c, h', p, []);
    StepKeepsInv(cfg, c, h, h', p, Effect(s1, []));
  }

  lemma GrantCounts(s: PeerState, source: Uid, m: Message)
    requires m.ElectionRsp? && m.success && m.term == s.term && s.role == Candidate && |s.log| > 0
    ensures var s1 := s.(electionVotes := s.electionVotes + 1);
      RecvElectionRsp(s, source, m) ==
        if s1.electionVotes > |s.members| / 2 then Effect(BecomeLeader(s1), Heartbeat(s1)) else Effect(s1, [])
  {}

  lemma CandidateKeepsInv(cfg: Config, c: Cluster, h: History, l: Link, s: PeerState, s1: PeerState, e: Effect)
    returns (h': History)
    requires Inv(cfg, c, h) && l in c.queues && c.peers[l.target] == s && |s.log| > 0 && s.role == Candidate
    requires MessageInv(cfg, h, l, ElectionRsp(s.term, true, s.term)) && NewsInv(h, l, ElectionRsp(s.term, true, s.term))
    requires forall i | 0 <= i < |c.queues[l]| :: OrderInv(ElectionRsp(s.term, true, s.term), c.queues[l][i])
    requires s1 == s.(electionVotes := s.electionVotes + 1) && s.members == cfg.members
    requires s1.electionVotes > |s.members| / 2 ==>
      e == Effect(BecomeLeader(s1), Heartbeat(s1)) && (h.commits ==> s.indices == map[])
    requires s1.electionVotes <= |s.members| / 2 ==> e == Effect(s1, [])
    ensures Inv(cfg, Become(c, l.target, e), h')
    ensures GrowsBy(h, h', l.target)
  {
    h' := CountKeepsInv(cfg, c, h, l, s, s1);
    if s1.electionVotes > |s.members| / 2 {
      h' := VictoryKeepsInv(cfg, c, h, h', l.target, s1);
    }
  }

  lemma MembersOf(cfg: Config, c: Cluster, h: History, p: Uid)
    requires Inv(cfg, c, h) && p in c.peers
    ensures c.peers[p].members == cfg.members
  {
    PeerOf(cfg, c, h, p);
  }

  /** Handling an election response once the term check is done. */
  lemma ElectionRspKeepsInv(cfg: Config, c: Cluster, h: History, l: Link, m: Message) returns (h': History)
    requires Inv(cfg, c, h) && l in c.queues && m.ElectionRsp? && |c.peers[l.target].log| > 0
    requires MessageInv(cfg, h, l, m) && NewsInv(h, l, m)
    requires forall i | 0 <= i < |c.queues[l]| :: OrderInv(m, c.queues[l][i])
    requires m.term <= c.peers[l.target].term
    requires m.success && c.peers[l.target].role == Candidate ==> m.term == c.peers[l.target].term
    requires h.commits ==> P3FreshIndices(c.peers[l.target], l.source, m)
    ensures Inv(cfg, Become(c, l.target, RecvElectionRsp(c.peers[l.target], l.source, m)), h')
    ensures GrowsBy(h, h', l.target)
  {
    var s := c.peers[l.target];
    if s.role != Candidate || !m.success {
      h' := h;
      PeerOf(cfg, c, h, l.target);
      SameHistory(h, l.target);
      QuietKeepsInv(cfg, c, h, l.target, s);
    } else {
      GrantCounts(s, l.source, m);
      assert m == ElectionRsp(s.term, true, s.term);
      MembersOf(cfg, c, h, l.target);
      h' := CandidateKeepsInv(cfg, c, h, l, s, s.(electionVotes := s.electionVotes + 1), RecvElectionRsp(s, l.source, m));
    }
  }

  lemma VictoryHeartbeat(s: PeerState)
    requires |s.log| > 0
    ensures Heartbeat(BecomeLeader(s)) == Heartbeat(s)
  {}

  lemma VictoryKeepsInv(cfg: Config, c: Cluster, h: History, h1: History, p: Uid, s1: PeerState) returns (h2: History)
    requires p in c.peers && Inv(cfg, Become(c, p, Effect(s1, [])), h1) && GrowsBy(h, h1, p)
    requires s1.role == Candidate && IsMajority(s1.electionVotes, ClusterSize(cfg)) && |s1.log| > 0
    requires h.commits ==> s1.indices == map[]
    ensures Inv(cfg, Become(c, p, Effect(BecomeLeader(s1), Heartbeat(s1))), h2)
    ensures GrowsBy(h, h2, p)
  {
    var c1 := Become(c, p, Effect(s1, []));
    PeerOf(cfg, c1, h1, p);
    var s2 := BecomeLeader(s1);
    h2 := WinKeepsInv(cfg, c1, h1, p, h1.counted[At(p, s1.term)], s2);
    var c2 := Become(c1, p, Effect(s2, []));
    VictoryHeartbeat(s1);
    HeartbeatKeepsInv(cfg, c2, h2, p, s2);
    BecomeAfterQuiet(c1, p, s2, Effect(s2, Heartbeat(s1)));
    BecomeAfterQuiet(c, p, s1, Effect(s2, Heartbeat(s1)));
    GrowsTransitive(h, h1, h2, p);
  }
}

/** What a step of one peer leaves true of history, of the other peers and of the messages. */
module ClusterFrame {
  import opened Uids
  import opened PeerSpec
  import opened Clusters
  import opened ClusterInvariant
  import opened LeaderCompleteness

  lemma RecordedGrows(h: History, h': History, log: seq<Entry>)
    requires Extends(h, h') && Recorded(h, log)
    ensures Recorded(h', log)
  {
    forall i | 0 <= i < |log| ensures RecordedAt(h', log, i) {
      assert RecordedAt(h, log, i);
      var t := log[i].term;
      var a, b := h.reigns[t].log, h'.reigns[t].log;
      assert ReignGrows(h.reigns[t], h'.reigns[t], t);
      assert b[..|a|] == a;
      ShorterPrefix(a, b, i + 1, |a|);
    }
  }

  lemma AcceptedEntryForward(h: History, h': History, q: Uid, t: nat, n: nat)
    requires Extends(h, h') && AcceptedEntry(h, q, t, n)
    ensures AcceptedEntry(h', q, t, n)
  {
    assert ReignGrows(h.reigns[t], h'.reigns[t], t);
  }

  lemma AcceptedEntryBack(cfg: Config, h: History, h': History, p: Uid, q: Uid, t: nat, n: nat)
    requires HistoryInv(cfg, h) && GrowsBy(h, h', p) && AcceptedEntry(h', q, t, n)
    requires At(q, t) in h.accepted && h.accepted[At(q, t)] == h'.accepted[At(q, t)]
    ensures AcceptedEntry(h, q, t, n)
  {
    assert AcceptedInv(cfg, h, q, t);
    assert ReignGrows(h.reigns[t], h'.reigns[t], t);
  }

  lemma LostGrows(h: History, h': History, n: nat, t: nat, u: nat)
    requires Extends(h, h') && Lost(h, n, t, u)
    ensures Lost(h', n, t, u)
  {
    assert ReignGrows(h.reigns[u], h'.reigns[u], u);
  }

  lemma KeptGrows(h: History, h': History, log: seq<Entry>, n: nat, t: nat, top: nat)
    requires Extends(h, h') && Kept(h, log, n, t, top)
    ensures Kept(h', log, n, t, top)
  {
    if !Has(log, n, t) {
      var u: nat :| u < top && Lost(h, n, t, u);
      LostGrows(h, h', n, t, u);
    }
  }

  lemma CommittedGrows(cfg: Config, h: History, h': History, t: nat, n: nat)
    requires Extends(h, h') && Committed(cfg, h, t, n)
    ensures Committed(cfg, h', t, n)
  {
    assert ReignGrows(h.reigns[t], h'.reigns[t], t);
    forall q | q in Acceptors(cfg, h, t, n) ensures q in Acceptors(cfg, h', t, n) {
      AcceptedEntryForward(h, h', q, t, n);
    }
    SubsetSize(Acceptors(cfg, h, t, n), Acceptors(cfg, h', t, n));
  }

  lemma ReignPrefix(h: History, h': History, t: nat, i: nat)
    requires Extends(h, h') && t in h.reigns && i <= |h.reigns[t].log|
    ensures i <= |h'.reigns[t].log| && h'.reigns[t].log[..i] == h.reigns[t].log[..i]
  {
    assert ReignGrows(h.reigns[t], h'.reigns[t], t);
    var a, b := h.reigns[t].log, h'.reigns[t].log;
    assert b[..|a|] == a[..|a|];
    ShorterPrefix(a, b, i, |a|);
  }

  lemma StableGrows(cfg: Config, h: History, h': History, t: nat, c: nat)
    requires Extends(h, h') && Stable(cfg, h, t, c)
    ensures Stable(cfg, h', t, c)
  {
    var u: nat, n: nat :| u <= t && c <= n && Committed(cfg, h, u, n)
      && h.reigns[u].log[..c + 1] == h.reigns[t].log[..c + 1];
    CommittedGrows(cfg, h, h', u, n);
    ReignPrefix(h, h', u, c + 1);
    ReignPrefix(h, h', t, c + 1);
  }

  lemma HoldsCommittedGrows(cfg: Config, h: History, h': History, q: Uid, term: nat, log: seq<Entry>, c: nat)
    requires Extends(h, h') && HoldsCommitted(cfg, h, q, term, log, c)
    ensures HoldsCommitted(cfg, h', q, term, log, c)
  {
    var t: nat :| t <= term && Stable(cfg, h, t, c) && h.reigns[t].log[..c + 1] == log[..c + 1]
      && (t == term ==> At(q, t) in h.accepted && c < h.accepted[At(q, t)]);
    StableGrows(cfg, h, h', t, c);
    ReignPrefix(h, h', t, c + 1);
  }

  // ---- A peer's log

  /** Peer q accepted nothing new. */
  ghost predicate SameAccepted(h: History, h': History, q: Uid) {
    forall k | k in h'.accepted && k.peer == q :: k in h.accepted && h'.accepted[k] == h.accepted[k]
  }

  lemma LogGrows(h: History, h': History, log: seq<Entry>, top: int)
    requires Extends(h, h') && LogInv(h, log, top)
    ensures LogInv(h', log, top)
  {
    RecordedGrows(h, h', log);
  }

  lemma AcceptedLogGrows(h: History, h': History, p: Uid, q: Uid, term: nat, log: seq<Entry>)
    requires GrowsBy(h, h', p) && SameAccepted(h, h', q) && AcceptedLogInv(h, q, term, log)
    ensures AcceptedLogInv(h', q, term, log)
  {
    if At(q, term) in h'.accepted {
      assert At(q, term).peer == q;
      ReignPrefix(h, h', term, h.accepted[At(q, term)]);
    }
  }

  lemma KeptInvGrows(cfg: Config, h: History, h': History, p: Uid, q: Uid, term: nat, log: seq<Entry>)
    requires HistoryInv(cfg, h) && GrowsBy(h, h', p) && SameAccepted(h, h', q) && KeptInv(h, q, term, log)
    ensures KeptInv(h', q, term, log)
  {
    forall t: nat, n: nat | AcceptedEntry(h', q, t, n) ensures Kept(h', log, n, t, term + 1) {
      assert At(q, t).peer == q;
      AcceptedEntryBack(cfg, h, h', p, q, t, n);
      KeptGrows(h, h', log, n, t, term + 1);
    }
  }

  // ---- Other peers

  lemma FrameRole(h: History, h': History, p: Uid, s: PeerState)
    requires GrowsBy(h, h', p) && s.id != p && RoleInv(h, s)
    ensures RoleInv(h', s)
  {}

  lemma LeaderCommitsGrows(cfg: Config, h: History, h': History, s: PeerState, s': PeerState)
    requires Extends(h, h') && LeaderCommits(cfg, h, s)
    requires s'.id == s.id && s'.term == s.term && s'.commitIndex == s.commitIndex && s'.indices == s.indices
    ensures LeaderCommits(cfg, h', s')
  {
    StableGrows(cfg, h, h', s.term, s.commitIndex);
    forall f | f in s'.indices ensures ReportInv(cfg, h', s', f) {
      assert ReportInv(cfg, h, s, f);
    }
  }

  lemma LaterTermHolds(cfg: Config, h: History, p: Uid, term: nat, log: seq<Entry>, c: nat, later: nat)
    requires HoldsCommitted(cfg, h, p, term, log, c) && term < later
    ensures HoldsCommitted(cfg, h, p, later, log, c)
  {
    var t: nat :| t <= term && Stable(cfg, h, t, c) && h.reigns[t].log[..c + 1] == log[..c + 1]
      && (t == term ==> At(p, t) in h.accepted && c < h.accepted[At(p, t)]);
    assert t <= later;
  }

  /** A peer that commits nothing, appends nothing and does not become leader keeps what is known of its
      commitments, whatever else happens. */
  lemma CommitPartStays(cfg: Config, h: History, h': History, p: Uid, s: PeerState, s': PeerState)
    requires Extends(h, h') && CommitPart(cfg, h, p, s) && s.term <= s'.term && s'.id == s.id
    requires s'.log == s.log && s'.commitIndex == s.commitIndex && s'.workflow == s.workflow
    requires s'.role == Leader ==> s.role == Leader && s'.term == s.term && s'.indices == s.indices
    ensures CommitPart(cfg, h', p, s')
  {
    HoldsCommittedGrows(cfg, h, h', p, s.term, s.log, s.commitIndex);
    if s.term < s'.term {
      LaterTermHolds(cfg, h', p, s.term, s.log, s.commitIndex, s'.term);
    }
    if s'.role == Leader {
      LeaderCommitsGrows(cfg, h, h', s, s');
    }
  }

  lemma FrameTerms(h: History, h': History, p: Uid, s: PeerState)
    requires GrowsBy(h, h', p) && s.id != p && TermInv(h, s)
    ensures TermInv(h', s)
  {
    forall t: nat | At(s.id, t) in h'.ballots ensures t <= s.term {
      assert At(s.id, t).peer == s.id;
    }
    forall t: nat | At(s.id, t) in h'.accepted ensures t <= s.term {
      assert At(s.id, t).peer == s.id;
    }
    forall t | t in h'.reigns && h'.reigns[t].leader == s.id ensures t <= s.term && (t == s.term ==> s.role == Leader) {
      if t in h.reigns {
        assert ReignGrows(h.reigns[t], h'.reigns[t], t);
      }
    }
  }

  lemma FrameLogPart(cfg: Config, h: History, h': History, p: Uid, q: Uid, s: PeerState)
    requires HistoryInv(cfg, h) && GrowsBy(h, h', p) && q != p && LogPart(cfg, h, q, s)
    ensures LogPart(cfg, h', q, s)
  {
    assert SameAccepted(h, h', q);
    LogGrows(h, h', s.log, s.term);
    FrameTerms(h, h', p, s);
    FrameRole(h, h', p, s);
    AcceptedLogGrows(h, h', p, q, s.term, s.log);
    KeptInvGrows(cfg, h, h', p, q, s.term, s.log);
  }

  lemma FramePeer(cfg: Config, h: History, h': History, p: Uid, q: Uid, s: PeerState)
    requires HistoryInv(cfg, h) && GrowsBy(h, h', p) && q != p && PeerInv(cfg, h, q, s)
    ensures PeerInv(cfg, h', q, s)
  {
    FrameLogPart(cfg, h, h', p, q, s);
    if h.commits {
      CommitPartStays(cfg, h, h', q, s, s);
    }
  }

  // ---- Messages

  lemma FrameMessage(cfg: Config, h: History, h': History, p: Uid, l: Link, m: Message)
    requires GrowsBy(h, h', p) && MessageInv(cfg, h, l, m)
    ensures MessageInv(cfg, h', l, m)
  {
    match m {
      case ElectionReq(_, _, _) =>
      case ElectionRsp(_, _, _) =>
      case AppendReq(t, _, _, _, _) =>
        if h.commits {
          StableGrows(cfg, h, h', t, m.commitIndex);
        }
        var a, b := h.reigns[t].log, h'.reigns[t].log;
        ReignPrefix(h, h', t, End(m));
        assert ReignGrows(h.reigns[t], h'.reigns[t], t);
        assert b[m.prevIndex] == b[..End(m)][m.prevIndex] == a[m.prevIndex];
        assert b[m.prevIndex + 1..End(m)] == b[..End(m)][m.prevIndex + 1..];
        assert a[m.prevIndex + 1..End(m)] == a[..End(m)][m.prevIndex + 1..];
      case AppendRsp(t, _, _, _, _, r) =>
        if t == r {
          assert ReignGrows(h.reigns[t], h'.reigns[t], t);
        }
    }
  }

  // ---- History

  lemma FrameReigns(cfg: Config, h: History, h': History, p: Uid)
    requires HistoryInv(cfg, h) && GrowsBy(h, h', p)
    ensures forall t | t in h.reigns && h'.reigns[t] == h.reigns[t] :: ReignInv(h', t)
    ensures forall t | t in h.reigns && h'.reigns[t] == h.reigns[t] && t > 0 :: ElectedInv(cfg, h', t)
  {
    forall t | t in h.reigns && h'.reigns[t] == h.reigns[t] ensures ReignInv(h', t) {
      assert ReignInv(h, t);
      RecordedGrows(h, h', h.reigns[t].log);
    }
    forall t | t in h.reigns && h'.reigns[t] == h.reigns[t] && t > 0 ensures ElectedInv(cfg, h', t) {
      assert ElectedInv(cfg, h, t);
    }
  }

  lemma FrameBallots(cfg: Config, h: History, h': History, p: Uid)
    requires HistoryInv(cfg, h) && GrowsBy(h, h', p)
    ensures forall k | k in h.ballots :: BallotInv(cfg, h', k.peer, k.term)
  {
    forall k | k in h.ballots ensures BallotInv(cfg, h', k.peer, k.term) {
      assert At(k.peer, k.term) == k;
      assert BallotInv(cfg, h, k.peer, k.term);
      RecordedGrows(h, h', h.ballots[k].log);
    }
  }

  /** Peer p accepts something new only in its latest term, so its earlier votes stand. */
  lemma FrameBallotKeeps(cfg: Config, h: History, h': History, p: Uid)
    requires HistoryInv(cfg, h) && GrowsBy(h, h', p)
    requires forall k | k in h'.accepted && (k !in h.accepted || h'.accepted[k] != h.accepted[k]) ::
               forall b | b in h.ballots && b.peer == k.peer :: b.term <= k.term
    ensures forall k | k in h.ballots :: BallotKeeps(h', k.peer, k.term)
  {
    forall k | k in h.ballots ensures BallotKeeps(h', k.peer, k.term) {
      assert At(k.peer, k.term) == k;
      FrameBallotKept(cfg, h, h', p, k.peer, k.term);
    }
  }

  lemma FrameBallotKept(cfg: Config, h: History, h': History, p: Uid, v: Uid, top: nat)
    requires HistoryInv(cfg, h) && GrowsBy(h, h', p) && At(v, top) in h.ballots
    requires forall k | k in h'.accepted && k.peer == v && k.term < top :: k in h.accepted && h'.accepted[k] == h.accepted[k]
    ensures BallotKeeps(h', v, top)
  {
    assert BallotKeeps(h, v, top);
    if top in h.reigns && v !in h.reigns[top].voters {
      assert ReignGrows(h.reigns[top], h'.reigns[top], top);
    } else {
      forall t: nat, n: nat | t < top && AcceptedEntry(h', v, t, n)
        ensures Kept(h', h'.ballots[At(v, top)].log, n, t, top)
      {
        assert At(v, t).peer == v;
        AcceptedEntryBack(cfg, h, h', p, v, t, n);
        KeptGrows(h, h', h.ballots[At(v, top)].log, n, t, top);
      }
    }
  }

  lemma FrameAccepted(cfg: Config, h: History, h': History, p: Uid)
    requires HistoryInv(cfg, h) && GrowsBy(h, h', p)
    ensures forall k | k in h.accepted && h'.accepted[k] == h.accepted[k] :: AcceptedInv(cfg, h', k.peer, k.term)
  {
    forall k | k in h.accepted && h'.accepted[k] == h.accepted[k] ensures AcceptedInv(cfg, h', k.peer, k.term) {
      assert At(k.peer, k.term) == k;
      assert AcceptedInv(cfg, h, k.peer, k.term);
      assert ReignGrows(h.reigns[k.term], h'.reigns[k.term], k.term);
    }
  }

  lemma FrameCounted(cfg: Config, h: History, h': History, p: Uid)
    requires HistoryInv(cfg, h) && GrowsBy(h, h', p)
    ensures forall k | k in h.counted && h'.counted[k] == h.counted[k] :: CountedInv(cfg, h', k.peer, k.term)
  {
    forall k | k in h.counted && h'.counted[k] == h.counted[k] ensures CountedInv(cfg, h', k.peer, k.term) {
      assert At(k.peer, k.term) == k;
      assert CountedInv(cfg, h, k.peer, k.term);
    }
  }

  /** The history invariant holds again when it holds of what the step changed. */
  lemma FrameHistory(cfg: Config, h: History, h': History, p: Uid)
    requires HistoryInv(cfg, h) && GrowsBy(h, h', p)
    requires forall t | t in h'.reigns && (t !in h.reigns || h'.reigns[t] != h.reigns[t]) ::
               ReignInv(h', t) && (t > 0 ==> ElectedInv(cfg, h', t))
    requires forall k | k in h'.ballots && k !in h.ballots ::
               BallotInv(cfg, h', k.peer, k.term) && BallotKeeps(h', k.peer, k.term)
    requires forall k | k in h'.accepted && (k !in h.accepted || h'.accepted[k] != h.accepted[k]) ::
               AcceptedInv(cfg, h', k.peer, k.term)
    requires forall k | k in h'.accepted && (k !in h.accepted || h'.accepted[k] != h.accepted[k]) ::
               forall b | b in h.ballots && b.peer == k.peer :: b.term <= k.term
    requires forall k | k in h'.counted && (k !in h.counted || h'.counted[k] != h.counted[k]) ::
               CountedInv(cfg, h', k.peer, k.term)
    ensures HistoryInv(cfg, h')
  {
    FrameReigns(cfg, h, h', p);
    FrameBallots(cfg, h, h', p);
    FrameBallotKeeps(cfg, h, h', p);
    FrameAccepted(cfg, h, h', p);
    FrameCounted(cfg, h, h', p);
    assert ReignGrows(h.reigns[0], h'.reigns[0], 0);
  }

  lemma ReignGrowsTransitive(r: Reign, r1: Reign, r2: Reign, t: nat)
    requires ReignGrows(r, r1, t) && ReignGrows(r1, r2, t)
    ensures ReignGrows(r, r2, t)
  {
    forall i | |r.log| <= i < |r2.log| ensures r2.log[i].term == t {
      if i < |r1.log| {
        assert r2.log[i] == r1.log[i];
      }
    }
  }

  lemma GrowsTransitive(h: History, h1: History, h2: History, p: Uid)
    requires GrowsBy(h, h1, p) && GrowsBy(h1, h2, p)
    ensures GrowsBy(h, h2, p)
  {
    forall t | t in h.reigns ensures t in h2.reigns && ReignGrows(h.reigns[t], h2.reigns[t], t) {
      ReignGrowsTransitive(h.reigns[t], h1.reigns[t], h2.reigns[t], t);
    }
    forall t | t in h2.reigns && t !in h.reigns ensures h2.reigns[t].leader == p {
      if t in h1.reigns {
        assert ReignGrows(h1.reigns[t], h2.reigns[t], t);
      }
    }
  }
}

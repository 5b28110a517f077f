/** Appending, replicating, truncating and committing keep the invariant. */
module ClusterReplication {
  import opened Uids
  import opened Workflows
  import opened PeerSpec
  import opened CommitRule
  import opened Clusters
  import opened ClusterInvariant
  import opened LeaderCompleteness
  import opened ClusterFrame
  import opened ClusterSteps
  import opened ClusterElection

  // ---- Applying committed entries

  lemma {:induction false} ApplyConcat(w: Workflow, a: seq<Entry>, b: seq<Entry>)
    ensures Apply(w, a + b) == Apply(Apply(w, a), b)
  {
    if b == [] {
      assert a + b == a;
    } else {
      ApplyConcat(w, a, b[..|b| - 1]);
      assert (a + b)[..|a + b| - 1] == a + b[..|b| - 1];
    }
  }

  lemma ApplyFurther(w: Workflow, log: seq<Entry>, a: nat, b: nat)
    requires a <= b <= |log|
    ensures Apply(w, log[..b]) == Apply(Apply(w, log[..a]), log[a..b])
  {
    assert log[..a] + log[a..b] == log[..b];
    ApplyConcat(w, log[..a], log[a..b]);
  }

  /** Committing up to n applies exactly the entries between. */
  lemma CommitReplays(cfg: Config, s: PeerState, n: nat)
    requires Replayed(cfg, s) && s.commitIndex <= n < |s.log|
    ensures Replayed(cfg, UpdateCommitIndex(s, n))
  {
    ApplyFurther(cfg.workflow, s.log, s.commitIndex + 1, n + 1);
  }

  /** The part about logs does not notice commits. */
  lemma CommitKeepsLogPart(cfg: Config, h: History, p: Uid, s: PeerState, n: nat)
    requires LogPart(cfg, h, p, s) && n < |s.log|
    ensures LogPart(cfg, h, p, UpdateCommitIndex(s, n))
  {
    ApplyKeepsRelations(s.workflow, Uncommitted(s, n));
  }

  /** What only the lock and checkpoint bookkeeping changes. */
  lemma BookkeepingKeepsPeer(cfg: Config, h: History, p: Uid, s: PeerState, s': PeerState)
    requires PeerInv(cfg, h, p, s)
    requires s' == s.(lastCheckpoint := s'.lastCheckpoint, lockedEvents := s'.lockedEvents)
    ensures PeerInv(cfg, h, p, s')
  {
    if h.commits {
      assert Extends(h, h);
      CommitPartStays(cfg, h, h, p, s, s');
    }
  }

  // ---- A leader appends

  ghost function Extended(h: History, p: Uid, t: nat, e: Entry): History
    requires t in h.reigns
  {
    var r := h.reigns[t];
    h.(reigns := h.reigns[t := r.(log := r.log + [e])], accepted := h.accepted[At(p, t) := |r.log| + 1])
  }

  lemma ExtendGrows(h: History, p: Uid, t: nat, e: Entry)
    requires t in h.reigns && h.reigns[t].leader == p && e.term == t
    requires At(p, t) in h.accepted ==> h.accepted[At(p, t)] <= |h.reigns[t].log| + 1
    ensures GrowsBy(h, Extended(h, p, t, e), p)
  {}

  lemma ExtendLog(h: History, h': History, p: Uid, t: nat, e: Entry)
    requires t in h.reigns && ReignInv(h, t) && h' == Extended(h, p, t, e) && GrowsBy(h, h', p)
    requires e.term == t && e.index == |h.reigns[t].log|
    ensures ReignInv(h', t)
  {
    var log, log' := h.reigns[t].log, h'.reigns[t].log;
    RecordedGrows(h, h', log);
    forall i | 0 <= i < |log'| ensures RecordedAt(h', log', i) {
      if i < |log| {
        assert RecordedAt(h', log, i);
        assert log'[..i + 1] == log[..i + 1];
      }
    }
    forall i, j | 0 <= i < j < |log'| ensures Ordered(log', i, j) {
      if j < |log| {
        assert Ordered(log, i, j);
      }
    }
  }

  lemma ExtendHistory(cfg: Config, h: History, h': History, p: Uid, s: PeerState, e: Entry)
    requires HistoryInv(cfg, h) && RoleInv(h, s) && TermInv(h, s) && s.role == Leader && s.id == p && p in Members(cfg)
    requires e.term == s.term && e.index == |s.log| && h' == Extended(h, p, s.term, e)
    ensures GrowsBy(h, h', p) && HistoryInv(cfg, h')
  {
    var t := s.term;
    ExtendGrows(h, p, t, e);
    assert ReignInv(h, t);
    ExtendLog(h, h', p, t, e);
    if t > 0 {
      assert ElectedInv(cfg, h, t);
      var r := h.reigns[t];
      assert h'.reigns[t].log[..r.base] == r.log[..r.base];
    }
    forall b | b in h.ballots && b.peer == p ensures b.term <= t {
      assert b == At(p, b.term);
    }
    FrameHistory(cfg, h, h', p);
  }

  lemma ExtendKept(cfg: Config, h: History, h': History, p: Uid, t: nat, log: seq<Entry>, e: Entry)
    requires HistoryInv(cfg, h) && t in h.reigns && h' == Extended(h, p, t, e) && GrowsBy(h, h', p)
    requires h.reigns[t].log == log && KeptInv(h, p, t, log) && e.term == t
    ensures KeptInv(h', p, t, log + [e])
  {
    forall u: nat, n: nat | AcceptedEntry(h', p, u, n) ensures Kept(h', log + [e], n, u, t + 1) {
      if u != t {
        AcceptedEntryBack(cfg, h, h', p, p, u, n);
        KeptGrows(h, h', log, n, u, t + 1);
        if Has(log, n, u) {
          assert Has(log + [e], n, u);
        } else {
          var w: nat :| w < t + 1 && Lost(h', n, u, w);
        }
      }
    }
  }

  lemma StableIsHeld(cfg: Config, h: History, p: Uid, t: nat, log: seq<Entry>, c: nat)
    requires Stable(cfg, h, t, c) && c < |log| && h.reigns[t].log[..c + 1] == log[..c + 1]
    requires At(p, t) in h.accepted && c < h.accepted[At(p, t)]
    ensures HoldsCommitted(cfg, h, p, t, log, c)
  {}

  lemma ExtendKeepsRecords(cfg: Config, h: History, h': History, p: Uid, s: PeerState, s': PeerState, e: Entry)
    requires HistoryInv(cfg, h') && LogPart(cfg, h, p, s) && s.role == Leader
    requires h' == Extended(h, p, s.term, e) && s' == s.(log := s.log + [e])
    ensures LogInv(h', s'.log, s'.term) && AcceptedLogInv(h', p, s'.term, s'.log) && TermInv(h', s') && RoleInv(h', s')
  {
    assert ReignInv(h', s.term);
    assert s'.log[..|s'.log|] == s'.log;
  }

  /** A leader holds what it has committed. */
  lemma LeaderHolds(cfg: Config, h: History, p: Uid, s: PeerState)
    requires RoleInv(h, s) && s.role == Leader && s.id == p && LeaderCommits(cfg, h, s) && s.commitIndex < |s.log|
    ensures HoldsCommitted(cfg, h, p, s.term, s.log, s.commitIndex)
  {
    StableIsHeld(cfg, h, p, s.term, s.log, s.commitIndex);
  }

  lemma ExtendCommits(cfg: Config, h: History, h': History, p: Uid, s: PeerState, s': PeerState, e: Entry)
    requires Extends(h, h') && CommitPart(cfg, h, p, s) && s.role == Leader && s.id == p
    requires s' == s.(log := s.log + [e]) && RoleInv(h', s')
    ensures CommitPart(cfg, h', p, s')
  {
    LeaderCommitsGrows(cfg, h, h', s, s');
    LeaderHolds(cfg, h', p, s');
    assert s'.log[..s.commitIndex + 1] == s.log[..s.commitIndex + 1];
  }

  lemma ExtendPeer(cfg: Config, h: History, h': History, p: Uid, s: PeerState, s': PeerState, e: Entry)
    requires HistoryInv(cfg, h) && HistoryInv(cfg, h') && PeerInv(cfg, h, p, s) && s.role == Leader
    requires h' == Extended(h, p, s.term, e) && GrowsBy(h, h', p)
    requires e.term == s.term && s' == s.(log := s.log + [e])
    ensures PeerInv(cfg, h', p, s')
  {
    ExtendKeepsRecords(cfg, h, h', p, s, s', e);
    ExtendKept(cfg, h, h', p, s.term, s.log, e);
    if h.commits {
      ExtendCommits(cfg, h, h', p, s, s', e);
    }
  }

  lemma ExtendNews(cfg: Config, c: Cluster, h: History, p: Uid, t: nat, e: Entry)
    requires Inv(cfg, c, h) && t in h.reigns && h.reigns[t].leader == p
    ensures AllNews(c, Extended(h, p, t, e))
  {
    InvIsNews(cfg, c, h);
    forall l, i | l in c.queues && 0 <= i < |c.queues[l]| ensures NewsInv(Extended(h, p, t, e), l, c.queues[l][i]) {
      assert QueueInv(cfg, h, l, c.queues[l]);
      assert MessageInv(cfg, h, l, c.queues[l][i]) && NewsInv(h, l, c.queues[l][i]);
    }
  }

  /** A leader's log grows by one entry; nothing is sent yet. */
  lemma ExtendKeepsInv(cfg: Config, c: Cluster, h: History, p: Uid, s: PeerState, e: Entry) returns (h': History)
    requires Inv(cfg, c, h) && p in c.peers && c.peers[p] == s && s.role == Leader
    requires e.term == s.term && e.index == |s.log|
    ensures Inv(cfg, Become(c, p, Effect(s.(log := s.log + [e]), [])), h')
    ensures GrowsBy(h, h', p)
    ensures s.term in h'.reigns && At(p, s.term) in h'.accepted && h'.accepted[At(p, s.term)] == |s.log| + 1
  {
    PeerOf(cfg, c, h, p);
    h' := Extended(h, p, s.term, e);
    var s' := s.(log := s.log + [e]);
    ExtendHistory(cfg, h, h', p, s, e);
    ExtendPeer(cfg, h, h', p, s, s', e);
    ExtendNews(cfg, c, h, p, s.term, e);
    assert SendsAllowed(cfg, c, h', p, []);
    StepKeepsInv(cfg, c, h, h', p, Effect(s', []));
  }

  // ---- A leader commits

  lemma CommittedIsStable(cfg: Config, h: History, t: nat, n: nat)
    requires Committed(cfg, h, t, n)
    ensures Stable(cfg, h, t, n)
  {}

  lemma LeaderCommitKeepsCommitPart(cfg: Config, h: History, p: Uid, s: PeerState, s': PeerState, n: nat)
    requires HistoryInv(cfg, h) && RoleInv(h, s) && s.id == p && CommitPart(cfg, h, p, s) && s.role == Leader
    requires s.commitIndex <= n < |s.log| && Committed(cfg, h, s.term, n) && s' == UpdateCommitIndex(s, n)
    ensures CommitPart(cfg, h, p, s')
  {
    CommittedIsStable(cfg, h, s.term, n);
    StableIsHeld(cfg, h, p, s.term, s.log, n);
    CommitReplays(cfg, s, n);
    forall f | f in s'.indices ensures ReportInv(cfg, h, s', f) {
      assert ReportInv(cfg, h, s, f);
    }
  }

  lemma LeaderCommitKeepsPeer(cfg: Config, h: History, p: Uid, s: PeerState, n: nat)
    requires HistoryInv(cfg, h) && PeerInv(cfg, h, p, s) && s.role == Leader && n < |s.log|
    requires h.commits ==> s.commitIndex <= n && Committed(cfg, h, s.term, n)
    ensures PeerInv(cfg, h, p, UpdateCommitIndex(s, n))
  {
    CommitKeepsLogPart(cfg, h, p, s, n);
    if h.commits {
      LeaderCommitKeepsCommitPart(cfg, h, p, s, UpdateCommitIndex(s, n), n);
    }
  }

  /** In a cluster of one, the leader's own acceptance is enough. */
  lemma AloneCommits(cfg: Config, h: History, p: Uid, s: PeerState)
    requires PeerInv(cfg, h, p, s) && s.role == Leader && ClusterSize(cfg) == 1
    requires |s.log| > 0 && s.log[|s.log| - 1].term == s.term
    ensures Committed(cfg, h, s.term, |s.log| - 1)
  {
    var acceptors := Acceptors(cfg, h, s.term, |s.log| - 1);
    assert AcceptedEntry(h, p, s.term, |s.log| - 1);
    assert {p} <= acceptors;
    SubsetSize({p}, acceptors);
  }

  /** append_to_log at a leader. */
  lemma AppendKeepsInv(cfg: Config, c: Cluster, h: History, p: Uid, s: PeerState, e: Entry) returns (h': History)
    requires Inv(cfg, c, h) && p in c.peers && c.peers[p] == s && s.role == Leader && |s.log| > 0
    requires e.term == s.term && e.index == |s.log|
    ensures Inv(cfg, Become(c, p, AppendToLog(s, e)), h')
    ensures GrowsBy(h, h', p)
  {
    PeerOf(cfg, c, h, p);
    h' := ExtendKeepsInv(cfg, c, h, p, s, e);
    var s1 := s.(log := s.log + [e]);
    var c1 := Become(c, p, Effect(s1, []));
    PeerOf(cfg, c1, h', p);
    if |s.members| == 1 {
      AloneCommitKeepsInv(cfg, c1, h', p, s1);
      BecomeAfterQuiet(c, p, s1, Effect(UpdateCommitIndex(s1, |s1.log| - 1), []));
    } else {
      AppendSends(cfg, c1, h', p, s1, PrefixRequest(s1, |s1.log| - 2));
      BecomeAfterQuiet(c, p, s1, Effect(s1, Broadcast(s.members, p, PrefixRequest(s1, |s1.log| - 2))));
    }
  }

  lemma AloneCommitKeepsInv(cfg: Config, c: Cluster, h: History, p: Uid, s: PeerState)
    requires Inv(cfg, c, h) && p in c.peers && c.peers[p] == s && s.role == Leader && |s.members| == 1
    requires |s.log| > 0 && s.log[|s.log| - 1].term == s.term
    ensures Inv(cfg, Become(c, p, Effect(UpdateCommitIndex(s, |s.log| - 1), [])), h)
  {
    PeerOf(cfg, c, h, p);
    AloneCommits(cfg, h, p, s);
    LeaderCommitKeepsPeer(cfg, h, p, s, |s.log| - 1);
    QuietKeepsInv(cfg, c, h, p, UpdateCommitIndex(s, |s.log| - 1));
  }

  lemma AppendSends(cfg: Config, c: Cluster, h: History, p: Uid, s: PeerState, m: Message)
    requires Inv(cfg, c, h) && p in c.peers && c.peers[p] == s && s.role == Leader
    requires |s.log| > 1 && m == PrefixRequest(s, |s.log| - 2)
    ensures Inv(cfg, Become(c, p, Effect(s, Broadcast(s.members, p, m))), h)
  {
    PeerOf(cfg, c, h, p);
    LeaderBroadcastKeepsInv(cfg, c, h, p, s, |s.log| - 2, m);
  }

  // ---- A follower accepts

  ghost function Accepting(h: History, p: Uid, t: nat, end: nat): History {
    h.(accepted := h.accepted[At(p, t) := end])
  }

  /** What matches the request at its previous entry becomes, with the new entries, the leader's log. */
  lemma AcceptedLog(cfg: Config, h: History, l: Link, s: PeerState, m: Message)
    requires HistoryInv(cfg, h) && Recorded(h, s.log) && m.AppendReq? && AppendReqInv(cfg, h, l, m)
    requires TermAndIndexExist(s.log, m.prevTerm, m.prevIndex)
    ensures UpTo(s.log, m.prevIndex) + m.entries == h.reigns[m.term].log[..End(m)]
  {
    var log := h.reigns[m.term].log;
    assert ReignInv(h, m.term);
    LogMatching(h, s.log, log, m.prevIndex);
    assert UpTo(s.log, m.prevIndex) == s.log[..m.prevIndex + 1];
    assert log[..m.prevIndex + 1] + log[m.prevIndex + 1..End(m)] == log[..End(m)];
  }

  lemma AcceptHistory(cfg: Config, h: History, h': History, p: Uid, t: nat, end: nat)
    requires HistoryInv(cfg, h) && p in Members(cfg) && t in h.reigns
    requires h.reigns[t].base <= end <= |h.reigns[t].log| && end > 0
    requires At(p, t) in h.accepted ==> h.accepted[At(p, t)] <= end
    requires forall u: nat | At(p, u) in h.ballots :: u <= t
    requires h' == Accepting(h, p, t, end)
    ensures GrowsBy(h, h', p) && HistoryInv(cfg, h')
  {
    forall b | b in h.ballots && b.peer == p ensures b.term <= t {
      assert b == At(p, b.term);
    }
    FrameHistory(cfg, h, h', p);
  }

  lemma LogOfReign(cfg: Config, h: History, t: nat, end: nat)
    requires HistoryInv(cfg, h) && t in h.reigns && 0 < end <= |h.reigns[t].log|
    ensures LogInv(h, h.reigns[t].log[..end], t)
  {
    var log := h.reigns[t].log;
    var a := log[..end];
    assert ReignInv(h, t);
    forall i | 0 <= i < |a| ensures RecordedAt(h, a, i) {
      assert RecordedAt(h, log, i);
      assert a[..i + 1] == log[..i + 1];
    }
    forall i, j | 0 <= i < j < |a| ensures Ordered(a, i, j) {
      assert Ordered(log, i, j);
    }
  }

  /** Truncation loses nothing the follower accepted before, unless this leader had already lost it. */
  lemma AcceptKept(cfg: Config, h: History, h': History, p: Uid, t: nat, end: nat)
    requires HistoryInv(cfg, h') && t in h.reigns && h' == Accepting(h, p, t, end)
    requires h.reigns[t].base <= end <= |h.reigns[t].log|
    requires forall u: nat | At(p, u) in h.accepted :: u <= t
    ensures KeptInv(h', p, t, h.reigns[t].log[..end])
  {
    var log := h.reigns[t].log;
    assert ReignInv(h', t);
    forall u: nat, n: nat | AcceptedEntry(h', p, u, n) ensures Kept(h', log[..end], n, u, t + 1) {
      if u < t {
        if Has(log, n, u) {
          assert n < h.reigns[t].base;
        } else {
          assert Lost(h', n, u, t);
        }
      }
    }
  }

  /** The committed prefix of a follower survives the truncation. */
  lemma AcceptHolds(cfg: Config, h: History, p: Uid, s: PeerState, end: nat)
    requires ValidConfig(cfg) && HistoryInv(cfg, h)
    requires HoldsCommitted(cfg, h, p, s.term, s.log, s.commitIndex) && s.term in h.reigns
    requires h.reigns[s.term].base <= end <= |h.reigns[s.term].log|
    requires At(p, s.term) in h.accepted ==> h.accepted[At(p, s.term)] <= end
    ensures s.commitIndex < end && Stable(cfg, h, s.term, s.commitIndex)
    ensures h.reigns[s.term].log[..s.commitIndex + 1] == s.log[..s.commitIndex + 1]
  {
    var c := s.commitIndex;
    var t: nat :| t <= s.term && Stable(cfg, h, t, c) && h.reigns[t].log[..c + 1] == s.log[..c + 1]
      && (t == s.term ==> At(p, t) in h.accepted && c < h.accepted[At(p, t)]);
    StableSurvives(cfg, h, t, c, s.term);
    SameHistory(h, p);
    StableLater(cfg, h, h, t, s.term, c);
  }

  /** The follower holds what it had committed after the truncation too. */
  lemma AcceptStillHolds(cfg: Config, h: History, h': History, p: Uid, s: PeerState, s': PeerState, end: nat)
    requires ValidConfig(cfg) && HistoryInv(cfg, h) && GrowsBy(h, h', p) && s.term in h.reigns && s.role == Follower
    requires CommitPart(cfg, h, p, s)
    requires h' == Accepting(h, p, s.term, end) && h.reigns[s.term].base <= end <= |h.reigns[s.term].log|
    requires At(p, s.term) in h.accepted ==> h.accepted[At(p, s.term)] <= end
    requires s' == s.(log := h.reigns[s.term].log[..end])
    ensures CommitPart(cfg, h', p, s')
    ensures s'.log[..s.commitIndex + 1] == s.log[..s.commitIndex + 1]
  {
    var c := s.commitIndex;
    AcceptHolds(cfg, h, p, s, end);
    StableGrows(cfg, h, h', s.term, c);
    assert s'.log[..c + 1] == h.reigns[s.term].log[..c + 1];
    StableIsHeld(cfg, h', p, s.term, s'.log, c);
  }

  lemma AcceptLogPart(cfg: Config, h: History, h': History, p: Uid, s: PeerState, s': PeerState, end: nat)
    requires HistoryInv(cfg, h) && HistoryInv(cfg, h') && GrowsBy(h, h', p)
    requires LogPart(cfg, h, p, s) && s.role == Follower && s.term in h.reigns
    requires h' == Accepting(h, p, s.term, end) && 0 < end
    requires h.reigns[s.term].base <= end <= |h.reigns[s.term].log|
    requires s' == s.(log := h.reigns[s.term].log[..end])
    ensures LogPart(cfg, h', p, s')
  {
    LogOfReign(cfg, h', s.term, end);
    AcceptKept(cfg, h, h', p, s.term, end);
  }

  lemma AcceptPeer(cfg: Config, h: History, h': History, p: Uid, s: PeerState, s': PeerState, end: nat)
    requires ValidConfig(cfg) && HistoryInv(cfg, h) && HistoryInv(cfg, h') && GrowsBy(h, h', p)
    requires PeerInv(cfg, h, p, s) && s.role == Follower && s.term in h.reigns
    requires h' == Accepting(h, p, s.term, end) && 0 < end
    requires h.reigns[s.term].base <= end <= |h.reigns[s.term].log|
    requires At(p, s.term) in h.accepted ==> h.accepted[At(p, s.term)] <= end
    requires s' == s.(log := h.reigns[s.term].log[..end])
    ensures PeerInv(cfg, h', p, s')
  {
    AcceptLogPart(cfg, h, h', p, s, s', end);
    if h.commits {
      AcceptStillHolds(cfg, h, h', p, s, s', end);
    }
  }

  lemma AcceptNews(cfg: Config, c: Cluster, h: History, l: Link, m: Message)
    requires Inv(cfg, c, h) && l in c.queues && m.AppendReq? && MessageInv(cfg, h, l, m)
    requires forall i | 0 <= i < |c.queues[l]| :: OrderInv(m, c.queues[l][i])
    ensures AllNews(c, Accepting(h, l.target, m.term, End(m)))
  {
    InvIsNews(cfg, c, h);
    forall k, i | k in c.queues && 0 <= i < |c.queues[k]|
      ensures NewsInv(Accepting(h, l.target, m.term, End(m)), k, c.queues[k][i])
    {
      assert QueueInv(cfg, h, k, c.queues[k]);
      assert MessageInv(cfg, h, k, c.queues[k][i]) && NewsInv(h, k, c.queues[k][i]);
      assert l == Link(l.source, l.target) && k == Link(k.source, k.target);
    }
  }

  lemma FollowerCommitKeepsCommitPart(cfg: Config, h: History, p: Uid, s: PeerState, n: nat)
    requires HistoryInv(cfg, h) && AcceptedLogInv(h, p, s.term, s.log) && CommitPart(cfg, h, p, s) && s.role == Follower
    requires At(p, s.term) in h.accepted && h.accepted[At(p, s.term)] == |s.log|
    requires s.commitIndex <= n < |s.log| && Stable(cfg, h, s.term, n)
    ensures CommitPart(cfg, h, p, UpdateCommitIndex(s, n))
  {
    var log := h.reigns[s.term].log;
    assert s.log[..n + 1] == log[..n + 1];
    StableIsHeld(cfg, h, p, s.term, s.log, n);
    CommitReplays(cfg, s, n);
  }

  /** A follower that learns a higher commit index of its leader applies the entries up to it. */
  lemma FollowerCommitKeepsPeer(cfg: Config, h: History, p: Uid, s: PeerState, n: nat)
    requires HistoryInv(cfg, h) && PeerInv(cfg, h, p, s) && s.role == Follower && n < |s.log|
    requires At(p, s.term) in h.accepted && h.accepted[At(p, s.term)] == |s.log|
    requires h.commits ==> s.commitIndex <= n && Stable(cfg, h, s.term, n)
    ensures PeerInv(cfg, h, p, UpdateCommitIndex(s, n))
  {
    CommitKeepsLogPart(cfg, h, p, s, n);
    if h.commits {
      FollowerCommitKeepsCommitPart(cfg, h, p, s, n);
    }
  }

  lemma AckMaySend(cfg: Config, c: Cluster, h: History, l: Link, m: Message, t: nat, prevTerm: nat, prevIndex: nat, last: nat)
    requires t in h.reigns && h.reigns[t].leader == l.target
    requires At(l.source, t) in h.accepted && last < h.accepted[At(l.source, t)]
    requires l in c.queues && m == AppendRsp(t, prevTerm, prevIndex, true, last, t)
    ensures CanSend(cfg, h, c.queues[l], l, m)
  {}

  /** The follower's log becomes the leader's log as of sending. */
  lemma AcceptKeepsInv(cfg: Config, c: Cluster, h: History, l: Link, m: Message, s: PeerState, s': PeerState)
    returns (h': History)
    requires Inv(cfg, c, h) && l in c.queues && m.AppendReq? && MessageInv(cfg, h, l, m) && NewsInv(h, l, m)
    requires forall i | 0 <= i < |c.queues[l]| :: OrderInv(m, c.queues[l][i])
    requires c.peers[l.target] == s && m.term == s.term && s.role == Follower
    requires TermAndIndexExist(s.log, m.prevTerm, m.prevIndex)
    requires s' == s.(log := UpTo(s.log, m.prevIndex) + m.entries)
    ensures Inv(cfg, Become(c, l.target, Effect(s', [])), h')
    ensures GrowsBy(h, h', l.target)
    ensures At(l.target, m.term) in h'.accepted && h'.accepted[At(l.target, m.term)] == End(m) == |s'.log|
  {
    var p := l.target;
    PeerOf(cfg, c, h, p);
    AcceptedLog(cfg, h, l, s, m);
    h' := Accepting(h, p, m.term, End(m));
    AcceptHistory(cfg, h, h', p, m.term, End(m));
    AcceptPeer(cfg, h, h', p, s, s', End(m));
    AcceptNews(cfg, c, h, l, m);
    assert SendsAllowed(cfg, c, h', p, []);
    StepKeepsInv(cfg, c, h, h', p, Effect(s', []));
  }

  /** The follower once it has committed what the request says, as far as its log reaches. */
  function Noted(s: PeerState, m: Message): PeerState
    requires m.AppendReq? && |s.log| > 0
  {
    var last := |s.log| - 1;
    if m.commitIndex > s.commitIndex then UpdateCommitIndex(s, if m.commitIndex < last then m.commitIndex else last) else s
  }

  lemma AcknowledgedPeer(cfg: Config, c: Cluster, h: History, l: Link, m: Message, s: PeerState, s': PeerState, n: nat)
    requires Inv(cfg, c, h) && l in c.queues && m.AppendReq? && MessageInv(cfg, h, l, m) && c.peers[l.target] == s
    requires m.term == s.term && s.role == Follower && |s.log| == End(m) && m.commitIndex > s.commitIndex
    requires At(l.target, m.term) in h.accepted && h.accepted[At(l.target, m.term)] == End(m)
    requires n == (if m.commitIndex < |s.log| - 1 then m.commitIndex else |s.log| - 1) && s' == UpdateCommitIndex(s, n)
    ensures PeerInv(cfg, h, l.target, s')
  {
    PeerOf(cfg, c, h, l.target);
    FollowerCommitKeepsPeer(cfg, h, l.target, s, n);
  }

  lemma NotedKeepsPeer(cfg: Config, c: Cluster, h: History, l: Link, m: Message, s: PeerState, s': PeerState, n: nat)
    requires Inv(cfg, c, h) && l in c.queues && m.AppendReq? && MessageInv(cfg, h, l, m) && c.peers[l.target] == s
    requires m.term == s.term && s.role == Follower && |s.log| == End(m)
    requires At(l.target, m.term) in h.accepted && h.accepted[At(l.target, m.term)] == End(m)
    requires n == if m.commitIndex < |s.log| - 1 then m.commitIndex else |s.log| - 1
    requires s' == if m.commitIndex > s.commitIndex then UpdateCommitIndex(s, n) else s
    ensures PeerInv(cfg, h, l.target, s')
  {
    if m.commitIndex > s.commitIndex {
      AcknowledgedPeer(cfg, c, h, l, m, s, s', n);
    } else {
      PeerOf(cfg, c, h, l.target);
    }
  }

  /** The follower commits what the request says and acknowledges it. */
  lemma AcknowledgeKeepsInv(cfg: Config, c: Cluster, h: History, l: Link, m: Message, s: PeerState, s': PeerState, e: Effect)
    requires Inv(cfg, c, h) && l in c.queues && m.AppendReq? && MessageInv(cfg, h, l, m) && c.peers[l.target] == s
    requires m.term == s.term && s.role == Follower && |s.log| == End(m) && s' == Noted(s, m)
    requires At(l.target, m.term) in h.accepted && h.accepted[At(l.target, m.term)] == End(m)
    requires e == Effect(s', [Packet(l.source, AppendRsp(s.term, m.prevTerm, m.prevIndex, true, |s.log| - 1, m.term))])
    ensures Inv(cfg, Become(c, l.target, e), h)
  {
    NotedKeepsPeer(cfg, c, h, l, m, s, s', if m.commitIndex < |s.log| - 1 then m.commitIndex else |s.log| - 1);
    var rsp := AppendRsp(s.term, m.prevTerm, m.prevIndex, true, |s.log| - 1, m.term);
    AckIsSent(cfg, c, h, Link(l.target, l.source), s', rsp, e);
  }

  lemma AckIsSent(cfg: Config, c: Cluster, h: History, l: Link, s: PeerState, rsp: Message, e: Effect)
    requires Inv(cfg, c, h) && l.source in c.peers && PeerInv(cfg, h, l.source, s) && rsp.AppendRsp? && rsp.success
    requires rsp.requestTerm == rsp.term && rsp.term in h.reigns && h.reigns[rsp.term].leader == l.target
    requires At(l.source, rsp.term) in h.accepted && rsp.lastIndex < h.accepted[At(l.source, rsp.term)]
    requires e == Effect(s, [Packet(l.target, rsp)])
    ensures Inv(cfg, Become(c, l.source, e), h)
  {
    if l in c.queues {
      AckMaySend(cfg, c, h, l, rsp, rsp.term, rsp.prevTerm, rsp.prevIndex, rsp.lastIndex);
    }
    assert l == Link(l.source, l.target);
    ReplyKeepsInv(cfg, c, h, l.source, s, l.target, rsp);
  }

  /** A rejection never names index 0: every log starts with the same entry. */
  lemma RejectMaySend(cfg: Config, h: History, l: Link, s: PeerState, m: Message)
    requires HistoryInv(cfg, h) && m.AppendReq? && MessageInv(cfg, h, l, m) && WellFormed(s.log, s.term)
    requires !TermAndIndexExist(s.log, m.prevTerm, m.prevIndex)
    ensures MessageInv(cfg, h, Link(l.target, l.source), AppendRsp(m.term, m.prevTerm, m.prevIndex, false, NO_INDEX, m.term))
  {
    assert ReignInv(h, m.term);
  }

  lemma AcceptEffect(s: PeerState, source: Uid, m: Message, s1: PeerState, s2: PeerState)
    requires m.AppendReq? && m.term == s.term && s.role == Follower
    requires TermAndIndexExist(s.log, m.prevTerm, m.prevIndex)
    requires s1 == s.(log := UpTo(s.log, m.prevIndex) + m.entries) && s2 == Noted(s1, m)
    ensures RecvAppendReq(s, source, m) ==
      Effect(s2, [Packet(source, AppendRsp(s.term, m.prevTerm, m.prevIndex, true, |s1.log| - 1, m.term))])
  {}

  lemma AppendReqAccepted(cfg: Config, c: Cluster, h: History, l: Link, m: Message, s: PeerState) returns (h': History)
    requires Inv(cfg, c, h) && l in c.queues && m.AppendReq? && MessageInv(cfg, h, l, m) && NewsInv(h, l, m)
    requires forall i | 0 <= i < |c.queues[l]| :: OrderInv(m, c.queues[l][i])
    requires c.peers[l.target] == s && m.term == s.term && s.role == Follower
    requires TermAndIndexExist(s.log, m.prevTerm, m.prevIndex)
    ensures Inv(cfg, Become(c, l.target, RecvAppendReq(s, l.source, m)), h')
    ensures GrowsBy(h, h', l.target)
  {
    var p := l.target;
    var s1 := s.(log := UpTo(s.log, m.prevIndex) + m.entries);
    h' := AcceptKeepsInv(cfg, c, h, l, m, s, s1);
    FrameMessage(cfg, h, h', p, l, m);
    var c1 := Become(c, p, Effect(s1, []));
    var s2 := Noted(s1, m);
    AcceptEffect(s, l.source, m, s1, s2);
    AcknowledgeKeepsInv(cfg, c1, h', l, m, s1, s2, RecvAppendReq(s, l.source, m));
    BecomeAfterQuiet(c, p, s1, RecvAppendReq(s, l.source, m));
  }

  lemma AppendReqRefused(cfg: Config, c: Cluster, h: History, l: Link, m: Message, s: PeerState)
    requires Inv(cfg, c, h) && l in c.queues && m.AppendReq? && MessageInv(cfg, h, l, m)
    requires c.peers[l.target] == s && m.term <= s.term
    requires m.term < s.term || s.role != Follower || !TermAndIndexExist(s.log, m.prevTerm, m.prevIndex)
    ensures Inv(cfg, Become(c, l.target, RecvAppendReq(s, l.source, m)), h)
  {
    var p := l.target;
    PeerOf(cfg, c, h, p);
    if m.term < s.term {
      ReplyKeepsInv(cfg, c, h, p, s, l.source, AppendRsp(s.term, 0, 0, false, 0, m.term));
    } else if s.role != Follower {
      QuietKeepsInv(cfg, c, h, p, s);
    } else {
      RejectMaySend(cfg, h, l, s, m);
      ReplyKeepsInv(cfg, c, h, p, s, l.source, AppendRsp(s.term, m.prevTerm, m.prevIndex, false, NO_INDEX, m.term));
    }
  }

  /** Handling an append request once the term check is done. */
  lemma AppendReqKeepsInv(cfg: Config, c: Cluster, h: History, l: Link, m: Message) returns (h': History)
    requires Inv(cfg, c, h) && l in c.queues && m.AppendReq? && MessageInv(cfg, h, l, m) && NewsInv(h, l, m)
    requires forall i | 0 <= i < |c.queues[l]| :: OrderInv(m, c.queues[l][i])
    requires m.term <= c.peers[l.target].term
    ensures Inv(cfg, Become(c, l.target, RecvAppendReq(c.peers[l.target], l.source, m)), h')
    ensures GrowsBy(h, h', l.target)
  {
    var s := c.peers[l.target];
    if m.term < s.term || s.role != Follower || !TermAndIndexExist(s.log, m.prevTerm, m.prevIndex) {
      h' := h;
      SameHistory(h, l.target);
      AppendReqRefused(cfg, c, h, l, m, s);
    } else {
      h' := AppendReqAccepted(cfg, c, h, l, m, s);
    }
  }

  // ---- A leader hears back

  lemma ReportKeepsPeer(cfg: Config, h: History, l: Link, s: PeerState, m: Message)
    requires PeerInv(cfg, h, l.target, s) && s.role == Leader && m.AppendRsp? && m.success && m.term == s.term
    requires MessageInv(cfg, h, l, m) && l.source in Members(cfg) && l.source != l.target
    ensures PeerInv(cfg, h, l.target, s.(indices := s.indices[l.source := m.lastIndex]))
  {
    var s' := s.(indices := s.indices[l.source := m.lastIndex]);
    if h.commits {
      forall f | f in s'.indices ensures ReportInv(cfg, h, s', f) {
        if f != l.source {
          assert ReportInv(cfg, h, s, f);
        }
      }
    }
  }

  /** The leader and the followers that report n or more have all accepted entry n. */
  lemma ReportersAccepted(cfg: Config, h: History, p: Uid, s: PeerState, n: nat)
    requires h.commits && PeerInv(cfg, h, p, s) && s.role == Leader && n < |s.log| && s.log[n].term == s.term
    ensures Reaching(s.indices, n) + {p} <= Acceptors(cfg, h, s.term, n)
    ensures p !in Reaching(s.indices, n)
  {
    forall f | f in Reaching(s.indices, n) ensures f in Acceptors(cfg, h, s.term, n) && f != p {
      assert ReportInv(cfg, h, s, f);
      assert AcceptedEntry(h, f, s.term, n);
    }
    assert AcceptedEntry(h, p, s.term, n);
  }

  /** The index the commit rule picks is one a follower accepted, so it lies inside the log. */
  lemma MajorityIndexInLog(cfg: Config, h: History, p: Uid, s: PeerState)
    requires h.commits && HistoryInv(cfg, h) && PeerInv(cfg, h, p, s) && s.role == Leader && |s.indices| > 0
    ensures MajorityIndex(s.indices) < |s.log|
  {
    MajorityIndexIsReached(s.indices);
    var f :| f in s.indices && s.indices[f] == MajorityIndex(s.indices);
    assert ReportInv(cfg, h, s, f);
    AcceptedReign(cfg, h, f, s.term);
  }

  lemma EnoughReportsCommit(cfg: Config, h: History, p: Uid, s: PeerState)
    requires h.commits && PeerInv(cfg, h, p, s) && s.role == Leader && |s.indices| > 0
    requires MajorityIndex(s.indices) < |s.log| && s.log[MajorityIndex(s.indices)].term == s.term
    requires |s.indices| / 2 + 1 >= (ClusterSize(cfg) - 1) / 2
    ensures Committed(cfg, h, s.term, MajorityIndex(s.indices))
  {
    var n := MajorityIndex(s.indices);
    MajorityIndexIsReached(s.indices);
    ReportersAccepted(cfg, h, p, s, n);
    SubsetSize(Reaching(s.indices, n) + {p}, Acceptors(cfg, h, s.term, n));
  }

  lemma ReportEffect(s: PeerState, source: Uid, m: Message, s1: PeerState, n: nat)
    requires m.AppendRsp? && m.success && m.term == s.term && s.role == Leader && AppendRspInBounds(s, source, m)
    requires s1 == s.(indices := s.indices[source := m.lastIndex]) && n == MajorityIndex(s1.indices)
    ensures n < |s1.log|
    ensures RecvAppendRsp(s, source, m) ==
      Effect(if s1.log[n].term == s1.term && n > s1.commitIndex then UpdateCommitIndex(s1, n) else s1, [])
  {}

  lemma ReportThenCommit(cfg: Config, h: History, p: Uid, s: PeerState, n: nat)
    requires HistoryInv(cfg, h) && PeerInv(cfg, h, p, s) && s.role == Leader && |s.indices| > 0
    requires n == MajorityIndex(s.indices) && n < |s.log| && s.log[n].term == s.term && n > s.commitIndex
    requires h.commits ==> |s.indices| / 2 + 1 >= (ClusterSize(cfg) - 1) / 2
    ensures PeerInv(cfg, h, p, UpdateCommitIndex(s, n))
  {
    if h.commits {
      EnoughReportsCommit(cfg, h, p, s);
    }
    LeaderCommitKeepsPeer(cfg, h, p, s, n);
  }

  lemma ReportedPeer(cfg: Config, h: History, p: Uid, s: PeerState, n: nat)
    requires HistoryInv(cfg, h) && PeerInv(cfg, h, p, s) && s.role == Leader && |s.indices| > 0
    requires n == MajorityIndex(s.indices) && n < |s.log|
    requires h.commits && s.log[n].term == s.term && n > s.commitIndex ==> |s.indices| / 2 + 1 >= (ClusterSize(cfg) - 1) / 2
    ensures PeerInv(cfg, h, p, if s.log[n].term == s.term && n > s.commitIndex then UpdateCommitIndex(s, n) else s)
  {
    if s.log[n].term == s.term && n > s.commitIndex {
      ReportThenCommit(cfg, h, p, s, n);
    }
  }

  lemma ReportsAreEnough(s: PeerState, source: Uid, m: Message, s1: PeerState, n: nat)
    requires m.AppendRsp? && m.success && m.term == s.term && s.role == Leader
    requires AppendRspInBounds(s, source, m) && P4EnoughReports(s, source, m)
    requires s1 == s.(indices := s.indices[source := m.lastIndex]) && n == MajorityIndex(s1.indices) && n < |s1.log|
    ensures s1.log[n].term == s1.term && n > s1.commitIndex ==> |s1.indices| / 2 + 1 >= (|s.members| - 1) / 2
  {
    assert s1.indices.Keys == s.indices.Keys + {source};
    ReportEffect(s, source, m, s1, n);
  }

  lemma ReportKeepsInv(cfg: Config, c: Cluster, h: History, l: Link, m: Message, s: PeerState)
    requires Inv(cfg, c, h) && l in c.queues && m.AppendRsp? && m.success && MessageInv(cfg, h, l, m)
    requires c.peers[l.target] == s && m.term == s.term && s.role == Leader
    requires AppendRspInBounds(s, l.source, m) && (h.commits ==> P4EnoughReports(s, l.source, m))
    ensures Inv(cfg, Become(c, l.target, RecvAppendRsp(s, l.source, m)), h)
  {
    PeerOf(cfg, c, h, l.target);
    ReportKeepsPeer(cfg, h, l, s, m);
    var s1 := s.(indices := s.indices[l.source := m.lastIndex]);
    var n := MajorityIndex(s1.indices);
    ReportEffect(s, l.source, m, s1, n);
    if h.commits {
      ReportsAreEnough(s, l.source, m, s1, n);
    }
    ReportedPeer(cfg, h, l.target, s1, n);
    QuietKeepsInv(cfg, c, h, l.target, RecvAppendRsp(s, l.source, m).peer);
  }

  /** A follower that is behind gets everything from one entry earlier on. */
  lemma CatchUpKeepsInv(cfg: Config, c: Cluster, h: History, l: Link, s: PeerState, prevIndex: nat)
    requires Inv(cfg, c, h) && l in c.queues && c.peers[l.target] == s && s.role == Leader && prevIndex < |s.log|
    ensures Inv(cfg, Become(c, l.target, Effect(s, [Packet(l.source, PrefixRequest(s, prevIndex))])), h)
  {
    var p := l.target;
    PeerOf(cfg, c, h, p);
    SameHistory(h, p);
    var back := Link(p, l.source);
    if back in c.queues {
      assert QueueInv(cfg, h, back, c.queues[back]);
      LeaderMaySend(cfg, h, h, p, s, prevIndex, back, c.queues[back]);
    }
    ReplyKeepsInv(cfg, c, h, p, s, l.source, PrefixRequest(s, prevIndex));
  }

  /** Under the invariant a leader never reads outside its log. */
  lemma AppendRspStaysInBounds(cfg: Config, c: Cluster, h: History, l: Link, m: Message)
    requires h.commits && Inv(cfg, c, h) && l in c.queues && m.AppendRsp? && MessageInv(cfg, h, l, m)
    requires m.term == c.peers[l.target].term && m.requestTerm == m.term && c.peers[l.target].role == Leader
    ensures AppendRspInBounds(c.peers[l.target], l.source, m)
  {
    var p := l.target;
    var s := c.peers[p];
    PeerOf(cfg, c, h, p);
    if m.success {
      ReportKeepsPeer(cfg, h, l, s, m);
      var s1 := s.(indices := s.indices[l.source := m.lastIndex]);
      assert l.source in s1.indices;
      MajorityIndexInLog(cfg, h, p, s1);
    }
  }

  lemma CatchUpEffect(s: PeerState, source: Uid, m: Message)
    requires m.AppendRsp? && m.term <= s.term && AppendRspInBounds(s, source, m)
    ensures s.role != Leader ==> RecvAppendRsp(s, source, m) == Effect(s, [])
    ensures s.role == Leader && !m.success ==>
      1 <= m.prevIndex < |s.log|
      && RecvAppendRsp(s, source, m) == Effect(s, [Packet(source, PrefixRequest(s, m.prevIndex - 1))])
  {}

  lemma RejectionKeepsInv(cfg: Config, c: Cluster, h: History, l: Link, s: PeerState, prevIndex: nat, e: Effect)
    requires Inv(cfg, c, h) && l in c.queues && c.peers[l.target] == s && s.role == Leader && prevIndex < |s.log|
    requires e == Effect(s, [Packet(l.source, PrefixRequest(s, prevIndex))])
    ensures Inv(cfg, Become(c, l.target, e), h)
  {
    CatchUpKeepsInv(cfg, c, h, l, s, prevIndex);
  }

  lemma LeaderAppendRspKeepsInv(cfg: Config, c: Cluster, h: History, l: Link, m: Message, s: PeerState)
    requires Inv(cfg, c, h) && l in c.queues && m.AppendRsp? && MessageInv(cfg, h, l, m)
    requires c.peers[l.target] == s && s.role == Leader && m.term == s.term
    requires AppendRspInBounds(s, l.source, m) && (h.commits ==> P4EnoughReports(s, l.source, m))
    ensures Inv(cfg, Become(c, l.target, RecvAppendRsp(s, l.source, m)), h)
  {
    if m.success {
      ReportKeepsInv(cfg, c, h, l, m, s);
    } else {
      CatchUpEffect(s, l.source, m);
      RejectionKeepsInv(cfg, c, h, l, s, m.prevIndex - 1, RecvAppendRsp(s, l.source, m));
    }
  }

  /** Handling an append response once the term check is done. */
  lemma AppendRspKeepsInv(cfg: Config, c: Cluster, h: History, l: Link, m: Message, s: PeerState)
    requires Inv(cfg, c, h) && l in c.queues && m.AppendRsp? && MessageInv(cfg, h, l, m)
    requires c.peers[l.target] == s && m.term <= s.term
    requires AppendRspInBounds(s, l.source, m) && (h.commits ==> P4EnoughReports(s, l.source, m))
    requires s.role == Leader ==> m.term == s.term
    ensures Inv(cfg, Become(c, l.target, RecvAppendRsp(s, l.source, m)), h)
  {
    if s.role == Leader {
      LeaderAppendRspKeepsInv(cfg, c, h, l, m, s);
    } else {
      CatchUpEffect(s, l.source, m);
      PeerOf(cfg, c, h, l.target);
      QuietKeepsInv(cfg, c, h, l.target, s);
    }
  }
}

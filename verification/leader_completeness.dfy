/** Log matching and leader completeness, as consequences of the history invariant. */
module LeaderCompleteness {
  import opened Uids
  import opened PeerSpec
  import opened CommitRule
  import opened Clusters
  import opened ClusterInvariant

  lemma {:induction false} ElementsSize(ids: seq<Uid>)
    requires forall i, j | 0 <= i < j < |ids| :: ids[i] != ids[j]
    ensures |Elements(ids)| == |ids|
  {
    if ids != [] {
      ElementsSize(ids[1..]);
      assert Elements(ids) == Elements(ids[1..]) + {ids[0]};
    }
  }

  lemma MajoritiesMeet(cfg: Config, a: set<Uid>, b: set<Uid>) returns (v: Uid)
    requires ValidConfig(cfg)
    requires a <= Members(cfg) && b <= Members(cfg)
    requires IsMajority(|a|, ClusterSize(cfg)) && MeetsMajorities(|b|, ClusterSize(cfg))
    ensures v in a && v in b
  {
    ElementsSize(cfg.members);
    if a * b == {} {
      assert |a + b| == |a| + |b|;
      SubsetSize(a + b, Members(cfg));
      assert false;
    }
    v :| v in a * b;
  }

  lemma {:induction false} SubsetSize<T>(a: set<T>, b: set<T>)
    requires a <= b
    ensures |a| <= |b|
  {
    if a != {} {
      var x :| x in a;
      SubsetSize(a - {x}, b - {x});
    }
  }

  lemma ShorterPrefix<T>(a: seq<T>, b: seq<T>, i: nat, j: nat)
    requires i <= j <= |a| && j <= |b| && a[..j] == b[..j]
    ensures a[..i] == b[..i]
  {
    assert a[..i] == a[..j][..i];
    assert b[..i] == b[..j][..i];
  }

  /** Logs with the same term at an index are identical up to it. */
  lemma LogMatching(h: History, a: seq<Entry>, b: seq<Entry>, i: nat)
    requires Recorded(h, a) && Recorded(h, b)
    requires i < |a| && i < |b| && a[i].term == b[i].term
    ensures a[..i + 1] == b[..i + 1]
  {
    assert RecordedAt(h, a, i) && RecordedAt(h, b, i);
  }

  /** Terms do not decrease along a log. */
  lemma TermsAscend(log: seq<Entry>, top: int, i: nat, j: nat)
    requires WellFormed(log, top) && i <= j < |log|
    ensures log[i].term <= log[j].term
  {
    if i < j {
      assert Ordered(log, i, j);
    }
  }

  /** A candidate whose log is as up to date as a voter's keeps an entry the voter kept, unless a
      reign in between had lost it. */
  lemma UpToDateKeeps(h: History, candidate: seq<Entry>, voter: seq<Entry>, n: nat, t: nat, top: nat)
    requires WellFormed(candidate, top - 1) && WellFormed(voter, top)
    requires Recorded(h, candidate) && Recorded(h, voter)
    requires forall u | u in h.reigns :: WellFormed(h.reigns[u].log, u)
    requires UpToDate(candidate, voter)
    requires Has(voter, n, t)
    requires forall u | t < u < top && u in h.reigns :: Has(h.reigns[u].log, n, t)
    ensures Has(candidate, n, t)
  {
    var c, v := |candidate| - 1, |voter| - 1;
    assert RecordedAt(h, candidate, c) && RecordedAt(h, voter, v);
    var last := candidate[c].term;
    var log := h.reigns[last].log;
    assert n < v ==> Ordered(voter, n, v);
    assert candidate == candidate[..c + 1] == log[..c + 1];
    if last == voter[v].term {
      assert voter == voter[..v + 1] == log[..v + 1];
      assert candidate[n] == log[n] == voter[n];
    } else {
      assert Has(log, n, t);
      assert log[c] == candidate[c];
      if c <= n {
        TermsAscend(log, last, c, n);
      }
      assert candidate[n] == log[n];
    }
  }

  /** The vote of a peer that accepted the entry still holds it, if no reign in between lost it. */
  lemma VoteKeeps(cfg: Config, h: History, t: nat, n: nat, u: nat, v: Uid)
    requires HistoryInv(cfg, h)
    requires At(v, u) in h.ballots && AcceptedEntry(h, v, t, n) && t < u
    requires u in h.reigns && v in h.reigns[u].voters
    requires forall w | t < w < u && w in h.reigns :: Has(h.reigns[w].log, n, t)
    ensures Has(h.ballots[At(v, u)].log, n, t)
  {
    assert BallotKeeps(h, v, u);
    assert Kept(h, h.ballots[At(v, u)].log, n, t, u);
    forall w: nat | w < u ensures !Lost(h, n, t, w) {}
  }

  /** The winner of term u stood with a log that keeps whatever one of its voters kept. */
  lemma WinnerKeeps(cfg: Config, h: History, t: nat, n: nat, u: nat, v: Uid)
    requires HistoryInv(cfg, h)
    requires u in h.reigns && t < u && v in h.reigns[u].voters
    requires At(v, u) in h.ballots && Has(h.ballots[At(v, u)].log, n, t)
    requires forall w | t < w < u && w in h.reigns :: Has(h.reigns[w].log, n, t)
    ensures n < h.reigns[u].base && Has(h.reigns[u].log, n, t)
  {
    var r := h.reigns[u];
    assert ElectedInv(cfg, h, u);
    assert Voted(h, v, u, r.leader);
    var vote, stand := h.ballots[At(v, u)], h.ballots[At(r.leader, u)];
    assert BallotInv(cfg, h, v, u) && BallotInv(cfg, h, r.leader, u);
    forall w | w in h.reigns ensures WellFormed(h.reigns[w].log, w) {
      assert ReignInv(h, w);
    }
    UpToDateKeeps(h, stand.log, vote.log, n, t, u);
    assert r.log[n] == r.log[..r.base][n];
  }

  /** An entry accepted by half of the cluster or more in its own term is in the log of every later leader. */
  lemma {:induction false} CommittedSurvives(cfg: Config, h: History, t: nat, n: nat, u: nat)
    requires ValidConfig(cfg) && HistoryInv(cfg, h)
    requires Committed(cfg, h, t, n)
    requires u in h.reigns && t < u
    ensures n < h.reigns[u].base && Has(h.reigns[u].log, n, t)
    decreases u
  {
    forall w | t < w < u && w in h.reigns ensures Has(h.reigns[w].log, n, t) {
      CommittedSurvives(cfg, h, t, n, w);
    }
    assert ElectedInv(cfg, h, u);
    var v := MajoritiesMeet(cfg, h.reigns[u].voters, Acceptors(cfg, h, t, n));
    assert Voted(h, v, u, h.reigns[u].leader);
    VoteKeeps(cfg, h, t, n, u, v);
    WinnerKeeps(cfg, h, t, n, u, v);
  }

  /** What is committed in term t is a prefix of every leader's log of term t and later. */
  lemma StableSurvives(cfg: Config, h: History, t: nat, c: nat, u: nat)
    requires ValidConfig(cfg) && HistoryInv(cfg, h)
    requires Stable(cfg, h, t, c) && u in h.reigns && t <= u
    ensures c < |h.reigns[u].log| && h.reigns[u].log[..c + 1] == h.reigns[t].log[..c + 1]
    ensures t < u ==> c < h.reigns[u].base
  {
    if t < u {
      var w: nat, n: nat :| w <= t && c <= n && Committed(cfg, h, w, n)
        && h.reigns[w].log[..c + 1] == h.reigns[t].log[..c + 1];
      CommittedSurvives(cfg, h, w, n, u);
      var a, b := h.reigns[w].log, h.reigns[u].log;
      assert ReignInv(h, w) && ReignInv(h, u);
      LogMatching(h, a, b, n);
      ShorterPrefix(a, b, c + 1, n + 1);
    }
  }

  /** Two stable prefixes agree as far as both reach. */
  lemma StableAgree(cfg: Config, h: History, t: nat, c: nat, u: nat, d: nat)
    requires ValidConfig(cfg) && HistoryInv(cfg, h)
    requires Stable(cfg, h, t, c) && Stable(cfg, h, u, d) && c <= d
    ensures h.reigns[t].log[..c + 1] == h.reigns[u].log[..c + 1]
  {
    if t <= u {
      StableSurvives(cfg, h, t, c, u);
    } else {
      StableSurvives(cfg, h, u, d, t);
      ShorterPrefix(h.reigns[t].log, h.reigns[u].log, c + 1, d + 1);
    }
  }
}

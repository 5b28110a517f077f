/** What holds of every run of a cluster, of any size and at any pair of moments: of elections and logs under
    P1 and P2 alone (`IsDefinedRun`), of commitment under P1 to P4 (`IsRun`). */
module ClusterSafety {
  import opened Uids
  import opened PeerSpec
  import opened Clusters
  import opened ClusterInvariant
  import opened LeaderCompleteness
  import opened ClusterFrame
  import opened ClusterNext

  // ---- A history for every state of a run

  lemma ExtendsTransitive(h: History, h1: History, h2: History)
    requires Extends(h, h1) && Extends(h1, h2)
    ensures Extends(h, h2)
  {
    forall t | t in h.reigns ensures t in h2.reigns && ReignGrows(h.reigns[t], h2.reigns[t], t) {
      ReignGrowsTransitive(h.reigns[t], h1.reigns[t], h2.reigns[t], t);
    }
  }

  /** A run of either kind: under P1 to P4 if `commits`, else under P1 and P2. */
  ghost predicate Runs(cfg: Config, commits: bool, states: seq<Cluster>, steps: seq<Step>) {
    if commits then IsRun(cfg, states, steps) else IsDefinedRun(cfg, states, steps)
  }

  ghost predicate Explains(cfg: Config, commits: bool, states: seq<Cluster>, hs: seq<History>) {
    && |hs| == |states|
    && (forall i {:trigger Inv(cfg, states[i], hs[i])} | 0 <= i < |hs| ::
          hs[i].commits == commits && Inv(cfg, states[i], hs[i]))
    && forall i, j {:trigger Extends(hs[i], hs[j])} | 0 <= i <= j < |hs| :: Extends(hs[i], hs[j])
  }

  lemma ExplainsOneMore(cfg: Config, commits: bool, front: seq<Cluster>, before: seq<History>, c: Cluster, h: History)
    requires |before| > 0 && Explains(cfg, commits, front, before)
    requires Inv(cfg, c, h) && h.commits == commits && Extends(before[|before| - 1], h) && Extends(h, h)
    ensures Explains(cfg, commits, front + [c], before + [h])
  {
    var states, hs, n := front + [c], before + [h], |before|;
    forall i | 0 <= i < |hs| ensures hs[i].commits == commits && Inv(cfg, states[i], hs[i]) {
      if i < n {
        assert Inv(cfg, front[i], before[i]);
      }
    }
    forall i, j | 0 <= i <= j < |hs| ensures Extends(hs[i], hs[j]) {
      if j < n {
        assert Extends(before[i], before[j]);
      } else if i < n {
        assert Extends(before[i], before[n - 1]);
        ExtendsTransitive(before[i], before[n - 1], h);
      }
    }
  }

  lemma ExtendsReflexive(h: History)
    ensures Extends(h, h)
  {}

  lemma RunPrefix(cfg: Config, states: seq<Cluster>, steps: seq<Step>, n: nat)
    requires IsRun(cfg, states, steps) && n <= |steps|
    ensures IsRun(cfg, states[..n + 1], steps[..n])
  {
    var front, early := states[..n + 1], steps[..n];
    forall i | 0 <= i < n ensures StepAt(cfg, front, early, i) {
      assert StepAt(cfg, states, steps, i);
    }
  }

  lemma DefinedRunPrefix(cfg: Config, states: seq<Cluster>, steps: seq<Step>, n: nat)
    requires IsDefinedRun(cfg, states, steps) && n <= |steps|
    ensures IsDefinedRun(cfg, states[..n + 1], steps[..n])
  {
    var front, early := states[..n + 1], steps[..n];
    forall i | 0 <= i < n ensures DefinedAt(cfg, front, early, i) {
      assert DefinedAt(cfg, states, steps, i);
    }
  }

  lemma EarlierRun(cfg: Config, commits: bool, states: seq<Cluster>, steps: seq<Step>, n: nat)
    requires Runs(cfg, commits, states, steps) && n <= |steps|
    ensures Runs(cfg, commits, states[..n + 1], steps[..n])
  {
    if commits {
      RunPrefix(cfg, states, steps, n);
    } else {
      DefinedRunPrefix(cfg, states, steps, n);
    }
  }

  lemma ExplainedAt(cfg: Config, commits: bool, states: seq<Cluster>, hs: seq<History>, i: nat)
    requires Explains(cfg, commits, states, hs) && i < |hs|
    ensures Inv(cfg, states[i], hs[i]) && hs[i].commits == commits
  {}

  lemma StepOfRun(cfg: Config, states: seq<Cluster>, steps: seq<Step>, i: nat)
    requires IsRun(cfg, states, steps) && i < |steps|
    ensures Next(cfg, states[i], steps[i], states[i + 1])
  {
    assert StepAt(cfg, states, steps, i);
  }

  lemma StepOfDefinedRun(cfg: Config, states: seq<Cluster>, steps: seq<Step>, i: nat)
    requires IsDefinedRun(cfg, states, steps) && i < |steps|
    ensures DefinedNext(cfg, states[i], steps[i], states[i + 1])
  {
    assert DefinedAt(cfg, states, steps, i);
  }

  lemma NextMoment(cfg: Config, commits: bool, states: seq<Cluster>, steps: seq<Step>, i: nat, h: History)
    returns (h': History)
    requires Runs(cfg, commits, states, steps) && i < |steps| && Inv(cfg, states[i], h) && h.commits == commits
    ensures Inv(cfg, states[i + 1], h') && Extends(h, h') && Extends(h', h')
  {
    if commits {
      StepOfRun(cfg, states, steps, i);
      h' := NextKeepsInv(cfg, states[i], h, steps[i], states[i + 1]);
    } else {
      StepOfDefinedRun(cfg, states, steps, i);
      h' := DefinedNextKeepsInv(cfg, states[i], h, steps[i], states[i + 1]);
    }
    ExtendsReflexive(h');
  }

  lemma NextHistory(cfg: Config, commits: bool, states: seq<Cluster>, steps: seq<Step>, before: seq<History>)
    returns (hs: seq<History>)
    requires Runs(cfg, commits, states, steps) && |steps| > 0 && |states| == |steps| + 1
    requires Explains(cfg, commits, states[..|steps|], before)
    ensures Explains(cfg, commits, states, hs)
  {
    var n := |steps| - 1;
    ExplainedAt(cfg, commits, states[..|steps|], before, n);
    var h := NextMoment(cfg, commits, states, steps, n, before[n]);
    ExplainsOneMore(cfg, commits, states[..|steps|], before, states[n + 1], h);
    assert states == states[..|steps|] + [states[n + 1]];
    hs := before + [h];
  }

  lemma FirstHistory(cfg: Config, commits: bool, states: seq<Cluster>)
    requires ValidConfig(cfg) && |states| == 1 && Init(cfg, states[0])
    ensures Explains(cfg, commits, states, [InitialHistory(cfg, commits)])
  {
    InitKeepsInv(cfg, states[0], commits);
    ExtendsReflexive(InitialHistory(cfg, commits));
  }

  lemma {:induction false} RunHistories(cfg: Config, commits: bool, states: seq<Cluster>, steps: seq<Step>)
    returns (hs: seq<History>)
    requires Runs(cfg, commits, states, steps)
    ensures Explains(cfg, commits, states, hs)
    decreases |steps|
  {
    if |steps| == 0 {
      FirstHistory(cfg, commits, states);
      hs := [InitialHistory(cfg, commits)];
    } else {
      EarlierRun(cfg, commits, states, steps, |steps| - 1);
      var before := RunHistories(cfg, commits, states[..|steps|], steps[..|steps| - 1]);
      hs := NextHistory(cfg, commits, states, steps, before);
    }
  }

  function PeerAt(states: seq<Cluster>, i: nat, p: Uid): PeerState
    requires i < |states| && p in states[i].peers
  {
    states[i].peers[p]
  }

  ghost predicate InRun(cfg: Config, states: seq<Cluster>, steps: seq<Step>, i: nat, p: Uid) {
    IsRun(cfg, states, steps) && i < |states| && p in states[i].peers
  }

  ghost predicate InDefinedRun(cfg: Config, states: seq<Cluster>, steps: seq<Step>, i: nat, p: Uid) {
    IsDefinedRun(cfg, states, steps) && i < |states| && p in states[i].peers
  }

  /** A history of moment i, and of two moments a later one both extend to. */
  lemma TwoMoments(cfg: Config, commits: bool, states: seq<Cluster>, steps: seq<Step>, i: nat, j: nat)
    returns (hi: History, hj: History, h: History)
    requires Runs(cfg, commits, states, steps) && i < |states| && j < |states|
    ensures Inv(cfg, states[i], hi) && Inv(cfg, states[j], hj) && hi.commits == hj.commits == commits
    ensures Extends(hi, h) && Extends(hj, h) && HistoryInv(cfg, h)
  {
    var hs := RunHistories(cfg, commits, states, steps);
    var k := if i <= j then j else i;
    hi, hj, h := hs[i], hs[j], hs[k];
    assert Inv(cfg, states[i], hs[i]) && Inv(cfg, states[j], hs[j]) && Inv(cfg, states[k], hs[k]);
    assert Extends(hs[i], hs[k]) && Extends(hs[j], hs[k]);
  }

  lemma HeldIn(cfg: Config, c: Cluster, h: History, p: Uid)
    requires h.commits && Inv(cfg, c, h) && p in c.peers
    ensures HoldsCommitted(cfg, h, p, c.peers[p].term, c.peers[p].log, c.peers[p].commitIndex)
    ensures Replayed(cfg, c.peers[p])
  {
    assert PeerInv(cfg, h, p, c.peers[p]);
  }

  lemma RecordedIn(cfg: Config, c: Cluster, h: History, p: Uid)
    requires Inv(cfg, c, h) && p in c.peers
    ensures Recorded(h, c.peers[p].log)
  {
    assert PeerInv(cfg, h, p, c.peers[p]);
  }

  lemma LedBy(cfg: Config, c: Cluster, h: History, p: Uid, t: nat)
    requires Inv(cfg, c, h) && p in c.peers && c.peers[p].role == Leader && c.peers[p].term == t
    ensures t in h.reigns && h.reigns[t].leader == p && h.reigns[t].log == c.peers[p].log
    ensures h.reigns[t].base <= |h.reigns[t].log|
  {
    assert PeerInv(cfg, h, p, c.peers[p]);
    assert ReignInv(h, t);
  }

  // ---- Elections and logs, under P1 and P2

  /** At most one peer ever leads a term. */
  lemma ElectionSafety(cfg: Config, states: seq<Cluster>, steps: seq<Step>, i: nat, p: Uid, j: nat, q: Uid)
    requires InDefinedRun(cfg, states, steps, i, p) && InDefinedRun(cfg, states, steps, j, q)
    requires PeerAt(states, i, p).role == Leader && PeerAt(states, j, q).role == Leader
    requires PeerAt(states, i, p).term == PeerAt(states, j, q).term
    ensures p == q
  {
    var hi, hj, h := TwoMoments(cfg, false, states, steps, i, j);
    var t := PeerAt(states, i, p).term;
    LedBy(cfg, states[i], hi, p, t);
    LedBy(cfg, states[j], hj, q, t);
    assert ReignGrows(hi.reigns[t], h.reigns[t], t) && ReignGrows(hj.reigns[t], h.reigns[t], t);
  }

  /** Logs that hold the same term at an index are identical up to it, whenever and wherever they are. */
  lemma LogMatchingAlways(cfg: Config, states: seq<Cluster>, steps: seq<Step>, i: nat, p: Uid, j: nat, q: Uid, k: nat)
    requires InDefinedRun(cfg, states, steps, i, p) && InDefinedRun(cfg, states, steps, j, q)
    requires k < |PeerAt(states, i, p).log| && k < |PeerAt(states, j, q).log|
    requires PeerAt(states, i, p).log[k].term == PeerAt(states, j, q).log[k].term
    ensures PeerAt(states, i, p).log[..k + 1] == PeerAt(states, j, q).log[..k + 1]
  {
    var hi, hj, h := TwoMoments(cfg, false, states, steps, i, j);
    RecordedIn(cfg, states[i], hi, p);
    RecordedIn(cfg, states[j], hj, q);
    RecordedGrows(hi, h, PeerAt(states, i, p).log);
    RecordedGrows(hj, h, PeerAt(states, j, q).log);
    LogMatching(h, PeerAt(states, i, p).log, PeerAt(states, j, q).log, k);
  }

  /** What never changes of a peer, and what its log always is. */
  lemma PeerInRun(cfg: Config, states: seq<Cluster>, steps: seq<Step>, i: nat, p: Uid)
    requires InDefinedRun(cfg, states, steps, i, p)
    ensures Shaped(cfg, states[i]) && p in Members(cfg)
    ensures PeerAt(states, i, p).id == p && PeerAt(states, i, p).members == cfg.members
    ensures WellFormed(PeerAt(states, i, p).log, PeerAt(states, i, p).term) && SameRelations(cfg, PeerAt(states, i, p))
  {
    var hi, hj, h := TwoMoments(cfg, false, states, steps, i, i);
    assert PeerInv(cfg, hi, p, states[i].peers[p]);
  }

  // ---- Commitment, under P1 to P4

  /** In one history, what a log holds committed up to c agrees with what another holds up to d >= c. */
  lemma HeldAgree(cfg: Config, h: History, p: Uid, t: nat, a: seq<Entry>, c: nat, q: Uid, u: nat, b: seq<Entry>, d: nat)
    requires ValidConfig(cfg) && HistoryInv(cfg, h) && c <= d
    requires HoldsCommitted(cfg, h, p, t, a, c) && HoldsCommitted(cfg, h, q, u, b, d)
    ensures a[..c + 1] == b[..c + 1]
  {
    var v: nat :| Stable(cfg, h, v, c) && h.reigns[v].log[..c + 1] == a[..c + 1];
    var w: nat :| Stable(cfg, h, w, d) && h.reigns[w].log[..d + 1] == b[..d + 1];
    StableAgree(cfg, h, v, c, w, d);
    ShorterPrefix(h.reigns[w].log, b, c + 1, d + 1);
  }

  /** What a peer holds committed at moment i, seen from a later history. */
  lemma HeldLater(cfg: Config, c: Cluster, h: History, h': History, p: Uid)
    requires h.commits && Inv(cfg, c, h) && p in c.peers && Extends(h, h')
    ensures HoldsCommitted(cfg, h', p, c.peers[p].term, c.peers[p].log, c.peers[p].commitIndex)
  {
    HeldIn(cfg, c, h, p);
    HoldsCommittedGrows(cfg, h, h', p, c.peers[p].term, c.peers[p].log, c.peers[p].commitIndex);
  }

  /** Two peers at two moments, seen from one history. */
  lemma BothHeld(cfg: Config, states: seq<Cluster>, steps: seq<Step>, i: nat, p: Uid, j: nat, q: Uid) returns (h: History)
    requires InRun(cfg, states, steps, i, p) && InRun(cfg, states, steps, j, q)
    ensures HistoryInv(cfg, h)
    ensures var s := PeerAt(states, i, p); HoldsCommitted(cfg, h, p, s.term, s.log, s.commitIndex)
    ensures var r := PeerAt(states, j, q); HoldsCommitted(cfg, h, q, r.term, r.log, r.commitIndex)
  {
    var hi, hj, h' := TwoMoments(cfg, true, states, steps, i, j);
    HeldLater(cfg, states[i], hi, h', p);
    HeldLater(cfg, states[j], hj, h', q);
    h := h';
  }

  /** Two peers, at any two moments, agree on every entry both have committed. */
  lemma StateMachineSafety(cfg: Config, states: seq<Cluster>, steps: seq<Step>, i: nat, p: Uid, j: nat, q: Uid)
    requires InRun(cfg, states, steps, i, p) && InRun(cfg, states, steps, j, q)
    requires PeerAt(states, i, p).commitIndex <= PeerAt(states, j, q).commitIndex
    ensures PeerAt(states, i, p).commitIndex < |PeerAt(states, i, p).log|
    ensures PeerAt(states, j, q).commitIndex < |PeerAt(states, j, q).log|
    ensures PeerAt(states, i, p).log[..PeerAt(states, i, p).commitIndex + 1]
         == PeerAt(states, j, q).log[..PeerAt(states, i, p).commitIndex + 1]
  {
    var h := BothHeld(cfg, states, steps, i, p, j, q);
    var s, r := PeerAt(states, i, p), PeerAt(states, j, q);
    HeldAgree(cfg, h, p, s.term, s.log, s.commitIndex, q, r.term, r.log, r.commitIndex);
  }

  /** A log that holds entries committed in earlier terms agrees with the reign of a later term, as
      soon as that reign exists. */
  lemma HeldSurvives(cfg: Config, h: History, hj: History, p: Uid, t: nat, log: seq<Entry>, c: nat, u: nat)
    requires ValidConfig(cfg) && HistoryInv(cfg, h) && Extends(hj, h)
    requires HoldsCommitted(cfg, h, p, t, log, c)
    requires u in hj.reigns && t < u && hj.reigns[u].base <= |hj.reigns[u].log|
    ensures c < |hj.reigns[u].log| && log[..c + 1] == hj.reigns[u].log[..c + 1]
  {
    var v: nat :| v <= t && Stable(cfg, h, v, c) && h.reigns[v].log[..c + 1] == log[..c + 1];
    assert ReignGrows(hj.reigns[u], h.reigns[u], u);
    StableSurvives(cfg, h, v, c, u);
    ReignPrefix(hj, h, u, c + 1);
  }

  /** A peer at one moment and a leader at another, seen from one history. */
  lemma HeldAndLed(cfg: Config, states: seq<Cluster>, steps: seq<Step>, i: nat, p: Uid, j: nat, q: Uid)
    returns (h: History, hj: History)
    requires InRun(cfg, states, steps, i, p) && InRun(cfg, states, steps, j, q)
    requires PeerAt(states, j, q).role == Leader
    ensures HistoryInv(cfg, h) && Extends(hj, h)
    ensures var s := PeerAt(states, i, p); HoldsCommitted(cfg, h, p, s.term, s.log, s.commitIndex)
    ensures PeerAt(states, j, q).term in hj.reigns
    ensures hj.reigns[PeerAt(states, j, q).term].log == PeerAt(states, j, q).log
    ensures hj.reigns[PeerAt(states, j, q).term].base <= |PeerAt(states, j, q).log|
  {
    var hi, hj', h' := TwoMoments(cfg, true, states, steps, i, j);
    HeldLater(cfg, states[i], hi, h', p);
    LedBy(cfg, states[j], hj', q, PeerAt(states, j, q).term);
    h, hj := h', hj';
  }

  /** What any peer has committed while in a term is in the log of every leader of a later term, even
      of one elected before the commit happened. */
  lemma LeadersAreComplete(cfg: Config, states: seq<Cluster>, steps: seq<Step>, i: nat, p: Uid, j: nat, q: Uid)
    requires InRun(cfg, states, steps, i, p) && InRun(cfg, states, steps, j, q)
    requires PeerAt(states, j, q).role == Leader && PeerAt(states, j, q).term > PeerAt(states, i, p).term
    ensures PeerAt(states, i, p).commitIndex < |PeerAt(states, i, p).log|
    ensures PeerAt(states, i, p).commitIndex < |PeerAt(states, j, q).log|
    ensures PeerAt(states, i, p).log[..PeerAt(states, i, p).commitIndex + 1]
         == PeerAt(states, j, q).log[..PeerAt(states, i, p).commitIndex + 1]
  {
    var h, hj := HeldAndLed(cfg, states, steps, i, p, j, q);
    var s := PeerAt(states, i, p);
    HeldSurvives(cfg, h, hj, p, s.term, s.log, s.commitIndex, PeerAt(states, j, q).term);
  }

  lemma ReplayedInRun(cfg: Config, states: seq<Cluster>, steps: seq<Step>, i: nat, p: Uid)
    requires InRun(cfg, states, steps, i, p)
    ensures Replayed(cfg, PeerAt(states, i, p))
  {
    var hi, hj, h := TwoMoments(cfg, true, states, steps, i, i);
    HeldIn(cfg, states[i], hi, p);
  }

  /** A peer's workflow is the configured one with its committed EXEC entries applied in order, once
      each. */
  lemma WorkflowIsReplay(cfg: Config, states: seq<Cluster>, steps: seq<Step>, i: nat, p: Uid)
    requires InRun(cfg, states, steps, i, p)
    ensures PeerAt(states, i, p).commitIndex < |PeerAt(states, i, p).log|
    ensures PeerAt(states, i, p).workflow
         == Apply(cfg.workflow, PeerAt(states, i, p).log[..PeerAt(states, i, p).commitIndex + 1])
  {
    ReplayedInRun(cfg, states, steps, i, p);
  }

  /** Replicas that committed equally much are in the same workflow state. */
  lemma ReplicasAgree(cfg: Config, states: seq<Cluster>, steps: seq<Step>, i: nat, p: Uid, j: nat, q: Uid)
    requires InRun(cfg, states, steps, i, p) && InRun(cfg, states, steps, j, q)
    requires PeerAt(states, i, p).commitIndex == PeerAt(states, j, q).commitIndex
    ensures PeerAt(states, i, p).workflow == PeerAt(states, j, q).workflow
  {
    StateMachineSafety(cfg, states, steps, i, p, j, q);
    WorkflowIsReplay(cfg, states, steps, i, p);
    WorkflowIsReplay(cfg, states, steps, j, q);
  }

  /** No handler ever reads outside a vector, so every step is the one the handlers define. */
  lemma ReadsStayInside(cfg: Config, states: seq<Cluster>, steps: seq<Step>, i: nat)
    requires IsRun(cfg, states, steps) && i < |steps|
    ensures Possible(cfg, states[i], steps[i]) && InBounds(cfg, states[i], steps[i])
    ensures states[i + 1] == Take(cfg, states[i], steps[i])
  {
    assert StepAt(cfg, states, steps, i);
    var hi, hj, h := TwoMoments(cfg, true, states, steps, i, i);
    StaysInBounds(cfg, states[i], hi, steps[i]);
  }

  /** So what holds under P1 and P2 alone holds of these runs. */
  lemma RunIsDefined(cfg: Config, states: seq<Cluster>, steps: seq<Step>)
    requires IsRun(cfg, states, steps)
    ensures IsDefinedRun(cfg, states, steps)
  {
    forall i | 0 <= i < |steps| ensures DefinedAt(cfg, states, steps, i) {
      ReadsStayInside(cfg, states, steps, i);
    }
  }

  // ---- Commit indexes

  lemma AcceptKeepsCommit(cfg: Config, h: History, l: Link, s: PeerState, m: Message)
    requires h.commits && HistoryInv(cfg, h) && Recorded(h, s.log) && m.AppendReq? && MessageInv(cfg, h, l, m)
    requires s.commitIndex < |s.log|
    ensures s.commitIndex <= RecvAppendReq(s, l.source, m).peer.commitIndex
  {
    if TermAndIndexExist(s.log, m.prevTerm, m.prevIndex) {
      assert |UpTo(s.log, m.prevIndex) + m.entries| == End(m);
    }
  }

  lemma AppendKeepsCommit(p: PeerState, entry: Entry)
    requires p.commitIndex < |p.log|
    ensures AppendToLog(p, entry).peer.commitIndex >= p.commitIndex
  {}

  lemma CommandsKeepCommit(p: PeerState, req: CommandReq, idle: bool, tagUid: Uid)
    requires p.commitIndex < |p.log|
    ensures RecvCommandReq(p, req).peer.commitIndex >= p.commitIndex
    ensures PeerSpec.Timeout(p, idle, tagUid).peer.commitIndex >= p.commitIndex
  {
    var entries := EntryForCommand(p, req);
    if entries != [] {
      AppendKeepsCommit(p, entries[0]);
    }
    AppendKeepsCommit(p, NewEntry(p, p.clusterEvent, p.id, Tag(tagUid, Checkpoint)));
  }

  lemma AnswerKeepsCommit(p: PeerState, rsp: CommandRsp)
    requires p.commitIndex < |p.log| && CommandRspInBounds(p, rsp)
    ensures RecvCommandRsp(p, rsp).peer.commitIndex >= p.commitIndex
  {
    var p1 := p.(lockedEvents := p.lockedEvents + {EventOfPeer(p, rsp.source)});
    AppendKeepsCommit(p1, NewEntry(p1, p.clusterEvent, p.id, Tag(rsp.tag.uid, Exec)));
  }

  lemma HandleKeepsCommit(cfg: Config, c: Cluster, h: History, l: Link, m: Message, s: PeerState)
    requires h.commits && Inv(cfg, c, h) && l in c.queues && c.peers[l.target] == s && s.commitIndex < |s.log|
    requires MessageInv(cfg, h, l, m) && (m.AppendRsp? ==> AppendRspInBounds(s, l.source, m))
    ensures Handle(s, l.source, m).peer.commitIndex >= s.commitIndex
  {
    match m {
      case ElectionReq(_, _, _) =>
      case ElectionRsp(_, _, _) =>
      case AppendReq(_, _, _, _, _) =>
        RecordedIn(cfg, c, h, l.target);
        AcceptKeepsCommit(cfg, h, l, s, m);
      case AppendRsp(_, _, _, _, _, _) =>
    }
  }

  lemma DeliveryKeepsCommit(cfg: Config, c: Cluster, h: History, l: Link)
    requires h.commits && Inv(cfg, c, h) && CanHappen(cfg, c, Deliver(l)) && InBounds(cfg, c, Deliver(l))
    ensures Handle(c.peers[l.target], l.source, c.queues[l][0]).peer.commitIndex >= c.peers[l.target].commitIndex
  {
    PopKeepsInv(cfg, c, h, l);
    PeerBounds(cfg, c, h, l.target);
    HandleKeepsCommit(cfg, c, h, l, c.queues[l][0], c.peers[l.target]);
  }

  lemma EffectKeepsCommit(cfg: Config, c: Cluster, h: History, s: Step)
    requires h.commits && Inv(cfg, c, h) && CanHappen(cfg, c, s) && InBounds(cfg, c, s) && !s.Lose?
    ensures EffectOf(cfg, c, s).peer.commitIndex >= c.peers[Actor(s)].commitIndex
  {
    PeerBounds(cfg, c, h, Actor(s));
    match s
    case Timer(q, idle, tagUid) => CommandsKeepCommit(c.peers[q], CommandReq(0, Tag(0, Lock), 0), idle, tagUid);
    case PollWon(_) =>
    case Learn(_, _, _) =>
    case Command(q, req) => CommandsKeepCommit(c.peers[q], req, false, 0);
    case CommandAnswer(q, rsp) => AnswerKeepsCommit(c.peers[q], rsp);
    case Deliver(l) => DeliveryKeepsCommit(cfg, c, h, l);
  }

  /** One step never lowers a commit index. */
  lemma StepKeepsCommit(cfg: Config, states: seq<Cluster>, steps: seq<Step>, i: nat, p: Uid)
    requires InRun(cfg, states, steps, i, p) && i < |steps|
    ensures p in states[i + 1].peers && PeerAt(states, i, p).commitIndex <= PeerAt(states, i + 1, p).commitIndex
  {
    ReadsStayInside(cfg, states, steps, i);
    PeersAfterStep(cfg, states[i], steps[i]);
    if !steps[i].Lose? {
      var hi, hj, h := TwoMoments(cfg, true, states, steps, i, i);
      EffectKeepsCommit(cfg, states[i], hi, steps[i]);
    }
  }

  /** Commit indexes only grow, and what lies at or below one never changes: no append, truncation or
      change of leader touches it. */
  lemma {:induction false} CommitIndexGrows(cfg: Config, states: seq<Cluster>, steps: seq<Step>, i: nat, j: nat, p: Uid)
    requires InRun(cfg, states, steps, i, p) && i <= j < |states|
    ensures p in states[j].peers && PeerAt(states, i, p).commitIndex <= PeerAt(states, j, p).commitIndex
    decreases j
  {
    if i < j {
      CommitIndexGrows(cfg, states, steps, i, j - 1, p);
      StepKeepsCommit(cfg, states, steps, j - 1, p);
    }
  }

  lemma CommittedNeverChanges(cfg: Config, states: seq<Cluster>, steps: seq<Step>, i: nat, j: nat, p: Uid)
    requires InRun(cfg, states, steps, i, p) && i <= j < |states|
    ensures p in states[j].peers && PeerAt(states, i, p).commitIndex <= PeerAt(states, j, p).commitIndex
    ensures PeerAt(states, i, p).commitIndex < |PeerAt(states, i, p).log|
    ensures PeerAt(states, i, p).commitIndex < |PeerAt(states, j, p).log|
    ensures PeerAt(states, i, p).log[..PeerAt(states, i, p).commitIndex + 1]
         == PeerAt(states, j, p).log[..PeerAt(states, i, p).commitIndex + 1]
  {
    CommitIndexGrows(cfg, states, steps, i, j, p);
    StateMachineSafety(cfg, states, steps, i, p, j, p);
  }
}

/** The inductive invariant of the cluster, stated over history variables: what each elected leader's
    log is, who voted for whom with which log, and how much of a leader's log each peer accepted. It has
    two parts. The first, about elections and logs, needs P1 and P2 only; the second, about commitment,
    is claimed of runs that respect P3 and P4 as well. */
module ClusterInvariant {
  import opened Uids
  import opened PeerSpec
  import opened CommitRule
  import opened Clusters

  datatype At = At(peer: Uid, term: nat)

  /** A vote and the voter's log when it was cast. A candidate's vote for itself holds the log it
      stands with. */
  datatype Ballot = Ballot(candidate: Uid, log: seq<Entry>)

  /** The leader of a term, its log now (or when it last led), how much of it precedes the term, and
      who elected it. */
  datatype Reign = Reign(leader: Uid, base: nat, log: seq<Entry>, voters: set<Uid>)

  /** `commits` says that the part about commitment is claimed. */
  datatype History = History(
    commits: bool,
    reigns: map<nat, Reign>,
    ballots: map<At, Ballot>,
    accepted: map<At, nat>,
    counted: map<At, set<Uid>>)

  // ---- Logs

  predicate Has(log: seq<Entry>, n: nat, t: nat) {
    n < |log| && log[n].term == t
  }

  predicate Ordered(log: seq<Entry>, i: nat, j: nat)
    requires i < j < |log|
  {
    log[i].term <= log[j].term
  }

  predicate WellFormed(log: seq<Entry>, top: int) {
    && |log| > 0 && log[0] == EMPTY_ENTRY
    && (forall i | 0 <= i < |log| :: log[i].index == i && log[i].term <= top)
    && (forall i, j {:trigger Ordered(log, i, j)} | 0 <= i < j < |log| :: Ordered(log, i, j))
  }

  /** The log up to i is what the leader of the term of entry i had there. */
  predicate RecordedAt(h: History, log: seq<Entry>, i: nat)
    requires i < |log|
  {
    && log[i].term in h.reigns
    && i < |h.reigns[log[i].term].log|
    && h.reigns[log[i].term].log[..i + 1] == log[..i + 1]
  }

  predicate Recorded(h: History, log: seq<Entry>) {
    forall i {:trigger RecordedAt(h, log, i)} | 0 <= i < |log| :: RecordedAt(h, log, i)
  }

  predicate UpToDate(candidate: seq<Entry>, voter: seq<Entry>)
    requires |candidate| > 0 && |voter| > 0
  {
    var c, v := candidate[|candidate| - 1].term, voter[|voter| - 1].term;
    v < c || (v == c && |voter| <= |candidate|)
  }

  // ---- History

  predicate ReignInv(h: History, t: nat)
    requires t in h.reigns
  {
    var r := h.reigns[t];
    && WellFormed(r.log, t)
    && Recorded(h, r.log)
    && r.base <= |r.log|
    && forall i | 0 <= i < |r.log| :: r.base <= i <==> r.log[i].term == t
  }

  predicate Voted(h: History, voter: Uid, t: nat, candidate: Uid) {
    At(voter, t) in h.ballots && h.ballots[At(voter, t)].candidate == candidate
  }

  predicate ElectedInv(cfg: Config, h: History, t: nat)
    requires t in h.reigns
  {
    var r := h.reigns[t];
    && r.leader in Members(cfg)
    && r.voters <= Members(cfg)
    && IsMajority(|r.voters|, ClusterSize(cfg))
    && (forall v | v in r.voters :: Voted(h, v, t, r.leader))
    && Voted(h, r.leader, t, r.leader)
    && r.base == |h.ballots[At(r.leader, t)].log| <= |r.log|
    && r.log[..r.base] == h.ballots[At(r.leader, t)].log
  }

  predicate BallotInv(cfg: Config, h: History, v: Uid, t: nat)
    requires At(v, t) in h.ballots
  {
    var b := h.ballots[At(v, t)];
    && v in Members(cfg) && b.candidate in Members(cfg) && t > 0
    && WellFormed(b.log, if v == b.candidate then t - 1 else t)
    && Recorded(h, b.log)
    && Voted(h, b.candidate, t, b.candidate)
    && |h.ballots[At(b.candidate, t)].log| > 0
    && UpToDate(h.ballots[At(b.candidate, t)].log, b.log)
  }

  predicate AcceptedInv(cfg: Config, h: History, p: Uid, t: nat)
    requires At(p, t) in h.accepted
  {
    && p in Members(cfg)
    && t in h.reigns
    && h.reigns[t].base <= h.accepted[At(p, t)] <= |h.reigns[t].log|
    && 1 <= h.accepted[At(p, t)]
  }

  predicate CountedInv(cfg: Config, h: History, c: Uid, t: nat)
    requires At(c, t) in h.counted
  {
    && c in Members(cfg)
    && c in h.counted[At(c, t)]
    && forall v | v in h.counted[At(c, t)] :: v in Members(cfg) && Voted(h, v, t, c)
  }

  /** Peer p accepted entry n of term t while it was in term t. */
  predicate AcceptedEntry(h: History, p: Uid, t: nat, n: nat) {
    && t in h.reigns && Has(h.reigns[t].log, n, t)
    && At(p, t) in h.accepted && n < h.accepted[At(p, t)]
  }

  predicate Lost(h: History, n: nat, t: nat, u: nat) {
    u in h.reigns && t < u && !Has(h.reigns[u].log, n, t)
  }

  /** Entry n of term t is in the log, or some reign after t and before `top` had already lost it. */
  ghost predicate Kept(h: History, log: seq<Entry>, n: nat, t: nat, top: nat) {
    Has(log, n, t) || exists u: nat :: u < top && Lost(h, n, t, u)
  }

  /** A vote's log keeps what the voter accepted before, unless it came too late to elect anyone. */
  ghost predicate BallotKeeps(h: History, v: Uid, top: nat)
    requires At(v, top) in h.ballots
  {
    || (top in h.reigns && v !in h.reigns[top].voters)
    || forall t: nat, n: nat {:trigger AcceptedEntry(h, v, t, n)} | t < top && AcceptedEntry(h, v, t, n) ::
         Kept(h, h.ballots[At(v, top)].log, n, t, top)
  }

  ghost predicate HistoryInv(cfg: Config, h: History) {
    && 0 in h.reigns && h.reigns[0].base == 0
    && (forall t {:trigger ReignInv(h, t)} | t in h.reigns :: ReignInv(h, t))
    && (forall t {:trigger ElectedInv(cfg, h, t)} | t in h.reigns && t > 0 :: ElectedInv(cfg, h, t))
    && (forall q, t {:trigger BallotInv(cfg, h, q, t)} | At(q, t) in h.ballots :: BallotInv(cfg, h, q, t))
    && (forall q, t {:trigger BallotKeeps(h, q, t)} | At(q, t) in h.ballots :: BallotKeeps(h, q, t))
    && (forall q, t {:trigger AcceptedInv(cfg, h, q, t)} | At(q, t) in h.accepted :: AcceptedInv(cfg, h, q, t))
    && (forall q, t {:trigger CountedInv(cfg, h, q, t)} | At(q, t) in h.counted :: CountedInv(cfg, h, q, t))
  }

  // ---- Commitment

  /** The peers that accepted entry n of term t. */
  ghost function Acceptors(cfg: Config, h: History, t: nat, n: nat): set<Uid> {
    set p | p in Members(cfg) && AcceptedEntry(h, p, t, n)
  }

  ghost predicate Committed(cfg: Config, h: History, t: nat, n: nat) {
    && t in h.reigns && Has(h.reigns[t].log, n, t)
    && MeetsMajorities(|Acceptors(cfg, h, t, n)|, ClusterSize(cfg))
  }

  /** The prefix of the leader's log of term t that ends at c was committed in term t or before. */
  ghost predicate Stable(cfg: Config, h: History, t: nat, c: nat) {
    && t in h.reigns && c < |h.reigns[t].log|
    && exists u: nat, n: nat ::
      && u <= t && c <= n && Committed(cfg, h, u, n)
      && h.reigns[u].log[..c + 1] == h.reigns[t].log[..c + 1]
  }

  /** A peer in term `term` with this log holds committed entries up to c. */
  ghost predicate HoldsCommitted(cfg: Config, h: History, p: Uid, term: nat, log: seq<Entry>, c: nat) {
    && c < |log|
    && exists t: nat ::
      && t <= term && Stable(cfg, h, t, c) && h.reigns[t].log[..c + 1] == log[..c + 1]
      && (t == term ==> At(p, t) in h.accepted && c < h.accepted[At(p, t)])
  }

  // ---- Peers

  ghost predicate RoleInv(h: History, s: PeerState) {
    match s.role
    case Follower =>
      At(s.id, s.term) in h.ballots ==> s.endorsement == h.ballots[At(s.id, s.term)].candidate
    case Candidate =>
      && Voted(h, s.id, s.term, s.id)
      && h.ballots[At(s.id, s.term)].log == s.log
      && At(s.id, s.term) in h.counted
      && |h.counted[At(s.id, s.term)]| == s.electionVotes
    case Leader =>
      && s.term in h.reigns && h.reigns[s.term].leader == s.id && h.reigns[s.term].log == s.log
      && At(s.id, s.term) in h.accepted && h.accepted[At(s.id, s.term)] == |s.log|
  }

  predicate ReportInv(cfg: Config, h: History, s: PeerState, f: Uid)
    requires f in s.indices
  {
    && f in Members(cfg) && f != s.id
    && At(f, s.term) in h.accepted && s.indices[f] < h.accepted[At(f, s.term)]
  }

  ghost predicate TermInv(h: History, s: PeerState) {
    && (forall t: nat | At(s.id, t) in h.ballots :: t <= s.term)
    && (forall t: nat | At(s.id, t) in h.accepted :: t <= s.term)
    && (forall t | t in h.reigns && h.reigns[t].leader == s.id :: t <= s.term && (t == s.term ==> s.role == Leader))
  }

  predicate LogInv(h: History, log: seq<Entry>, top: int) {
    WellFormed(log, top) && Recorded(h, log)
  }

  /** While a peer is in a term in which it accepted an append, its log is what it accepted. */
  predicate AcceptedLogInv(h: History, p: Uid, term: nat, log: seq<Entry>) {
    At(p, term) in h.accepted ==>
      && term in h.reigns && h.accepted[At(p, term)] <= |h.reigns[term].log|
      && log == h.reigns[term].log[..h.accepted[At(p, term)]]
  }

  ghost predicate KeptInv(h: History, p: Uid, term: nat, log: seq<Entry>) {
    forall t: nat, n: nat {:trigger AcceptedEntry(h, p, t, n)} | AcceptedEntry(h, p, t, n) :: Kept(h, log, n, t, term + 1)
  }

  /** The workflow is the configured one with the committed EXEC entries applied in order. */
  predicate Replayed(cfg: Config, s: PeerState) {
    s.commitIndex < |s.log| && s.workflow == Apply(cfg.workflow, s.log[..s.commitIndex + 1])
  }

  /** No event is added to or taken from a relation of the workflow. */
  predicate SameRelations(cfg: Config, s: PeerState) {
    s.workflow == cfg.workflow.(events := s.workflow.events)
  }

  /** Elections and logs. */
  ghost predicate LogPart(cfg: Config, h: History, p: Uid, s: PeerState) {
    && s.id == p && s.members == cfg.members && p in Members(cfg)
    && LogInv(h, s.log, s.term)
    && TermInv(h, s)
    && RoleInv(h, s)
    && AcceptedLogInv(h, p, s.term, s.log)
    && KeptInv(h, p, s.term, s.log)
    && SameRelations(cfg, s)
  }

  /** What a leader commits, and what it is going to. */
  ghost predicate LeaderCommits(cfg: Config, h: History, s: PeerState) {
    && Stable(cfg, h, s.term, s.commitIndex)
    && forall f {:trigger ReportInv(cfg, h, s, f)} | f in s.indices :: ReportInv(cfg, h, s, f)
  }

  /** Commitment. */
  ghost predicate CommitPart(cfg: Config, h: History, p: Uid, s: PeerState) {
    && HoldsCommitted(cfg, h, p, s.term, s.log, s.commitIndex)
    && Replayed(cfg, s)
    && (s.role == Leader ==> LeaderCommits(cfg, h, s))
  }

  ghost predicate PeerInv(cfg: Config, h: History, p: Uid, s: PeerState) {
    LogPart(cfg, h, p, s) && (h.commits ==> CommitPart(cfg, h, p, s))
  }

  // ---- Messages

  function End(m: Message): nat
    requires m.AppendReq?
  {
    m.prevIndex + 1 + |m.entries|
  }

  ghost predicate AppendReqInv(cfg: Config, h: History, l: Link, m: Message)
    requires m.AppendReq?
  {
    && m.term in h.reigns && h.reigns[m.term].leader == l.source
    && h.reigns[m.term].base <= End(m) <= |h.reigns[m.term].log|
    && m.prevTerm == h.reigns[m.term].log[m.prevIndex].term
    && m.entries == h.reigns[m.term].log[m.prevIndex + 1..End(m)]
    && (h.commits ==> m.commitIndex < End(m) && Stable(cfg, h, m.term, m.commitIndex))
  }

  ghost predicate MessageInv(cfg: Config, h: History, l: Link, m: Message) {
    match m
    case ElectionReq(t, lastTerm, lastIndex) =>
      && Voted(h, l.source, t, l.source)
      && var log := h.ballots[At(l.source, t)].log;
         |log| > 0 && lastTerm == log[|log| - 1].term && lastIndex == |log| - 1
    case ElectionRsp(t, success, requestTerm) =>
      requestTerm <= t && (success ==> t == requestTerm && Voted(h, l.source, t, l.target))
    case AppendReq(t, _, _, _, _) => AppendReqInv(cfg, h, l, m)
    case AppendRsp(t, _, prevIndex, success, lastIndex, requestTerm) =>
      && requestTerm <= t
      && (success ==> t == requestTerm)
      && (t == requestTerm ==> t in h.reigns && h.reigns[t].leader == l.target)
      && (success ==> At(l.source, t) in h.accepted && lastIndex < h.accepted[At(l.source, t)])
      && (!success && t == requestTerm ==> 1 <= prevIndex < |h.reigns[t].log|)
  }

  /** What the receiver has not seen yet: a vote it has not counted, an append that does not end
      before what it has accepted. */
  predicate NewsInv(h: History, l: Link, m: Message) {
    match m
    case ElectionRsp(t, success, _) => success && At(l.target, t) in h.counted ==> l.source !in h.counted[At(l.target, t)]
    case AppendReq(t, _, _, _, _) => At(l.target, t) in h.accepted ==> h.accepted[At(l.target, t)] <= End(m)
    case _ => true
  }

  /** What P1 keeps between an earlier and a later message of one link. */
  predicate OrderInv(m1: Message, m2: Message) {
    && (m1.AppendReq? && m2.AppendReq? && m1.term == m2.term ==> End(m1) <= End(m2))
    && (m1.ElectionRsp? && m2.ElectionRsp? && m1.success && m2.success ==> m1.term != m2.term)
  }

  ghost predicate ItemsInv(cfg: Config, h: History, l: Link, q: seq<Message>) {
    forall i | 0 <= i < |q| :: MessageInv(cfg, h, l, q[i]) && NewsInv(h, l, q[i])
  }

  predicate InSendingOrder(q: seq<Message>) {
    forall i, j {:trigger OrderInv(q[i], q[j])} | 0 <= i < j < |q| :: OrderInv(q[i], q[j])
  }

  ghost predicate QueueInv(cfg: Config, h: History, l: Link, q: seq<Message>) {
    ItemsInv(cfg, h, l, q) && InSendingOrder(q)
  }

  ghost predicate Inv(cfg: Config, c: Cluster, h: History) {
    && ValidConfig(cfg)
    && Shaped(cfg, c)
    && HistoryInv(cfg, h)
    && (forall p {:trigger PeerInv(cfg, h, p, c.peers[p])} | p in c.peers :: PeerInv(cfg, h, p, c.peers[p]))
    && forall l {:trigger QueueInv(cfg, h, l, c.queues[l])} | l in c.queues :: QueueInv(cfg, h, l, c.queues[l])
  }

  // ---- How history grows

  predicate ReignGrows(r: Reign, r': Reign, t: nat) {
    && r'.leader == r.leader && r'.base == r.base && r'.voters == r.voters
    && r.log <= r'.log
    && forall i | |r.log| <= i < |r'.log| :: r'.log[i].term == t
  }

  /** Reigns keep their leaders and only append; peers only accept more. */
  ghost predicate Extends(h: History, h': History) {
    && h'.commits == h.commits
    && (forall t | t in h.reigns :: t in h'.reigns && ReignGrows(h.reigns[t], h'.reigns[t], t))
    && (forall k | k in h.accepted :: k in h'.accepted && h.accepted[k] <= h'.accepted[k])
  }

  /** One step of peer p: its own reign, votes, acceptances and counts may grow, nothing else. */
  ghost predicate GrowsBy(h: History, h': History, p: Uid) {
    && Extends(h, h')
    && (forall t | t in h.reigns && h.reigns[t].leader != p :: h'.reigns[t] == h.reigns[t])
    && (forall t | t in h'.reigns && t !in h.reigns :: h'.reigns[t].leader == p)
    && (forall k | k in h.ballots :: k in h'.ballots && h'.ballots[k] == h.ballots[k])
    && (forall k | k in h'.ballots && k !in h.ballots :: k.peer == p)
    && (forall k | k in h'.accepted && k.peer != p :: k in h.accepted && h'.accepted[k] == h.accepted[k])
    && (forall k | k in h.counted :: k in h'.counted && h.counted[k] <= h'.counted[k])
    && (forall k | k in h'.counted && k.peer != p :: k in h.counted && h'.counted[k] == h.counted[k])
  }
}

/** What the handlers do where the hypotheses of the cluster theorems fail, and exactly when. */
module Hypotheses {
  import opened Uids
  import opened PeerSpec
  import opened ClusterInvariant
  import opened Sending

  // ---- P1 and P2: one grant, delivered often or late

  /** The peer after n deliveries of one message. */
  function Redelivered(p: PeerState, source: Uid, m: Message, n: nat): (r: PeerState)
    requires |p.log| > 0 && m.ElectionRsp?
    ensures |r.log| > 0
  {
    if n == 0 then p else RecvElectionRsp(Redelivered(p, source, m, n - 1), source, m).peer
  }

  /** Votes are counted by message: a candidate wins on n deliveries of one grant, of its own or of an
      earlier term, exactly when it would win on n votes. */
  lemma {:induction false} GrantsCountByMessage(p: PeerState, source: Uid, m: Message, n: nat)
    requires |p.log| > 0 && p.role == Candidate && p.electionVotes <= |p.members| / 2
    requires m.ElectionRsp? && m.success && m.term <= p.term
    ensures var r := Redelivered(p, source, m, n);
      && r.term == p.term && r.members == p.members
      && (r.role == Leader <==> p.electionVotes + n > |p.members| / 2)
      && (r.role != Leader ==> r.role == Candidate && r.electionVotes == p.electionVotes + n)
  {
    if n > 0 {
      GrantsCountByMessage(p, source, m, n - 1);
    }
  }

  // ---- P1: an append that arrives late

  /** What an accepted append keeps, at any index: the log up to n stays as it was exactly when the request
      reaches beyond n and its entries agree with the log up to there. */
  lemma AcceptedAppendKeepsIff(p: PeerState, source: Uid, m: Message, n: nat)
    requires m.AppendReq? && Accepts(p, m) && n < |p.log|
    ensures var after := RecvAppendReq(p, source, m).peer.log;
      (n < |after| && after[..n + 1] == p.log[..n + 1])
      <==> n < End(m) && forall i | m.prevIndex < i <= n :: m.entries[i - m.prevIndex - 1] == p.log[i]
  {
    AcceptedLogIs(p, source, m);
    var after := UpTo(p.log, m.prevIndex) + m.entries;
    if n < |after| {
      if after[..n + 1] == p.log[..n + 1] {
        forall i | m.prevIndex < i <= n ensures m.entries[i - m.prevIndex - 1] == p.log[i] {
          assert after[..n + 1][i] == p.log[..n + 1][i];
        }
      }
      if forall i | m.prevIndex < i <= n :: m.entries[i - m.prevIndex - 1] == p.log[i] {
        forall i | 0 <= i <= n ensures after[i] == p.log[i] {
          assert i > m.prevIndex ==> after[i] == m.entries[i - m.prevIndex - 1];
        }
        assert after[..n + 1] == p.log[..n + 1];
      }
    }
  }

  /** When a follower keeps what it has committed: exactly when the append reaches beyond its commit index
      and agrees with its log up to there. The commit index then does not fall either. */
  lemma CommittedSurvivesIff(p: PeerState, source: Uid, m: Message)
    requires m.AppendReq? && Accepts(p, m) && p.commitIndex < |p.log|
    ensures var q, c := RecvAppendReq(p, source, m).peer, p.commitIndex;
      (c <= q.commitIndex < |q.log| && q.log[..c + 1] == p.log[..c + 1])
      <==> c < End(m) && forall i | m.prevIndex < i <= c :: m.entries[i - m.prevIndex - 1] == p.log[i]
  {
    AcceptedLogIs(p, source, m);
    AcceptedAppendKeepsIff(p, source, m, p.commitIndex);
  }
}

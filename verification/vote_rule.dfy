/** Exactly when a peer votes, told by what it has voted before: no field of the peer but its term and its
    log is mentioned. */
module VoteRule {
  import opened Uids
  import opened PeerSpec
  import opened Clusters
  import opened Votes

  // ---- A vote that is gone was cast

  /** What a call leaves spent that was not, it spent on a vote. */
  predicate SpendsOnVotes(p: PeerState, e: Effect) {
    Spent(e.peer) && (e.peer.term > p.term || !Spent(p)) ==> VotesCast(p, e) != {}
  }

  lemma CandidacySpends(p: PeerState)
    requires |p.log| > 0
    ensures SpendsOnVotes(p, StartElection(p))
  {
    assert Vote(p.term + 1, p.id) in VotesCast(p, StartElection(p));
  }

  lemma QuietSpendsNone(p: PeerState, e: Effect)
    requires e.peer.term == p.term && e.peer.role == p.role && e.peer.endorsement == p.endorsement
    ensures SpendsOnVotes(p, e)
  {}

  lemma OvertakenSpendsNone(p: PeerState, p1: PeerState, e: Effect, term: nat, source: Uid)
    requires p1 == Overtake(p, term, source)
    requires e.peer.term == p1.term && e.peer.role == p1.role && e.peer.endorsement == p1.endorsement
    ensures SpendsOnVotes(p, e)
  {}

  lemma TickSpends(p: PeerState, idle: bool, tagUid: Uid)
    requires TimerInBounds(p, idle)
    ensures SpendsOnVotes(p, PeerSpec.Timeout(p, idle, tagUid))
  {
    match p.role
    case Leader => AppendCastsNone(p, NewEntry(p, p.clusterEvent, p.id, Tag(tagUid, Checkpoint)));
    case Candidate => CandidacySpends(p);
    case Follower =>
  }

  lemma CommandSpendsNone(p: PeerState, req: CommandReq)
    requires CommandReqInBounds(p, req)
    ensures SpendsOnVotes(p, RecvCommandReq(p, req))
  {
    if EntryForCommand(p, req) != [] {
      AppendCastsNone(p, EntryForCommand(p, req)[0]);
    }
  }

  lemma AnswerSpendsNone(p: PeerState, rsp: CommandRsp)
    requires CommandRspInBounds(p, rsp)
    ensures SpendsOnVotes(p, RecvCommandRsp(p, rsp))
  {
    if LockAnswerCounts(p, rsp) {
      var p1 := p.(lockedEvents := p.lockedEvents + {EventOfPeer(p, rsp.source)});
      AppendCastsNone(p1, NewEntry(p1, p.clusterEvent, p.id, Tag(rsp.tag.uid, Exec)));
    }
  }

  lemma GrantSpends(p: PeerState, source: Uid, m: Message)
    requires |p.log| > 0 && m.ElectionReq?
    ensures SpendsOnVotes(p, RecvElectionReq(p, source, m))
  {
    var e := RecvElectionReq(p, source, m);
    if Spent(e.peer) && (e.peer.term > p.term || !Spent(p)) {
      assert e.sent[0] in e.sent;
      assert Vote(e.peer.term, source) in VotesCast(p, e);
    }
  }

  lemma WinSpendsNone(p: PeerState, source: Uid, m: Message)
    requires |p.log| > 0 && m.ElectionRsp?
    ensures SpendsOnVotes(p, RecvElectionRsp(p, source, m))
  {}

  lemma MessageSpends(p: PeerState, source: Uid, m: Message)
    requires |p.log| > 0 && (m.AppendRsp? ==> AppendRspInBounds(p, source, m))
    ensures SpendsOnVotes(p, Handle(p, source, m))
  {
    match m
    case ElectionReq(_, _, _) => GrantSpends(p, source, m);
    case ElectionRsp(_, _, _) => WinSpendsNone(p, source, m);
    case AppendReq(_, _, _, _, _) =>
      OvertakenSpendsNone(p, Overtake(p, m.term, source), RecvAppendReq(p, source, m), m.term, source);
    case AppendRsp(_, _, _, _, _, _) =>
      OvertakenSpendsNone(p, Overtake(p, m.term, source), RecvAppendRsp(p, source, m), m.term, source);
  }

  lemma CallSpends(p: PeerState, call: Ecall)
    requires CallInBounds(p, call)
    ensures SpendsOnVotes(p, Call(p, call))
  {
    match call
    case Tick(idle, tagUid) => TickSpends(p, idle, tagUid);
    case PollAnswer =>
      if p.role == Follower {
        CandidacySpends(p);
      }
    case PollHeard(source, term) => OvertakenSpendsNone(p, Overtake(p, term, source), Call(p, call), term, source);
    case CommandHeard(req) => CommandSpendsNone(p, req);
    case AnswerHeard(rsp) => AnswerSpendsNone(p, rsp);
    case Heard(source, m) => MessageSpends(p, source, m);
  }

  // ---- Whole lives

  /** Before call i the peer has cast a vote of this term. */
  ghost predicate HasVoted(states: seq<PeerState>, calls: seq<Ecall>, i: nat, term: nat)
    requires IsLife(states, calls) && i <= |calls|
  {
    exists j, v :: 0 <= j < i && CallInBounds(states[j], calls[j]) && v in VotesAt(states, calls, j) && v.term == term
  }

  lemma {:induction false} SpentMeansVoted(states: seq<PeerState>, calls: seq<Ecall>, i: nat)
    requires IsLife(states, calls) && SourcesKnown(calls) && i <= |calls| && !Spent(states[0]) && Spent(states[i])
    ensures HasVoted(states, calls, i, states[i].term)
  {
    var j := i - 1;
    StepVotesOnce(states, calls, j);
    CallSpends(states[j], calls[j]);
    if states[i].term == states[j].term && Spent(states[j]) {
      SpentMeansVoted(states, calls, j);
      var k, v :| 0 <= k < j && CallInBounds(states[k], calls[k]) && v in VotesAt(states, calls, k)
        && v.term == states[j].term;
      assert k < i;
    } else {
      assert SourceKnown(calls[j]);
      var v :| v in VotesCast(states[j], Call(states[j], calls[j]));
      assert v in VotesAt(states, calls, j) && v.term == states[i].term;
    }
  }

  lemma VotedMeansSpent(states: seq<PeerState>, calls: seq<Ecall>, i: nat)
    requires IsLife(states, calls) && SourcesKnown(calls) && i <= |calls| && HasVoted(states, calls, i, states[i].term)
    ensures Spent(states[i])
  {
    var j, v :| 0 <= j < i && CallInBounds(states[j], calls[j]) && v in VotesAt(states, calls, j)
      && v.term == states[i].term;
    StepVotesOnce(states, calls, j);
    assert SourceKnown(calls[j]);
    TermNeverDecreases(states, calls, j + 1, i);
  }

  lemma LaterTermIsOpen(states: seq<PeerState>, calls: seq<Ecall>, i: nat, term: nat)
    requires IsLife(states, calls) && SourcesKnown(calls) && i <= |calls| && term > states[i].term
    ensures !HasVoted(states, calls, i, term)
  {
    forall j, v | 0 <= j < i && CallInBounds(states[j], calls[j]) && v in VotesAt(states, calls, j)
      ensures v.term != term
    {
      StepVotesOnce(states, calls, j);
      assert SourceKnown(calls[j]);
      TermNeverDecreases(states, calls, j + 1, i);
    }
  }

  /** (term, index) of a last entry, in the order of terms and then of indexes. */
  predicate NotBehind(term: nat, index: nat, last: Entry) {
    term > last.term || (term == last.term && index >= last.index)
  }

  lemma GrantIff(p: PeerState, source: Uid, m: Message)
    requires |p.log| > 0 && m.ElectionReq?
    ensures Vote(m.term, source) in VotesCast(p, RecvElectionReq(p, source, m)) <==>
      && m.term >= p.term && NotBehind(m.lastTerm, m.lastIndex, LastEntry(p))
      && (m.term > p.term || !Spent(p))
  {
    var e := RecvElectionReq(p, source, m);
    if m.term >= p.term && NotBehind(m.lastTerm, m.lastIndex, LastEntry(p)) && (m.term > p.term || !Spent(p)) {
      assert e.sent[0] in e.sent;
    }
  }

  /** Over any life of a peer that starts as a follower without a vote: it grants a request exactly when the
      request is not of an earlier term, the candidate's last entry is not behind its own, and it has cast no
      vote of that term before, not even for itself. */
  lemma VotesExactlyWhen(states: seq<PeerState>, calls: seq<Ecall>, i: nat, source: Uid, m: Message)
    requires IsLife(states, calls) && SourcesKnown(calls) && !Spent(states[0])
    requires i < |calls| && calls[i] == Heard(source, m) && m.ElectionReq? && CallInBounds(states[i], calls[i])
    ensures Vote(m.term, source) in VotesAt(states, calls, i) <==>
      && m.term >= states[i].term && NotBehind(m.lastTerm, m.lastIndex, LastEntry(states[i]))
      && !HasVoted(states, calls, i, m.term)
  {
    GrantIff(states[i], source, m);
    if m.term > states[i].term {
      LaterTermIsOpen(states, calls, i, m.term);
    } else if m.term == states[i].term {
      if Spent(states[i]) {
        SpentMeansVoted(states, calls, i);
      }
      if HasVoted(states, calls, i, m.term) {
        VotedMeansSpent(states, calls, i);
      }
    }
  }
}

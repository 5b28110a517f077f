/** One vote per term, whatever a peer is sent: no assumption on the network or on other peers. */
module Votes {
  import opened Uids
  import opened PeerSpec
  import opened Clusters

  /** The calls into the enclave that run the handlers, with any arguments. `PollAnswer` is a poll that
      reached its quorum, `PollHeard` a poll message, which carries its sender's term. */
  datatype Ecall =
    | Tick(idle: bool, tagUid: Uid)
    | PollAnswer
    | PollHeard(source: Uid, term: nat)
    | CommandHeard(req: CommandReq)
    | AnswerHeard(rsp: CommandRsp)
    | Heard(source: Uid, message: Message)

  /** The call reads inside the peer's vectors. */
  predicate CallInBounds(p: PeerState, call: Ecall) {
    match call
    case Tick(idle, _) => TimerInBounds(p, idle)
    case PollAnswer => |p.log| > 0
    case PollHeard(_, _) => true
    case CommandHeard(req) => CommandReqInBounds(p, req)
    case AnswerHeard(rsp) => CommandRspInBounds(p, rsp)
    case Heard(source, m) => |p.log| > 0 && (m.AppendRsp? ==> AppendRspInBounds(p, source, m))
  }

  function Call(p: PeerState, call: Ecall): Effect
    requires CallInBounds(p, call)
  {
    match call
    case Tick(idle, tagUid) => PeerSpec.Timeout(p, idle, tagUid)
    case PollAnswer => if p.role == Follower then StartElection(p) else Effect(p, [])
    case PollHeard(source, term) => Effect(Overtake(p, term, source), [])
    case CommandHeard(req) => RecvCommandReq(p, req)
    case AnswerHeard(rsp) => RecvCommandRsp(p, rsp)
    case Heard(source, m) => Handle(p, source, m)
  }

  predicate SourceKnown(call: Ecall) {
    call.Heard? ==> call.source != EMPTY_UID
  }

  ghost predicate SourcesKnown(calls: seq<Ecall>) {
    forall i | 0 <= i < |calls| :: SourceKnown(calls[i])
  }

  datatype Vote = Vote(term: nat, candidate: Uid)

  /** The grants a call sends, and the implicit vote for itself of a peer that becomes a candidate. */
  function VotesCast(p: PeerState, e: Effect): set<Vote> {
    (set k | k in e.sent && k.message.ElectionRsp? && k.message.success :: Vote(k.message.term, k.target))
    + if e.peer.role == Candidate && e.peer.term > p.term then {Vote(e.peer.term, p.id)} else {}
  }

  ghost predicate CallAt(states: seq<PeerState>, calls: seq<Ecall>, i: nat)
    requires i < |calls| && i + 1 < |states|
  {
    && CallInBounds(states[i], calls[i])
    && states[i + 1] == Call(states[i], calls[i]).peer
  }

  /** What one peer goes through: `states[i + 1]` is what the call `calls[i]` makes of `states[i]`. */
  ghost predicate IsLife(states: seq<PeerState>, calls: seq<Ecall>) {
    && |states| == |calls| + 1
    && forall i {:trigger CallAt(states, calls, i)} | 0 <= i < |calls| :: CallAt(states, calls, i)
  }

  function VotesAt(states: seq<PeerState>, calls: seq<Ecall>, i: nat): set<Vote>
    requires i < |calls| && i < |states| && CallInBounds(states[i], calls[i])
  {
    VotesCast(states[i], Call(states[i], calls[i]))
  }

  // ---- What one call does

  /** The vote of this term is gone. */
  predicate Spent(p: PeerState) {
    p.endorsement != EMPTY_UID || p.role != Follower
  }

  /** What a call may do to the term and the vote. */
  ghost predicate VotesOnce(p: PeerState, e: Effect) {
    && e.peer.term >= p.term
    && (e.peer.term == p.term && Spent(p) ==> Spent(e.peer))
    && (forall v | v in VotesCast(p, e) :: v.term == e.peer.term)
    && (forall v, w | v in VotesCast(p, e) && w in VotesCast(p, e) :: v == w)
    && (VotesCast(p, e) != {} ==> Spent(e.peer) && (Spent(p) ==> e.peer.term > p.term))
  }

  predicate OnlyAppends(sent: seq<Packet>) {
    forall k | k in sent :: k.message.AppendReq? || k.message.AppendRsp?
  }

  lemma {:induction false} BroadcastIsOf(members: seq<Uid>, self: Uid, m: Message)
    ensures forall k | k in Broadcast(members, self, m) :: k.message == m
  {
    if members != [] {
      BroadcastIsOf(members[..|members| - 1], self, m);
    }
  }

  /** A call that changes neither term, role nor endorsement and sends only appends casts no vote. */
  lemma QuietCastsNone(p: PeerState, e: Effect)
    requires e.peer.term == p.term && e.peer.role == p.role && e.peer.endorsement == p.endorsement
    requires OnlyAppends(e.sent)
    ensures VotesOnce(p, e)
  {}

  lemma OvertakeThenQuiet(p: PeerState, p1: PeerState, e: Effect, term: nat, source: Uid)
    requires p1 == Overtake(p, term, source)
    requires e.peer.term == p1.term && e.peer.role == p1.role && e.peer.endorsement == p1.endorsement
    requires OnlyAppends(e.sent)
    ensures VotesOnce(p, e)
  {}

  lemma AppendCastsNone(p: PeerState, entry: Entry)
    requires |p.log| > 0
    ensures var e := AppendToLog(p, entry);
      && OnlyAppends(e.sent)
      && e.peer.term == p.term && e.peer.role == p.role && e.peer.endorsement == p.endorsement
  {
    var p1 := p.(log := p.log + [entry]);
    BroadcastIsOf(p.members, p.id, PrefixRequest(p1, |p1.log| - 2));
  }

  lemma CandidacyVotesOnce(p: PeerState)
    requires |p.log| > 0
    ensures VotesOnce(p, StartElection(p))
  {
    var p1 := UpdateTerm(p, p.term + 1, p.id).(role := Candidate);
    var m := ElectionReq(p1.term, LastEntry(p1).term, LastEntry(p1).index);
    BroadcastIsOf(p.members, p.id, m);
  }

  lemma TickVotesOnce(p: PeerState, idle: bool, tagUid: Uid)
    requires TimerInBounds(p, idle)
    ensures VotesOnce(p, PeerSpec.Timeout(p, idle, tagUid))
  {
    match p.role
    case Leader =>
      BroadcastIsOf(p.members, p.id, PrefixRequest(p, |p.log| - 1));
      AppendCastsNone(p, NewEntry(p, p.clusterEvent, p.id, Tag(tagUid, Checkpoint)));
      QuietCastsNone(p, PeerSpec.Timeout(p, idle, tagUid));
    case Candidate =>
      CandidacyVotesOnce(p);
    case Follower =>
  }

  lemma CommandsVoteOnce(p: PeerState, req: CommandReq)
    requires CommandReqInBounds(p, req)
    ensures VotesOnce(p, RecvCommandReq(p, req))
  {
    var entries := EntryForCommand(p, req);
    if entries != [] {
      AppendCastsNone(p, entries[0]);
    }
    QuietCastsNone(p, RecvCommandReq(p, req));
  }

  lemma AnswersVoteOnce(p: PeerState, rsp: CommandRsp)
    requires CommandRspInBounds(p, rsp)
    ensures VotesOnce(p, RecvCommandRsp(p, rsp))
  {
    if LockAnswerCounts(p, rsp) {
      var p1 := p.(lockedEvents := p.lockedEvents + {EventOfPeer(p, rsp.source)});
      AppendCastsNone(p1, NewEntry(p1, p.clusterEvent, p.id, Tag(rsp.tag.uid, Exec)));
    }
    QuietCastsNone(p, RecvCommandRsp(p, rsp));
  }

  lemma ElectionReqVotesOnce(p: PeerState, source: Uid, m: Message)
    requires |p.log| > 0 && m.ElectionReq? && source != EMPTY_UID
    ensures VotesOnce(p, RecvElectionReq(p, source, m))
  {}

  lemma ElectionRspVotesOnce(p: PeerState, source: Uid, m: Message)
    requires |p.log| > 0 && m.ElectionRsp?
    ensures VotesOnce(p, RecvElectionRsp(p, source, m))
  {
    var p1 := Overtake(p, m.term, source);
    var p2 := p1.(electionVotes := p1.electionVotes + 1);
    BroadcastIsOf(p2.members, p2.id, PrefixRequest(p2, |p2.log| - 1));
  }

  lemma AppendReqVotesOnce(p: PeerState, source: Uid, m: Message)
    requires m.AppendReq?
    ensures VotesOnce(p, RecvAppendReq(p, source, m))
  {
    OvertakeThenQuiet(p, Overtake(p, m.term, source), RecvAppendReq(p, source, m), m.term, source);
  }

  lemma AppendRspVotesOnce(p: PeerState, source: Uid, m: Message)
    requires m.AppendRsp? && AppendRspInBounds(p, source, m)
    ensures VotesOnce(p, RecvAppendRsp(p, source, m))
  {
    OvertakeThenQuiet(p, Overtake(p, m.term, source), RecvAppendRsp(p, source, m), m.term, source);
  }

  lemma CallVotesOnce(p: PeerState, call: Ecall)
    requires CallInBounds(p, call)
    ensures Call(p, call).peer.term >= p.term
    ensures SourceKnown(call) ==> VotesOnce(p, Call(p, call))
  {
    match call
    case Tick(idle, tagUid) => TickVotesOnce(p, idle, tagUid);
    case PollAnswer =>
      if p.role == Follower {
        CandidacyVotesOnce(p);
      }
    case PollHeard(source, term) =>
      OvertakeThenQuiet(p, Overtake(p, term, source), Call(p, call), term, source);
    case CommandHeard(req) => CommandsVoteOnce(p, req);
    case AnswerHeard(rsp) => AnswersVoteOnce(p, rsp);
    case Heard(source, m) =>
      match m
      case ElectionReq(_, _, _) =>
        if SourceKnown(call) {
          ElectionReqVotesOnce(p, source, m);
        }
      case ElectionRsp(_, _, _) => ElectionRspVotesOnce(p, source, m);
      case AppendReq(_, _, _, _, _) => AppendReqVotesOnce(p, source, m);
      case AppendRsp(_, _, _, _, _, _) => AppendRspVotesOnce(p, source, m);
  }

  // ---- Whole lives

  lemma StepVotesOnce(states: seq<PeerState>, calls: seq<Ecall>, i: nat)
    requires IsLife(states, calls) && i < |calls|
    ensures CallInBounds(states[i], calls[i]) && states[i + 1] == Call(states[i], calls[i]).peer
    ensures states[i + 1].term >= states[i].term
    ensures SourceKnown(calls[i]) ==> VotesOnce(states[i], Call(states[i], calls[i]))
  {
    assert CallAt(states, calls, i);
    CallVotesOnce(states[i], calls[i]);
  }

  /** A peer's term never decreases, and while it stays the same, a vote that is gone stays gone. */
  lemma {:induction false} TermNeverDecreases(states: seq<PeerState>, calls: seq<Ecall>, i: nat, j: nat)
    requires IsLife(states, calls) && i <= j < |states|
    ensures states[i].term <= states[j].term
    ensures SourcesKnown(calls) && states[i].term == states[j].term && Spent(states[i]) ==> Spent(states[j])
    decreases j - i
  {
    if i < j {
      TermNeverDecreases(states, calls, i, j - 1);
      StepVotesOnce(states, calls, j - 1);
    }
  }

  lemma VotesInOrder(states: seq<PeerState>, calls: seq<Ecall>, i: nat, v: Vote, j: nat, w: Vote)
    requires IsLife(states, calls) && SourcesKnown(calls) && i <= j < |calls|
    requires CallInBounds(states[i], calls[i]) && v in VotesAt(states, calls, i)
    requires CallInBounds(states[j], calls[j]) && w in VotesAt(states, calls, j)
    requires v.term == w.term
    ensures i == j && v == w
  {
    StepVotesOnce(states, calls, i);
    StepVotesOnce(states, calls, j);
    if i < j {
      TermNeverDecreases(states, calls, i + 1, j);
    }
  }

  /** In every life of a peer, through any calls with any contents from sources with non-empty ids, two votes
      it casts in one term are the same vote of the same call. */
  lemma AtMostOneVotePerTerm(states: seq<PeerState>, calls: seq<Ecall>, i: nat, v: Vote, j: nat, w: Vote)
    requires IsLife(states, calls) && SourcesKnown(calls) && i < |calls| && j < |calls|
    requires CallInBounds(states[i], calls[i]) && v in VotesAt(states, calls, i)
    requires CallInBounds(states[j], calls[j]) && w in VotesAt(states, calls, j)
    requires v.term == w.term
    ensures i == j && v == w
  {
    if i <= j {
      VotesInOrder(states, calls, i, v, j, w);
    } else {
      VotesInOrder(states, calls, j, w, i, v);
    }
  }

  /** Why sources must not be the empty id: a granted request that arrives a second time is granted a
      second time exactly when it comes from the empty id. */
  lemma GrantedAgainIff(p: PeerState, source: Uid, m: Message)
    requires |p.log| > 0 && m.ElectionReq?
    requires VotesCast(p, RecvElectionReq(p, source, m)) != {}
    ensures var once := RecvElectionReq(p, source, m).peer;
      VotesCast(once, RecvElectionReq(once, source, m)) != {} <==> source == EMPTY_UID
  {
    var e := RecvElectionReq(p, source, m);
    var again := RecvElectionReq(e.peer, source, m);
    if source == EMPTY_UID {
      assert again.sent[0] in again.sent;
      assert Vote(m.term, source) in VotesCast(e.peer, again);
    }
  }
}

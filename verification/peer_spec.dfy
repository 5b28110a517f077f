/** What each entry point of enclave/enclave.cpp and each member function of enclave/raft.cpp makes
    of a peer, as functions from the state before to the state after and the packets sent. */
module PeerSpec {
  import opened Uids
  import opened Workflows
  import opened CommitRule

  datatype Role = Follower | Candidate | Leader

  datatype CommandKind = Lock | Abort | Exec | Checkpoint

  datatype Tag = Tag(uid: Uid, kind: CommandKind)

  datatype Entry = Entry(index: nat, term: nat, event: Uid, source: Uid, tag: Tag)

  /** Every log starts with this entry. */
  const EMPTY_ENTRY := Entry(0, 0, EMPTY_UID, EMPTY_UID, Tag(EMPTY_UID, Checkpoint))

  /** The `last_index` of a rejected append, -1 as an unsigned word. */
  const NO_INDEX := 0xFFFF_FFFF

  datatype PeerState = PeerState(
    id: Uid,
    members: seq<Uid>,
    clusterEvent: Uid,
    peerToEvent: map<Uid, Uid>,
    workflow: Workflow,
    role: Role,
    term: nat,
    leader: Uid,
    endorsement: Uid,
    electionVotes: nat,
    log: seq<Entry>,
    commitIndex: nat,
    indices: map<Uid, nat>,
    lastCheckpoint: nat,
    lockedEvents: set<Uid>)

  /** The messages peers of one cluster exchange. A response also records `requestTerm`, the term of
      the request it answers; no handler reads it. */
  datatype Message =
    | ElectionReq(term: nat, lastTerm: nat, lastIndex: nat)
    | ElectionRsp(term: nat, success: bool, requestTerm: nat)
    | AppendReq(term: nat, prevTerm: nat, prevIndex: nat, commitIndex: nat, entries: seq<Entry>)
    | AppendRsp(term: nat, prevTerm: nat, prevIndex: nat, success: bool, lastIndex: nat, requestTerm: nat)

  datatype Packet = Packet(target: Uid, message: Message)

  datatype Effect = Effect(peer: PeerState, sent: seq<Packet>)

  /** Commands between clusters; only what the handlers read. */
  datatype CommandReq = CommandReq(source: Uid, tag: Tag, event: Uid)
  datatype CommandRsp = CommandRsp(source: Uid, tag: Tag, success: bool, leader: Uid)

  function Broadcast(members: seq<Uid>, self: Uid, m: Message): seq<Packet> {
    if members == [] then []
    else
      var last := members[|members| - 1];
      var before := Broadcast(members[..|members| - 1], self, m);
      if last == self then before else before + [Packet(last, m)]
  }

  // ---- Terms

  function UpdateTerm(p: PeerState, newTerm: nat, newLeader: Uid): PeerState {
    p.(term := newTerm, endorsement := EMPTY_UID, electionVotes := 1, leader := newLeader)
  }

  /** The term check every message of the log protocol passes first. */
  function Overtake(p: PeerState, term: nat, source: Uid): PeerState {
    if term > p.term then UpdateTerm(p, term, source).(role := Follower) else p
  }

  // ---- The log

  function LastEntry(p: PeerState): Entry
    requires |p.log| > 0
  {
    p.log[|p.log| - 1]
  }

  predicate TermAndIndexExist(log: seq<Entry>, term: nat, index: nat) {
    index < |log| && log[index].term == term
  }

  predicate TagExists(log: seq<Entry>, tag: Tag) {
    exists i :: 0 <= i < |log| && log[i].tag == tag
  }

  /** The recorded index of the first entry with the tag. */
  function IndexOfTag(log: seq<Entry>, tag: Tag): nat
    requires TagExists(log, tag)
  {
    if log[0].tag == tag then log[0].index
    else
      assert forall i | 1 <= i < |log| :: log[i] == log[1..][i - 1];
      IndexOfTag(log[1..], tag)
  }

  /** A tag's recorded index is its position. */
  lemma {:induction false} IndexOfTagInLog(log: seq<Entry>, tag: Tag, from: nat)
    requires TagExists(log, tag) && forall i | 0 <= i < |log| :: log[i].index == from + i
    ensures from <= IndexOfTag(log, tag) < from + |log| && log[IndexOfTag(log, tag) - from].tag == tag
    decreases |log|
  {
    if log[0].tag != tag {
      assert forall i | 1 <= i < |log| :: log[i] == log[1..][i - 1];
      IndexOfTagInLog(log[1..], tag, from + 1);
    }
  }

  /** remove_elements_after */
  function UpTo(log: seq<Entry>, index: nat): seq<Entry> {
    if |log| > index + 1 then log[..index + 1] else log
  }

  /** Applies the EXEC entries from left to right. */
  function Apply(w: Workflow, entries: seq<Entry>): Workflow {
    if entries == [] then w
    else
      var before := Apply(w, entries[..|entries| - 1]);
      var last := entries[|entries| - 1];
      if last.tag.kind == Exec then Execute(before, last.event) else before
  }

  lemma {:induction false} ApplyKeepsRelations(w: Workflow, entries: seq<Entry>)
    ensures Apply(w, entries) == w.(events := Apply(w, entries).events)
  {
    if entries != [] {
      ApplyKeepsRelations(w, entries[..|entries| - 1]);
    }
  }

  /** The index of the last CHECKPOINT among `entries`, or `default` if there is none. */
  function CheckpointIn(entries: seq<Entry>, default: nat): nat {
    if entries == [] then default
    else
      var last := entries[|entries| - 1];
      if last.tag.kind == Checkpoint then last.index else CheckpointIn(entries[..|entries| - 1], default)
  }

  function Uncommitted(p: PeerState, newIndex: nat): seq<Entry>
    requires newIndex < |p.log|
  {
    if newIndex > p.commitIndex then p.log[p.commitIndex + 1..newIndex + 1] else []
  }

  function UpdateCommitIndex(p: PeerState, newIndex: nat): PeerState
    requires newIndex < |p.log|
  {
    var entries := Uncommitted(p, newIndex);
    p.(workflow := Apply(p.workflow, entries),
       lastCheckpoint := if p.role == Leader then CheckpointIn(entries, p.lastCheckpoint) else p.lastCheckpoint,
       commitIndex := newIndex)
  }

  // ---- Leading

  function PrefixRequest(p: PeerState, prevIndex: nat): Message
    requires prevIndex < |p.log|
  {
    var prev := p.log[prevIndex];
    AppendReq(p.term, prev.term, prev.index, p.commitIndex, p.log[prevIndex + 1..])
  }

  function Heartbeat(p: PeerState): seq<Packet>
    requires |p.log| > 0
  {
    Broadcast(p.members, p.id, PrefixRequest(p, |p.log| - 1))
  }

  function AppendToLog(p: PeerState, entry: Entry): Effect
    requires |p.log| > 0
  {
    var p1 := p.(log := p.log + [entry]);
    if |p.members| == 1 then Effect(UpdateCommitIndex(p1, |p1.log| - 1), [])
    else Effect(p1, Broadcast(p.members, p.id, PrefixRequest(p1, |p1.log| - 2)))
  }

  function NewEntry(p: PeerState, event: Uid, source: Uid, tag: Tag): Entry {
    Entry(|p.log|, p.term, event, source, tag)
  }

  function LatestCheckpoint(log: seq<Entry>): nat {
    if log == [] then 0
    else if log[|log| - 1].tag.kind == Checkpoint then |log| - 1
    else LatestCheckpoint(log[..|log| - 1])
  }

  function BecomeLeader(p: PeerState): PeerState {
    p.(lastCheckpoint := LatestCheckpoint(p.log), role := Leader)
  }

  // ---- Elections

  function StartElection(p: PeerState): Effect
    requires |p.log| > 0
  {
    var p1 := UpdateTerm(p, p.term + 1, p.id).(role := Candidate);
    Effect(p1, Broadcast(p.members, p.id, ElectionReq(p1.term, LastEntry(p1).term, LastEntry(p1).index)))
  }

  /** The voter's log is not ahead of the log the request describes. */
  predicate LogNotAhead(p: PeerState, lastTerm: nat, lastIndex: nat)
    requires |p.log| > 0
  {
    !(LastEntry(p).term > lastTerm || (LastEntry(p).term == lastTerm && LastEntry(p).index > lastIndex))
  }

  function RecvElectionReq(p: PeerState, source: Uid, m: Message): Effect
    requires |p.log| > 0 && m.ElectionReq?
  {
    var p1 := Overtake(p, m.term, source);
    if m.term < p1.term then Effect(p1, [Packet(source, ElectionRsp(p1.term, false, m.term))])
    else if p1.role != Follower then Effect(p1, [])
    else
      var granted := p1.endorsement == EMPTY_UID && LogNotAhead(p1, m.lastTerm, m.lastIndex);
      var p2 := if granted then p1.(endorsement := source) else p1;
      Effect(p2, [Packet(source, ElectionRsp(p1.term, granted, m.term))])
  }

  function RecvElectionRsp(p: PeerState, source: Uid, m: Message): Effect
    requires |p.log| > 0 && m.ElectionRsp?
  {
    var p1 := Overtake(p, m.term, source);
    if p1.role != Candidate || !m.success then Effect(p1, [])
    else
      var p2 := p1.(electionVotes := p1.electionVotes + 1);
      if p2.electionVotes > |p2.members| / 2 then Effect(BecomeLeader(p2), Heartbeat(p2))
      else Effect(p2, [])
  }

  // ---- Replication

  /** What an accepted append makes of the log and the commit index. */
  function Accept(p: PeerState, m: Message): PeerState
    requires m.AppendReq? && TermAndIndexExist(p.log, m.prevTerm, m.prevIndex)
  {
    var p1 := p.(log := UpTo(p.log, m.prevIndex) + m.entries);
    var last := |p1.log| - 1;
    if m.commitIndex > p1.commitIndex
    then UpdateCommitIndex(p1, if m.commitIndex < last then m.commitIndex else last)
    else p1
  }

  function RecvAppendReq(p: PeerState, source: Uid, m: Message): Effect
    requires m.AppendReq?
  {
    var p1 := Overtake(p, m.term, source);
    if m.term < p1.term then Effect(p1, [Packet(source, AppendRsp(p1.term, 0, 0, false, 0, m.term))])
    else if p1.role != Follower then Effect(p1, [])
    else if !TermAndIndexExist(p1.log, m.prevTerm, m.prevIndex) then
      Effect(p1, [Packet(source, AppendRsp(p1.term, m.prevTerm, m.prevIndex, false, NO_INDEX, m.term))])
    else
      var p2 := Accept(p1, m);
      Effect(p2, [Packet(source, AppendRsp(p2.term, m.prevTerm, m.prevIndex, true, |p2.log| - 1, m.term))])
  }

  /** The vector accesses of recv_append_rsp stay inside the leader's log. */
  predicate AppendRspInBounds(p: PeerState, source: Uid, m: Message)
    requires m.AppendRsp?
  {
    m.term <= p.term && p.role == Leader ==>
      if m.success then MajorityIndex(p.indices[source := m.lastIndex]) < |p.log|
      else 1 <= m.prevIndex < |p.log|
  }

  function RecvAppendRsp(p: PeerState, source: Uid, m: Message): Effect
    requires m.AppendRsp? && AppendRspInBounds(p, source, m)
  {
    var p1 := Overtake(p, m.term, source);
    if p1.role != Leader then Effect(p1, [])
    else if m.success then
      var p2 := p1.(indices := p1.indices[source := m.lastIndex]);
      var n := MajorityIndex(p2.indices);
      if p2.log[n].term == p2.term && n > p2.commitIndex then Effect(UpdateCommitIndex(p2, n), [])
      else Effect(p2, [])
    else Effect(p1, [Packet(source, PrefixRequest(p1, m.prevIndex - 1))])
  }

  // ---- Locks

  predicate LockResolved(log: seq<Entry>, commitIndex: nat, i: nat)
    requires i < |log| && commitIndex < |log|
  {
    || log[i].tag.kind != Lock
    || exists j :: i < j <= commitIndex && log[j].tag.kind != Lock && log[j].event == log[i].event
  }

  /** `lock_resolve_is_committed`, which does not skip LOCK entries. */
  predicate LockResolveCommitted(log: seq<Entry>, commitIndex: nat, i: nat)
    requires i < |log| && commitIndex < |log|
  {
    && log[i].tag.kind == Lock
    && exists j :: i < j <= commitIndex && log[j].event == log[i].event
  }

  predicate OpenLockAt(log: seq<Entry>, commitIndex: nat, i: nat)
    requires commitIndex < |log|
  {
    i <= commitIndex && log[i].tag.kind == Lock && !LockResolved(log, commitIndex, i)
  }

  predicate HasOpenLock(log: seq<Entry>, commitIndex: nat, from: nat)
    requires commitIndex < |log|
  {
    exists i :: from <= i <= commitIndex && OpenLockAt(log, commitIndex, i)
  }

  predicate LocksAcquired(p: PeerState) {
    LockSet(p.workflow, p.clusterEvent) <= p.lockedEvents
  }

  // ---- Commands from other clusters

  /** The vector accesses of recv_command_req stay inside the log: only a leader appends, and only a new
      lock request makes it scan the log up to its commit index. */
  predicate CommandReqInBounds(p: PeerState, req: CommandReq) {
    p.role == Leader && !TagExists(p.log, req.tag) ==>
      |p.log| > 0 && (req.tag.kind == Lock ==> p.commitIndex < |p.log|)
  }

  /** The entry a command request makes a leader append, if any. */
  function EntryForCommand(p: PeerState, req: CommandReq): (r: seq<Entry>)
    requires CommandReqInBounds(p, req)
    ensures |r| <= 1
  {
    if p.role != Leader || TagExists(p.log, req.tag) then []
    else if req.tag.kind == Lock && HasOpenLock(p.log, p.commitIndex, p.lastCheckpoint) then []
    else if req.tag.kind == Lock && req.event == p.clusterEvent && !Enabled(p.workflow, p.clusterEvent) then []
    else
      var immediate := req.tag.kind == Lock && req.event == p.clusterEvent && LockSet(p.workflow, req.event) == {};
      [NewEntry(p, req.event, req.source, if immediate then Tag(req.tag.uid, Exec) else req.tag)]
  }

  function RecvCommandReq(p: PeerState, req: CommandReq): Effect
    requires CommandReqInBounds(p, req)
  {
    var entries := EntryForCommand(p, req);
    if entries == [] then Effect(p, []) else AppendToLog(p, entries[0])
  }

  function EventIn(peerToEvent: map<Uid, Uid>, peer: Uid): Uid {
    if peer in peerToEvent then peerToEvent[peer] else EMPTY_UID
  }

  function EventOfPeer(p: PeerState, peer: Uid): Uid {
    EventIn(p.peerToEvent, peer)
  }

  /** The scan for a resolution stays inside the log: it ends at the commit index, or where it finds one. */
  predicate ScanInBounds(log: seq<Entry>, commitIndex: nat, i: nat) {
    i < |log| && (commitIndex < |log| || LockResolved(log, |log| - 1, i))
  }

  /** The vector accesses of recv_command_rsp stay inside the log: only a leader looks a granted LOCK up and
      scans for its resolution. */
  predicate CommandRspInBounds(p: PeerState, rsp: CommandRsp) {
    p.role == Leader && (rsp.success || rsp.leader == EMPTY_UID) && rsp.tag.kind == Lock && TagExists(p.log, rsp.tag) ==>
      ScanInBounds(p.log, p.commitIndex, IndexOfTag(p.log, rsp.tag))
  }

  /** The answer to a lock request that still counts: a grant for a LOCK of this log nobody has
      resolved yet. */
  predicate LockAnswerCounts(p: PeerState, rsp: CommandRsp)
    requires CommandRspInBounds(p, rsp)
  {
    && p.role == Leader
    && (rsp.success || rsp.leader == EMPTY_UID)
    && rsp.tag.kind == Lock
    && TagExists(p.log, rsp.tag)
    && p.commitIndex < |p.log| && !LockResolved(p.log, p.commitIndex, IndexOfTag(p.log, rsp.tag))
  }

  function RecvCommandRsp(p: PeerState, rsp: CommandRsp): Effect
    requires CommandRspInBounds(p, rsp)
  {
    if !LockAnswerCounts(p, rsp) then Effect(p, [])
    else
      var p1 := p.(lockedEvents := p.lockedEvents + {EventOfPeer(p, rsp.source)});
      if LocksAcquired(p1) then
        var e := AppendToLog(p1, NewEntry(p1, p.clusterEvent, p.id, Tag(rsp.tag.uid, Exec)));
        Effect(e.peer.(lockedEvents := {}), e.sent)
      else Effect(p1, [])
  }

  /** The checkpoint part of retry_requests; `idle` says that no response is missing. */
  predicate CheckpointDue(p: PeerState, idle: bool)
    requires idle ==> p.commitIndex < |p.log|
  {
    idle && !HasOpenLock(p.log, p.commitIndex, p.lastCheckpoint) && p.lastCheckpoint < p.commitIndex
  }

  function RetryRequests(p: PeerState, idle: bool, tagUid: Uid): Effect
    requires idle ==> p.commitIndex < |p.log|
  {
    if !CheckpointDue(p, idle) then Effect(p, [])
    else
      var entry := NewEntry(p, p.clusterEvent, p.id, Tag(tagUid, Checkpoint));
      var e := AppendToLog(p, entry);
      Effect(e.peer.(lastCheckpoint := entry.index), e.sent)
  }

  /** The vector accesses of the timer stay inside the log: a candidate and a leader read its end, and an
      idle leader scans it up to its commit index. */
  predicate TimerInBounds(p: PeerState, idle: bool) {
    && (p.role != Follower ==> |p.log| > 0)
    && (p.role == Leader && idle ==> p.commitIndex < |p.log|)
  }

  /** The timer: a leader sends heartbeats and retries, a candidate tries again, a follower polls. */
  function Timeout(p: PeerState, idle: bool, tagUid: Uid): Effect
    requires TimerInBounds(p, idle)
  {
    match p.role
    case Leader =>
      var e := RetryRequests(p, idle, tagUid);
      Effect(e.peer, Heartbeat(p) + e.sent)
    case Candidate => StartElection(p)
    case Follower => Effect(p, [])
  }

  // ---- Configuration

  /** create_peer_to_event_map: who belongs to which event; of two rows for one peer the later counts. */
  function PeerEvents(peers: seq<Uid>, events: seq<Uid>): map<Uid, Uid>
    requires |peers| == |events|
  {
    if peers == [] then map[]
    else
      var n := |peers| - 1;
      PeerEvents(peers[..n], events[..n])[peers[n] := events[n]]
  }

  /** The peers of an event, in the order given. */
  function PeersOf(peers: seq<Uid>, peerToEvent: map<Uid, Uid>, event: Uid): (members: seq<Uid>)
    ensures forall p :: p in members <==> p in peers && EventIn(peerToEvent, p) == event
  {
    if peers == [] then []
    else
      var last := peers[|peers| - 1];
      var before := PeersOf(peers[..|peers| - 1], peerToEvent, event);
      if EventIn(peerToEvent, last) == event then before + [last] else before
  }

  /** find_cluster_members */
  function ClusterMembers(peerToEvent: map<Uid, Uid>, event: Uid): seq<Uid> {
    PeersOf(InOrder(peerToEvent.Keys), peerToEvent, event)
  }

  /** The first member of the cluster, by the order of ids, is taken for its leader. */
  function FirstLeader(peerToEvent: map<Uid, Uid>, event: Uid): Uid {
    var members := ClusterMembers(peerToEvent, event);
    if members == [] then EMPTY_UID else members[0]
  }

  /** The state configure_enclave leaves a peer in. */
  function Configured(id: Uid, members: seq<Uid>, clusterEvent: Uid, peerToEvent: map<Uid, Uid>, leader: Uid,
                      w: Workflow): PeerState
  {
    var p := PeerState(id, members, clusterEvent, peerToEvent, w, Follower, 0, leader, EMPTY_UID, 1,
                       [EMPTY_ENTRY], 0, map[], 0, {});
    if |members| == 1 then BecomeLeader(p) else p
  }
}

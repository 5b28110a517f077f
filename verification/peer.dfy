/** The class `peer` of enclave/raft.h and the handlers of enclave/enclave.cpp that update it, proved
    against PeerSpec. What a handler sends is appended to `outbox`. */
module Peers {
  import opened Uids
  import opened Workflows
  import opened CommitRule
  import opened PeerSpec
  import opened DcrTheorems
  import opened Flattening
  import opened DcrWorkflows

  lemma {:induction false} FirstWithTag(log: seq<Entry>, tag: Tag, i: nat)
    requires i < |log| && log[i].tag == tag && forall j | 0 <= j < i :: log[j].tag != tag
    ensures TagExists(log, tag) && IndexOfTag(log, tag) == log[i].index
  {
    if i > 0 {
      FirstWithTag(log[1..], tag, i - 1);
    }
  }

  lemma ExecuteKeepsReferences(w: Workflow, e: Uid)
    requires References(w)
    ensures References(Execute(w, e)) && w.events.Keys <= Execute(w, e).events.Keys
  {
    var id := EventAt(w.events, e).id;
    var s0 := w.events[e := EventAt(w.events, e).(executed := true, pending := false)];
    var s1 := SetExcluded(s0, Related(w.excludesTo, id), true);
    var s2 := SetExcluded(s1, Related(w.includesTo, id), false);
    SetKeys(s0, Related(w.excludesTo, id), true);
    SetKeys(s1, Related(w.includesTo, id), false);
    SetKeys(s2, Related(w.responsesTo, id), false);
    ReferencesStay(w, Execute(w, e));
  }

  /** A replay never takes away what `RecvCommandReq` asks of the workflow. */
  lemma {:induction false} ApplyKeepsReferences(w: Workflow, entries: seq<Entry>)
    requires References(w)
    ensures References(Apply(w, entries)) && w.events.Keys <= Apply(w, entries).events.Keys
  {
    if entries != [] {
      ApplyKeepsReferences(w, entries[..|entries| - 1]);
      ExecuteKeepsReferences(Apply(w, entries[..|entries| - 1]), entries[|entries| - 1].event);
    }
  }

  // ---- Stores that no lookup tells apart

  ghost predicate SameStore(s: EventStore, s': EventStore) {
    forall k :: EventAt(s', k) == EventAt(s, k)
  }

  ghost predicate SameWorkflow(w: Workflow, w': Workflow) {
    w' == w.(events := w'.events) && SameStore(w.events, w'.events)
  }

  ghost predicate SamePeer(p: PeerState, p': PeerState) {
    p' == p.(workflow := p'.workflow) && SameWorkflow(p.workflow, p'.workflow)
  }

  lemma UpdateKeepsSame(s: EventStore, s': EventStore, id: Uid, event: Event)
    requires SameStore(s, s')
    ensures SameStore(s[id := event], s'[id := event])
  {
    var x, x' := s[id := event], s'[id := event];
    forall k ensures EventAt(x', k) == EventAt(x, k) {
      assert EventAt(s', k) == EventAt(s, k);
    }
  }

  lemma {:induction false} SetKeepsSame(s: EventStore, s': EventStore, ids: seq<Uid>, value: bool)
    requires SameStore(s, s')
    ensures SameStore(SetExcluded(s, ids, value), SetExcluded(s', ids, value))
    ensures SameStore(SetPending(s, ids), SetPending(s', ids))
  {
    if ids != [] {
      var front, last := ids[..|ids| - 1], ids[|ids| - 1];
      SetKeepsSame(s, s', front, value);
      var x, y := SetExcluded(s, front, value), SetPending(s, front);
      UpdateKeepsSame(x, SetExcluded(s', front, value), last, EventAt(x, last).(excluded := value));
      UpdateKeepsSame(y, SetPending(s', front), last, EventAt(y, last).(pending := true));
    }
  }

  lemma ExecuteKeepsSame(w: Workflow, w': Workflow, e: Uid)
    requires SameWorkflow(w, w')
    ensures SameWorkflow(Execute(w, e), Execute(w', e))
  {
    var event := EventAt(w.events, e);
    var done := event.(executed := true, pending := false);
    var excluded, included := Related(w.excludesTo, event.id), Related(w.includesTo, event.id);
    var s, s' := w.events[e := done], w'.events[e := done];
    UpdateKeepsSame(w.events, w'.events, e, done);
    SetKeepsSame(s, s', excluded, true);
    var x, x' := SetExcluded(s, excluded, true), SetExcluded(s', excluded, true);
    SetKeepsSame(x, x', included, false);
    SetKeepsSame(SetExcluded(x, included, false), SetExcluded(x', included, false), Related(w.responsesTo, event.id), false);
  }

  lemma {:induction false} ApplyKeepsSame(w: Workflow, w': Workflow, entries: seq<Entry>)
    requires SameWorkflow(w, w')
    ensures SameWorkflow(Apply(w, entries), Apply(w', entries))
  {
    if entries != [] {
      var front := entries[..|entries| - 1];
      ApplyKeepsSame(w, w', front);
      ExecuteKeepsSame(Apply(w, front), Apply(w', front), entries[|entries| - 1].event);
    }
  }

  lemma AppendKeepsSame(p: PeerState, p': PeerState, e: Entry)
    requires |p.log| > 0 && SamePeer(p, p')
    ensures SamePeer(AppendToLog(p, e).peer, AppendToLog(p', e).peer)
    ensures AppendToLog(p, e).sent == AppendToLog(p', e).sent
  {
    ApplyKeepsSame(p.workflow, p'.workflow, Uncommitted(p.(log := p.log + [e]), |p.log|));
  }

  // ---- First peers

  predicate LeadingAt(leaders: map<Uid, Uid>, ids: seq<Uid>, peerToEvent: map<Uid, Uid>, e: Uid) {
    var members := PeersOf(ids, peerToEvent, e);
    (e in leaders <==> members != []) && (e in leaders ==> leaders[e] == members[0])
  }

  /** Each event's leader is the first of these peers that belongs to it. */
  ghost predicate Leading(leaders: map<Uid, Uid>, ids: seq<Uid>, peerToEvent: map<Uid, Uid>) {
    forall e {:trigger LeadingAt(leaders, ids, peerToEvent, e)} :: LeadingAt(leaders, ids, peerToEvent, e)
  }

  lemma LeadingNext(leaders: map<Uid, Uid>, ids: seq<Uid>, peerToEvent: map<Uid, Uid>, id: Uid)
    requires Leading(leaders, ids, peerToEvent) && id in peerToEvent
    ensures var event := peerToEvent[id];
      Leading(if event in leaders then leaders else leaders[event := id], ids + [id], peerToEvent)
  {
    var event := peerToEvent[id];
    var leaders' := if event in leaders then leaders else leaders[event := id];
    assert (ids + [id])[..|ids|] == ids;
    forall e ensures LeadingAt(leaders', ids + [id], peerToEvent, e) {
      assert LeadingAt(leaders, ids, peerToEvent, e);
    }
  }

  class Peer {
    const id: Uid
    const members: seq<Uid>
    const clusterEvent: Uid
    const peerToEvent: map<Uid, Uid>
    const workflow: DcrWorkflow
    var role: Role
    var term: nat
    var leader: Uid
    var endorsement: Uid
    var electionVotes: nat
    var log: seq<Entry>
    var commitIndex: nat
    var indices: map<Uid, nat>
    var lastCheckpoint: nat
    var lockedEvents: set<Uid>
    var outbox: seq<Packet>

    function State(): PeerState
      reads this, workflow
    {
      PeerState(id, members, clusterEvent, peerToEvent, workflow.Value(), role, term, leader, endorsement,
                electionVotes, log, commitIndex, indices, lastCheckpoint, lockedEvents)
    }

    static method CreatePeerToEventMap(peers: seq<Uid>, events: seq<Uid>, ownId: Uid)
      returns (peerToEvent: map<Uid, Uid>, clusterEvent: Uid)
      requires |peers| == |events|
      ensures peerToEvent == PeerEvents(peers, events) && clusterEvent == EventIn(peerToEvent, ownId)
    {
      peerToEvent, clusterEvent := map[], EMPTY_UID;
      for i := 0 to |peers|
        invariant peerToEvent == PeerEvents(peers[..i], events[..i]) && clusterEvent == EventIn(peerToEvent, ownId)
      {
        if peers[i] == ownId {
          clusterEvent := events[i];
        }
        peerToEvent := peerToEvent[peers[i] := events[i]];
        assert peers[..i + 1][..i] == peers[..i] && events[..i + 1][..i] == events[..i];
      }
      assert peers[..|peers|] == peers && events[..|peers|] == events;
    }

    /** The loop of find_cluster_members. */
    static method SelectPeers(ids: seq<Uid>, peerToEvent: map<Uid, Uid>, clusterEvent: Uid) returns (members: seq<Uid>)
      requires forall id | id in ids :: id in peerToEvent
      ensures members == PeersOf(ids, peerToEvent, clusterEvent)
    {
      members := [];
      for i := 0 to |ids|
        invariant members == PeersOf(ids[..i], peerToEvent, clusterEvent)
      {
        if peerToEvent[ids[i]] == clusterEvent {
          members := members + [ids[i]];
        }
        assert ids[..i + 1][..i] == ids[..i];
      }
      assert ids[..|ids|] == ids;
    }

    static method FindClusterMembers(peerToEvent: map<Uid, Uid>, clusterEvent: Uid) returns (members: seq<Uid>)
      ensures members == ClusterMembers(peerToEvent, clusterEvent)
    {
      members := SelectPeers(InOrder(peerToEvent.Keys), peerToEvent, clusterEvent);
    }

    /** The loop of pick_leaders. */
    static method SelectLeaders(ids: seq<Uid>, peerToEvent: map<Uid, Uid>) returns (leaders: map<Uid, Uid>)
      requires forall id | id in ids :: id in peerToEvent
      ensures Leading(leaders, ids, peerToEvent)
    {
      leaders := map[];
      for i := 0 to |ids|
        invariant Leading(leaders, ids[..i], peerToEvent)
      {
        var event := peerToEvent[ids[i]];
        LeadingNext(leaders, ids[..i], peerToEvent, ids[i]);
        assert ids[..i + 1] == ids[..i] + [ids[i]];
        if event !in leaders {
          leaders := leaders[event := ids[i]];
        }
      }
      assert ids[..|ids|] == ids;
    }

    static method PickLeaders(peerToEvent: map<Uid, Uid>) returns (leaders: map<Uid, Uid>)
      ensures forall e :: EventIn(leaders, e) == FirstLeader(peerToEvent, e)
    {
      leaders := SelectLeaders(InOrder(peerToEvent.Keys), peerToEvent);
      forall e ensures EventIn(leaders, e) == FirstLeader(peerToEvent, e) {
        assert LeadingAt(leaders, InOrder(peerToEvent.Keys), peerToEvent, e);
      }
    }

    /** configure_enclave */
    constructor Configure(id: Uid, i: Intermediate, peers: seq<Uid>, events: seq<Uid>)
      requires Complete(i) && |peers| == |events|
      ensures var m := PeerEvents(peers, events); var e := EventIn(m, id);
        State() == Configured(id, ClusterMembers(m, e), e, m, FirstLeader(m, e), Rebuild(i))
      ensures outbox == []
    {
      this.id := id;
      var made := new DcrWorkflow.FromIntermediate(i);
      workflow := made;
      log := [EMPTY_ENTRY];
      var peerToEvent, clusterEvent := CreatePeerToEventMap(peers, events, id);
      var leaders := PickLeaders(peerToEvent);
      var members := FindClusterMembers(peerToEvent, clusterEvent);
      this.peerToEvent, this.clusterEvent, this.members := peerToEvent, clusterEvent, members;
      commitIndex, lastCheckpoint, indices, lockedEvents := 0, 0, map[], {};
      role := Follower;
      term, leader, endorsement, electionVotes := 0, EventIn(leaders, clusterEvent), EMPTY_UID, 1;
      outbox := [];
      new;
      if |members| == 1 {
        BecomeLeader();
      }
    }

    // ---- enclave/raft.cpp

    method UpdateTerm(newTerm: nat, newLeader: Uid)
      modifies this`term, this`endorsement, this`electionVotes, this`leader
      ensures State() == PeerSpec.UpdateTerm(old(State()), newTerm, newLeader)
    {
      term := newTerm;
      endorsement := EMPTY_UID;
      electionVotes := 1;
      leader := newLeader;
    }

    method TermAndIndexExistInLog(term: nat, index: nat) returns (exist: bool)
      ensures exist == TermAndIndexExist(log, term, index)
    {
      if |log| <= index {
        return false;
      }
      return log[index].term == term;
    }

    method ExistInLog(tag: Tag) returns (exist: bool, index: nat)
      ensures exist == TagExists(log, tag)
      ensures exist ==> index == IndexOfTag(log, tag)
    {
      for i := 0 to |log|
        invariant forall j | 0 <= j < i :: log[j].tag != tag
      {
        if log[i].tag == tag {
          FirstWithTag(log, tag, i);
          return true, log[i].index;
        }
      }
      return false, 0;
    }

    method RemoveElementsAfter(index: nat)
      modifies this`log
      ensures log == UpTo(old(log), index)
    {
      while |log| > index + 1
        invariant log <= old(log)
        invariant |log| >= index + 1 || log == old(log)
      {
        log := log[..|log| - 1];
      }
    }

    /** The loop over `indices` in largest_majority_index. */
    method CollectFrom(keys: seq<Uid>) returns (reports: seq<nat>)
      requires forall k | k in keys :: k in indices
      ensures |reports| == |keys| && forall i | 0 <= i < |keys| :: reports[i] == indices[keys[i]]
    {
      reports := [];
      for i := 0 to |keys|
        invariant |reports| == i && forall j | 0 <= j < i :: reports[j] == indices[keys[j]]
      {
        reports := reports + [indices[keys[i]]];
      }
    }

    method CollectReports() returns (reports: seq<nat>)
      ensures reports == Reports(indices)
    {
      reports := CollectFrom(InOrder(indices.Keys));
    }

    method LargestMajorityIndex() returns (index: nat)
      requires indices != map[]
      ensures index == MajorityIndex(indices)
    {
      var reports := CollectReports();
      reports := SortAscending(reports);
      index := reports[(|reports| - 1) / 2];
    }

    /** The loop over the lock set in locks_aquired. */
    method AllLocked(lockSet: set<Uid>) returns (all: bool)
      ensures all == (lockSet <= lockedEvents)
    {
      var locks := InOrder(lockSet);
      for i := 0 to |locks|
        invariant forall j | 0 <= j < i :: locks[j] in lockedEvents
      {
        if locks[i] !in lockedEvents {
          assert locks[i] in locks;
          return false;
        }
      }
      return true;
    }

    method LocksAquired() returns (aquired: bool)
      ensures aquired == LocksAcquired(State())
    {
      var lockSet := workflow.GetLockSet(clusterEvent);
      aquired := AllLocked(lockSet);
    }

    method LockIsResolved(index: nat) returns (resolved: bool)
      requires ScanInBounds(log, commitIndex, index)
      ensures resolved == LockResolved(log, if commitIndex < |log| then commitIndex else |log| - 1, index)
    {
      var lock := log[index];
      if lock.tag.kind != Lock {
        return true;
      }
      var i := index + 1;
      while i < commitIndex + 1
        invariant index < i
        invariant forall j | index < j < i && j <= commitIndex ::
          j < |log| && (log[j].tag.kind == Lock || log[j].event != lock.event)
      {
        assert i < |log|;
        if log[i].tag.kind != Lock && lock.event == log[i].event {
          return true;
        }
        i := i + 1;
      }
      return false;
    }

    method HasUnresolvedLock() returns (unresolved: bool)
      requires commitIndex < |log|
      ensures unresolved == HasOpenLock(log, commitIndex, lastCheckpoint)
    {
      var i := lastCheckpoint;
      while i < commitIndex + 1
        invariant lastCheckpoint <= i
        invariant forall j | lastCheckpoint <= j < i && j <= commitIndex :: !OpenLockAt(log, commitIndex, j)
      {
        if log[i].tag.kind == Lock {
          var resolved := LockIsResolved(i);
          if !resolved {
            assert OpenLockAt(log, commitIndex, i);
            return true;
          }
        }
        i := i + 1;
      }
      return false;
    }

    method LockResolveIsCommitted(index: nat) returns (committed: bool)
      requires index < |log| && commitIndex < |log|
      ensures committed == LockResolveCommitted(log, commitIndex, index)
    {
      var lock := log[index];
      if lock.tag.kind != Lock {
        return false;
      }
      var i := index + 1;
      while i < commitIndex + 1
        invariant index < i
        invariant forall j | index < j < i && j <= commitIndex :: log[j].event != lock.event
      {
        if log[i].event == lock.event {
          return true;
        }
        i := i + 1;
      }
      return false;
    }

    method FindLatestCheckpoint() returns (index: nat)
      ensures index == LatestCheckpoint(log)
    {
      assert log[..|log|] == log;
      var i := |log| - 1;
      while i >= 0
        invariant -1 <= i < |log|
        invariant LatestCheckpoint(log) == LatestCheckpoint(log[..i + 1])
      {
        if log[i].tag.kind == Checkpoint {
          return i;
        }
        assert log[..i + 1][..i] == log[..i];
        i := i - 1;
      }
      return 0;
    }

    // ---- enclave/enclave.cpp: helpers

    method Send(packet: Packet)
      modifies this`outbox
      ensures outbox == old(outbox) + [packet]
    {
      outbox := outbox + [packet];
    }

    /** One message to every other member of the cluster. */
    method BroadcastMessage(m: Message)
      modifies this`outbox
      ensures outbox == old(outbox) + Broadcast(members, id, m)
    {
      for i := 0 to |members|
        invariant outbox == old(outbox) + Broadcast(members[..i], id, m)
      {
        assert members[..i + 1][..i] == members[..i];
        if members[i] != id {
          Send(Packet(members[i], m));
        }
      }
      assert members[..|members|] == members;
    }

    /** The term check of verify_mac_and_own_term. */
    method VerifyOwnTerm(messageTerm: nat, source: Uid)
      modifies this`term, this`endorsement, this`electionVotes, this`leader, this`role
      ensures State() == Overtake(old(State()), messageTerm, source)
    {
      if messageTerm > term {
        UpdateTerm(messageTerm, source);
        role := Follower;
      }
    }

    method BecomeLeader()
      modifies this`lastCheckpoint, this`role
      ensures State() == PeerSpec.BecomeLeader(old(State()))
    {
      lastCheckpoint := FindLatestCheckpoint();
      role := Leader;
    }

    method StartElection()
      requires |log| > 0
      modifies this`term, this`endorsement, this`electionVotes, this`leader, this`role, this`outbox
      ensures State() == PeerSpec.StartElection(old(State())).peer
      ensures outbox == old(outbox) + PeerSpec.StartElection(old(State())).sent
    {
      UpdateTerm(term + 1, id);
      role := Candidate;
      var last := log[|log| - 1];
      BroadcastMessage(ElectionReq(term, last.term, last.index));
    }

    /** The entries the commit index passes when it moves to newIndex. */
    method NewlyCommitted(newIndex: nat) returns (entries: seq<Entry>)
      requires newIndex < |log|
      ensures entries == Uncommitted(State(), newIndex)
    {
      entries := [];
      var i := commitIndex + 1;
      while i <= newIndex
        invariant commitIndex < i && (commitIndex < newIndex ==> i <= newIndex + 1)
        invariant entries == if commitIndex < newIndex then log[commitIndex + 1..i] else []
      {
        entries := entries + [log[i]];
        i := i + 1;
      }
    }

    /** The EXEC entries, and on a leader the CHECKPOINT entries, of what was newly committed. */
    method Commit(entries: seq<Entry>)
      modifies this`lastCheckpoint, workflow
      ensures workflow.Value() == Apply(old(workflow.Value()), entries)
      ensures lastCheckpoint == if role == Leader then CheckpointIn(entries, old(lastCheckpoint)) else old(lastCheckpoint)
    {
      for i := 0 to |entries|
        invariant workflow.Value() == Apply(old(workflow.Value()), entries[..i])
        invariant lastCheckpoint
               == if role == Leader then CheckpointIn(entries[..i], old(lastCheckpoint)) else old(lastCheckpoint)
      {
        assert entries[..i + 1][..i] == entries[..i];
        var entry := entries[i];
        if role == Leader && entry.tag.kind == Checkpoint {
          lastCheckpoint := entry.index;
        } else if entry.tag.kind == Exec {
          workflow.SetEventExecuted(entry.event);
        }
      }
      assert entries[..|entries|] == entries;
    }

    method UpdateCommitIndex(newIndex: nat)
      requires newIndex < |log|
      modifies this`lastCheckpoint, this`commitIndex, workflow
      ensures State() == PeerSpec.UpdateCommitIndex(old(State()), newIndex)
    {
      var entries := NewlyCommitted(newIndex);
      Commit(entries);
      commitIndex := newIndex;
    }

    method AppendToLog(entry: Entry)
      requires |log| > 0
      modifies this`log, this`lastCheckpoint, this`commitIndex, this`outbox, workflow
      ensures State() == PeerSpec.AppendToLog(old(State()), entry).peer
      ensures outbox == old(outbox) + PeerSpec.AppendToLog(old(State()), entry).sent
    {
      log := log + [entry];
      if |members| == 1 {
        UpdateCommitIndex(|log| - 1);
        return;
      }
      var prev := log[|log| - 2];
      BroadcastMessage(AppendReq(term, prev.term, prev.index, commitIndex, log[|log| - 1..]));
    }

    method Heartbeat()
      requires |log| > 0
      modifies this`outbox
      ensures outbox == old(outbox) + PeerSpec.Heartbeat(State())
    {
      var last := log[|log| - 1];
      assert log[|log|..] == [];
      BroadcastMessage(AppendReq(term, last.term, last.index, commitIndex, []));
    }

    // ---- enclave/enclave.cpp: messages of the log protocol

    method RecvElectionReq(source: Uid, m: Message)
      requires |log| > 0 && m.ElectionReq?
      modifies this`term, this`endorsement, this`electionVotes, this`leader, this`role, this`outbox
      ensures State() == PeerSpec.RecvElectionReq(old(State()), source, m).peer
      ensures outbox == old(outbox) + PeerSpec.RecvElectionReq(old(State()), source, m).sent
    {
      VerifyOwnTerm(m.term, source);
      if m.term < term {
        Send(Packet(source, ElectionRsp(term, false, m.term)));
        return;
      }
      if role != Follower {
        return;
      }
      var last := log[|log| - 1];
      var granted := endorsement == EMPTY_UID
                     && !(last.term > m.lastTerm || (last.term == m.lastTerm && last.index > m.lastIndex));
      if granted {
        endorsement := source;
      }
      Send(Packet(source, ElectionRsp(term, granted, m.term)));
    }

    method RecvElectionRsp(source: Uid, m: Message)
      requires |log| > 0 && m.ElectionRsp?
      modifies this`term, this`endorsement, this`electionVotes, this`leader, this`role, this`lastCheckpoint, this`outbox
      ensures State() == PeerSpec.RecvElectionRsp(old(State()), source, m).peer
      ensures outbox == old(outbox) + PeerSpec.RecvElectionRsp(old(State()), source, m).sent
    {
      VerifyOwnTerm(m.term, source);
      if role != Candidate {
        return;
      }
      if !m.success {
        return;
      }
      electionVotes := electionVotes + 1;
      if !(electionVotes > |members| / 2) {
        return;
      }
      Heartbeat();
      BecomeLeader();
    }

    method RecvAppendReq(source: Uid, m: Message)
      requires m.AppendReq?
      modifies this, workflow
      ensures State() == PeerSpec.RecvAppendReq(old(State()), source, m).peer
      ensures outbox == old(outbox) + PeerSpec.RecvAppendReq(old(State()), source, m).sent
    {
      VerifyOwnTerm(m.term, source);
      if m.term < term {
        Send(Packet(source, AppendRsp(term, 0, 0, false, 0, m.term)));
        return;
      }
      if role != Follower {
        return;
      }
      var known := TermAndIndexExistInLog(m.prevTerm, m.prevIndex);
      if !known {
        Send(Packet(source, AppendRsp(term, m.prevTerm, m.prevIndex, false, NO_INDEX, m.term)));
      } else {
        TakeEntries(m);
        Send(Packet(source, AppendRsp(term, m.prevTerm, m.prevIndex, true, |log| - 1, m.term)));
      }
    }

    /** The part of recv_append_req that updates the log and the commit index. */
    method TakeEntries(m: Message)
      requires m.AppendReq? && TermAndIndexExist(log, m.prevTerm, m.prevIndex)
      modifies this`log, this`lastCheckpoint, this`commitIndex, workflow
      ensures State() == Accept(old(State()), m)
    {
      RemoveElementsAfter(m.prevIndex);
      PushAll(m.entries);
      if m.commitIndex > commitIndex {
        UpdateCommitIndex(if m.commitIndex < |log| - 1 then m.commitIndex else |log| - 1);
      }
    }

    /** The loop that pushes the entries of an append. */
    method PushAll(entries: seq<Entry>)
      modifies this`log
      ensures log == old(log) + entries
    {
      for i := 0 to |entries|
        invariant log == old(log) + entries[..i]
      {
        log := log + [entries[i]];
      }
      assert entries[..|entries|] == entries;
    }

    method RecvAppendRsp(source: Uid, m: Message)
      requires m.AppendRsp? && AppendRspInBounds(State(), source, m)
      modifies this, workflow
      ensures State() == PeerSpec.RecvAppendRsp(old(State()), source, m).peer
      ensures outbox == old(outbox) + PeerSpec.RecvAppendRsp(old(State()), source, m).sent
    {
      VerifyOwnTerm(m.term, source);
      if role != Leader {
        return;
      }
      if m.success {
        indices := indices[source := m.lastIndex];
        var n := LargestMajorityIndex();
        if log[n].term == term && n > commitIndex {
          UpdateCommitIndex(n);
        }
      } else {
        var prev := log[m.prevIndex - 1];
        Send(Packet(source, AppendReq(term, prev.term, prev.index, commitIndex, log[m.prevIndex..])));
      }
    }

    // ---- enclave/enclave.cpp: commands and timers

    /** Testing the own event may leave zeroed events in the store, which no lookup tells from missing ones. */
    method RecvCommandReq(req: CommandReq)
      requires CommandReqInBounds(State(), req)
      modifies this, workflow
      ensures SamePeer(PeerSpec.RecvCommandReq(old(State()), req).peer, State())
      ensures outbox == old(outbox) + PeerSpec.RecvCommandReq(old(State()), req).sent
      ensures old(References(workflow.Value()) && clusterEvent in workflow.eventStore) ==>
        State() == PeerSpec.RecvCommandReq(old(State()), req).peer
    {
      if role != Leader {
        return;
      }
      var duplicate, at := ExistInLog(req.tag);
      if duplicate {
        return;
      }
      var tag := req.tag;
      if req.tag.kind == Lock {
        var locked := HasUnresolvedLock();
        if locked {
          return;
        }
        if req.event == clusterEvent {
          var enabled := workflow.IsEventEnabled(clusterEvent);
          if !enabled {
            return;
          }
          var lockSet := workflow.GetLockSet(req.event);
          if |lockSet| == 0 {
            tag := Tag(req.tag.uid, Exec);
          }
        }
      }
      assert SamePeer(old(State()), State());
      ghost var p := State();
      AppendToLog(Entry(|log|, term, req.event, req.source, tag));
      AppendKeepsSame(old(State()), p, Entry(|p.log|, p.term, req.event, req.source, tag));
    }

    method RecvCommandRsp(rsp: CommandRsp)
      requires CommandRspInBounds(State(), rsp)
      modifies this, workflow
      ensures State() == PeerSpec.RecvCommandRsp(old(State()), rsp).peer
      ensures outbox == old(outbox) + PeerSpec.RecvCommandRsp(old(State()), rsp).sent
    {
      if role != Leader {
        return;
      }
      if !rsp.success && rsp.leader != EMPTY_UID {
        return;
      }
      if rsp.tag.kind == Lock {
        var known, lockIndex := ExistInLog(rsp.tag);
        if !known {
          return;
        }
        var resolved := LockIsResolved(lockIndex);
        if resolved {
          return;
        }
        lockedEvents := lockedEvents + {if rsp.source in peerToEvent then peerToEvent[rsp.source] else EMPTY_UID};
        var aquired := LocksAquired();
        if aquired {
          AppendToLog(Entry(|log|, term, clusterEvent, id, Tag(rsp.tag.uid, Exec)));
          lockedEvents := {};
        }
      }
    }

    method RetryRequests(idle: bool, tagUid: Uid)
      requires idle ==> commitIndex < |log|
      modifies this, workflow
      ensures State() == PeerSpec.RetryRequests(old(State()), idle, tagUid).peer
      ensures outbox == old(outbox) + PeerSpec.RetryRequests(old(State()), idle, tagUid).sent
    {
      if idle {
        var locked := HasUnresolvedLock();
        if !locked && lastCheckpoint < commitIndex {
          var checkpoint := Entry(|log|, term, clusterEvent, id, Tag(tagUid, Checkpoint));
          AppendToLog(checkpoint);
          lastCheckpoint := checkpoint.index;
        }
      }
    }

    method Timeout(idle: bool, tagUid: Uid)
      requires TimerInBounds(State(), idle)
      modifies this, workflow
      ensures State() == PeerSpec.Timeout(old(State()), idle, tagUid).peer
      ensures outbox == old(outbox) + PeerSpec.Timeout(old(State()), idle, tagUid).sent
    {
      if role == Leader {
        Heartbeat();
        RetryRequests(idle, tagUid);
      } else if role == Candidate {
        StartElection();
      }
    }
  }
}

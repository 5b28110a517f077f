/** Locks and checkpoints in a log. `Disciplined` says how each entry got there; what the scans of
    enclave/raft.cpp compute follows from it. */
module Locks {
  import opened Uids
  import opened Workflows
  import opened PeerSpec
  import opened Clusters
  import opened DcrTheorems

  // ---- Disciplined logs

  /** The open LOCK before position k that an EXEC with this tag id carries out. */
  predicate OwnOpenLock(log: seq<Entry>, ownEvent: Uid, uid: Uid, k: nat, i: nat)
    requires 0 < k <= |log|
  {
    i < k && log[i].tag == Tag(uid, Lock) && log[i].event == ownEvent && OpenLockAt(log, k - 1, i)
  }

  /** What holds where entry k was appended, of the log before it. */
  predicate WellPlaced(w: Workflow, ownEvent: Uid, log: seq<Entry>, k: nat)
    requires 0 < k < |log|
  {
    var e := log[k];
    && e.tag.kind != Abort
    && (e.tag.kind == Lock || e.tag.kind == Checkpoint ==> !HasOpenLock(log, k - 1, 0))
    && (e.tag.kind == Lock ==> forall i | 0 <= i < k :: log[i].tag != e.tag)
    && (e.event == ownEvent && e.tag.kind == Lock ==> LockSet(w, ownEvent) != {})
    && (e.event == ownEvent && e.tag.kind == Exec ==>
          LockSet(w, ownEvent) == {} || exists i :: 0 <= i < k && OwnOpenLock(log, ownEvent, e.tag.uid, k, i))
  }

  predicate Disciplined(w: Workflow, ownEvent: Uid, log: seq<Entry>) {
    && |log| > 0 && log[0] == EMPTY_ENTRY
    && forall k {:trigger WellPlaced(w, ownEvent, log, k)} | 0 < k < |log| :: WellPlaced(w, ownEvent, log, k)
  }

  // ---- What the scans see

  lemma ResolvedStays(log: seq<Entry>, c: nat, d: nat, i: nat)
    requires i < |log| && c <= d < |log| && LockResolved(log, c, i)
    ensures LockResolved(log, d, i)
  {}

  lemma SameScan(a: seq<Entry>, b: seq<Entry>, n: nat, c: nat, i: nat)
    requires n <= |a| && n <= |b| && a[..n] == b[..n] && c < n && i < n
    ensures LockResolved(a, c, i) <==> LockResolved(b, c, i)
  {
    assert forall j | 0 <= j < n :: a[j] == a[..n][j] && b[j] == b[..n][j];
  }

  lemma SameScans(a: seq<Entry>, b: seq<Entry>, n: nat, c: nat, from: nat)
    requires n <= |a| && n <= |b| && a[..n] == b[..n] && c < n
    ensures HasOpenLock(a, c, from) <==> HasOpenLock(b, c, from)
    ensures forall i | 0 <= i <= c :: OpenLockAt(a, c, i) <==> OpenLockAt(b, c, i)
  {
    forall i | 0 <= i <= c ensures OpenLockAt(a, c, i) <==> OpenLockAt(b, c, i) {
      SameScan(a, b, n, c, i);
      assert a[i] == a[..n][i] && b[i] == b[..n][i];
    }
  }

  lemma SamePlace(w: Workflow, ownEvent: Uid, a: seq<Entry>, b: seq<Entry>, k: nat)
    requires 0 < k < |a| && k < |b| && a[..k + 1] == b[..k + 1] && WellPlaced(w, ownEvent, a, k)
    ensures WellPlaced(w, ownEvent, b, k)
  {
    assert forall j | 0 <= j <= k :: a[j] == a[..k + 1][j] && b[j] == b[..k + 1][j];
    SameScans(a, b, k + 1, k - 1, 0);
    var e := a[k];
    if e.event == ownEvent && e.tag.kind == Exec && LockSet(w, ownEvent) != {} {
      var i :| 0 <= i < k && OwnOpenLock(a, ownEvent, e.tag.uid, k, i);
      assert OwnOpenLock(b, ownEvent, e.tag.uid, k, i);
    }
  }

  lemma ExtensionIsDisciplined(w: Workflow, ownEvent: Uid, log: seq<Entry>, e: Entry)
    requires Disciplined(w, ownEvent, log) && WellPlaced(w, ownEvent, log + [e], |log|)
    ensures Disciplined(w, ownEvent, log + [e])
  {
    var log' := log + [e];
    forall k | 0 < k < |log'| ensures WellPlaced(w, ownEvent, log', k) {
      if k < |log| {
        assert log'[..k + 1] == log[..k + 1];
        assert WellPlaced(w, ownEvent, log, k);
        SamePlace(w, ownEvent, log, log', k);
      }
    }
  }

  /** Exclusivity: whatever prefix of the log is looked at, at most one LOCK in it is open. */
  lemma OneOpenLock(w: Workflow, ownEvent: Uid, log: seq<Entry>, c: nat, i: nat, j: nat)
    requires Disciplined(w, ownEvent, log) && c < |log|
    requires OpenLockAt(log, c, i) && OpenLockAt(log, c, j)
    ensures i == j
  {
    if i < j {
      LaterLockClosesEarlier(w, ownEvent, log, c, i, j);
    } else if j < i {
      LaterLockClosesEarlier(w, ownEvent, log, c, j, i);
    }
  }

  /** A LOCK before another LOCK or a CHECKPOINT was resolved before it. */
  lemma LaterLockClosesEarlier(w: Workflow, ownEvent: Uid, log: seq<Entry>, c: nat, i: nat, j: nat)
    requires Disciplined(w, ownEvent, log) && i < j < |log| && j - 1 <= c < |log|
    requires log[i].tag.kind == Lock && (log[j].tag.kind == Lock || log[j].tag.kind == Checkpoint)
    ensures LockResolved(log, j - 1, i) && LockResolved(log, c, i)
  {
    assert WellPlaced(w, ownEvent, log, j);
    if !LockResolved(log, j - 1, i) {
      assert OpenLockAt(log, j - 1, i);
    }
    ResolvedStays(log, j - 1, c, i);
  }

  /** On a LOCK, `lock_is_resolved`, which skips LOCK entries, and `lock_resolve_is_committed`, which does
      not, give one answer. */
  lemma ResolveScansAgree(w: Workflow, ownEvent: Uid, log: seq<Entry>, c: nat, i: nat)
    requires Disciplined(w, ownEvent, log) && c < |log| && i < |log| && log[i].tag.kind == Lock
    ensures LockResolved(log, c, i) <==> LockResolveCommitted(log, c, i)
  {
    if LockResolveCommitted(log, c, i) {
      var j :| i < j <= c && log[j].event == log[i].event;
      if log[j].tag.kind == Lock {
        LaterLockClosesEarlier(w, ownEvent, log, c, i, j);
      }
    }
  }

  /** Every LOCK before a CHECKPOINT is resolved before it, so a scan from the checkpoint finds an open
      lock exactly when a scan of the whole log does. */
  lemma CheckpointSeals(w: Workflow, ownEvent: Uid, log: seq<Entry>, k: nat, c: nat)
    requires Disciplined(w, ownEvent, log) && k < |log| && log[k].tag.kind == Checkpoint && k - 1 <= c < |log|
    ensures forall i | 0 <= i < k && log[i].tag.kind == Lock :: LockResolved(log, k - 1, i)
    ensures HasOpenLock(log, c, k) <==> HasOpenLock(log, c, 0)
  {
    forall i | 0 <= i < k && log[i].tag.kind == Lock ensures LockResolved(log, k - 1, i) && LockResolved(log, c, i) {
      LaterLockClosesEarlier(w, ownEvent, log, c, i, k);
    }
    if HasOpenLock(log, c, 0) {
      var i :| 0 <= i <= c && OpenLockAt(log, c, i);
      assert k <= i;
    }
  }

  lemma {:induction false} LatestIsCheckpoint(log: seq<Entry>)
    requires |log| > 0 && log[0] == EMPTY_ENTRY
    ensures LatestCheckpoint(log) < |log| && log[LatestCheckpoint(log)].tag.kind == Checkpoint
    ensures forall k | LatestCheckpoint(log) < k < |log| :: log[k].tag.kind != Checkpoint
  {
    if |log| > 1 && log[|log| - 1].tag.kind != Checkpoint {
      LatestIsCheckpoint(log[..|log| - 1]);
    }
  }

  lemma LockTagsDiffer(w: Workflow, ownEvent: Uid, log: seq<Entry>, i: nat, j: nat)
    requires Disciplined(w, ownEvent, log) && i < j < |log| && log[j].tag.kind == Lock
    ensures log[i].tag != log[j].tag
  {
    assert WellPlaced(w, ownEvent, log, j);
  }

  /** Once an own EXEC follows an own LOCK, no own EXEC with the tag id of the LOCK comes later. */
  lemma SecondExecHasNoLock(w: Workflow, ownEvent: Uid, log: seq<Entry>, i: nat, j: nat, k: nat)
    requires Disciplined(w, ownEvent, log) && i < j < k < |log|
    requires log[i].tag.kind == Lock && log[i].event == ownEvent
    requires log[j].tag.kind == Exec && log[j].event == ownEvent && log[k].event == ownEvent
    ensures log[k].tag != Tag(log[i].tag.uid, Exec)
  {
    if log[k].tag == Tag(log[i].tag.uid, Exec) {
      assert WellPlaced(w, ownEvent, log, i) && WellPlaced(w, ownEvent, log, k);
      var n :| 0 <= n < k && OwnOpenLock(log, ownEvent, log[k].tag.uid, k, n);
      if n > i {
        LockTagsDiffer(w, ownEvent, log, i, n);
      }
    }
  }

  /** After a LOCK of the own event, at most one EXEC of the own event carries its tag id. */
  lemma OneExecPerLock(w: Workflow, ownEvent: Uid, log: seq<Entry>, i: nat, j: nat, k: nat)
    requires Disciplined(w, ownEvent, log) && i < j < |log| && i < k < |log|
    requires log[i].tag.kind == Lock && log[i].event == ownEvent
    requires log[j].tag == Tag(log[i].tag.uid, Exec) && log[j].event == ownEvent
    requires log[k].tag == Tag(log[i].tag.uid, Exec) && log[k].event == ownEvent
    ensures j == k
  {
    if j < k {
      SecondExecHasNoLock(w, ownEvent, log, i, j, k);
    } else if k < j {
      SecondExecHasNoLock(w, ownEvent, log, i, k, j);
    }
  }

  // ---- What a leader appends is well placed

  /** What a leader's bookkeeping refers to. */
  predicate Anchored(p: PeerState) {
    && p.lastCheckpoint < |p.log|
    && p.log[p.lastCheckpoint].tag.kind == Checkpoint
  }

  /** No LOCK has been appended that is not committed yet. */
  predicate NoLockInFlight(p: PeerState) {
    forall i | p.commitIndex < i < |p.log| :: p.log[i].tag.kind != Lock
  }

  /** Nothing that would resolve a LOCK of the own event has been appended that is not committed yet. */
  predicate NoOwnResolutionInFlight(p: PeerState) {
    forall i | p.commitIndex < i < |p.log| && p.log[i].tag.kind != Lock :: p.log[i].event != p.clusterEvent
  }

  ghost predicate Orderly(w: Workflow, p: PeerState) {
    && Disciplined(w, p.clusterEvent, p.log)
    && (forall i | 0 <= i < |p.log| :: p.log[i].index == i)
    && LockSet(p.workflow, p.clusterEvent) == LockSet(w, p.clusterEvent)
    && (p.role == Leader ==> Anchored(p))
  }

  /** With no LOCK in flight, a leader that finds no open lock between its checkpoint and its commit index
      has none in its log. */
  lemma NoOpenLockFound(w: Workflow, p: PeerState)
    requires Orderly(w, p) && p.role == Leader && NoLockInFlight(p) && p.commitIndex < |p.log|
    requires !HasOpenLock(p.log, p.commitIndex, p.lastCheckpoint)
    ensures !HasOpenLock(p.log, |p.log| - 1, 0)
  {
    var c := |p.log| - 1;
    forall i | 0 <= i < |p.log| && p.log[i].tag.kind == Lock ensures LockResolved(p.log, c, i) {
      if i < p.lastCheckpoint {
        LaterLockClosesEarlier(w, p.clusterEvent, p.log, c, i, p.lastCheckpoint);
      } else {
        assert !OpenLockAt(p.log, p.commitIndex, i);
        ResolvedStays(p.log, p.commitIndex, c, i);
      }
    }
  }

  /** Requests from other clusters are LOCK or EXEC requests, and EXEC requests name their event. */
  predicate HonestRequest(p: PeerState, req: CommandReq) {
    && (req.tag.kind == Lock || req.tag.kind == Exec)
    && (req.tag.kind == Exec ==> req.event != p.clusterEvent)
  }

  /** Answers are to lock requests this cluster made. */
  predicate HonestAnswer(p: PeerState, rsp: CommandRsp) {
    rsp.tag.kind == Lock ==> forall i | 0 <= i < |p.log| && p.log[i].tag == rsp.tag :: p.log[i].event == p.clusterEvent
  }

  /** P5, for a step of this peer. */
  predicate P5Honest(p: PeerState, s: Step) {
    match s
    case Command(_, req) => HonestRequest(p, req)
    case CommandAnswer(_, rsp) => HonestAnswer(p, rsp)
    case _ => true
  }

  /** P6, for a step of this peer. */
  predicate P6Settled(p: PeerState, s: Step) {
    p.role == Leader ==>
      match s
      case Timer(_, idle, _) => TimerInBounds(p, idle) && CheckpointDue(p, idle) ==> NoLockInFlight(p)
      case Command(_, req) => CommandReqInBounds(p, req) && AppendsLock(p, req) ==> NoLockInFlight(p)
      case CommandAnswer(_, rsp) => CommandRspInBounds(p, rsp) && LockAnswerCounts(p, rsp) ==> NoOwnResolutionInFlight(p)
      case _ => true
  }

  lemma SameScansAfter(log: seq<Entry>, e: Entry, from: nat)
    requires |log| > 0
    ensures HasOpenLock(log + [e], |log| - 1, from) <==> HasOpenLock(log, |log| - 1, from)
    ensures from < |log| ==> (OpenLockAt(log + [e], |log| - 1, from) <==> OpenLockAt(log, |log| - 1, from))
  {
    assert (log + [e])[..|log|] == log[..|log|];
    SameScans(log + [e], log, |log|, |log| - 1, from);
  }

  predicate AppendsLock(p: PeerState, req: CommandReq)
    requires CommandReqInBounds(p, req)
  {
    EntryForCommand(p, req) != [] && EntryForCommand(p, req)[0].tag.kind == Lock
  }

  lemma CommandIsWellPlaced(w: Workflow, p: PeerState, req: CommandReq)
    requires Orderly(w, p) && p.role == Leader && HonestRequest(p, req) && CommandReqInBounds(p, req)
    requires EntryForCommand(p, req) != [] && (AppendsLock(p, req) ==> NoLockInFlight(p))
    ensures WellPlaced(w, p.clusterEvent, p.log + EntryForCommand(p, req), |p.log|)
  {
    var e := EntryForCommand(p, req)[0];
    SameScansAfter(p.log, e, 0);
    if e.tag.kind == Lock {
      NoOpenLockFound(w, p);
      assert forall i | 0 <= i < |p.log| :: p.log[i].tag != req.tag;
    }
  }

  /** The LOCK an answer counts for is open, and the cluster's own. */
  lemma AnsweredLock(w: Workflow, p: PeerState, rsp: CommandRsp)
    requires Orderly(w, p) && NoOwnResolutionInFlight(p) && HonestAnswer(p, rsp)
    requires CommandRspInBounds(p, rsp) && LockAnswerCounts(p, rsp)
    ensures OwnOpenLock(p.log, p.clusterEvent, rsp.tag.uid, |p.log|, IndexOfTag(p.log, rsp.tag))
  {
    IndexOfTagInLog(p.log, rsp.tag, 0);
  }

  lemma CollectedExecIsWellPlaced(w: Workflow, p: PeerState, rsp: CommandRsp, e: Entry)
    requires Orderly(w, p) && NoOwnResolutionInFlight(p) && HonestAnswer(p, rsp)
    requires CommandRspInBounds(p, rsp) && LockAnswerCounts(p, rsp)
    requires e.tag == Tag(rsp.tag.uid, Exec) && e.event == p.clusterEvent
    ensures WellPlaced(w, p.clusterEvent, p.log + [e], |p.log|)
  {
    AnsweredLock(w, p, rsp);
    SameScansAfter(p.log, e, IndexOfTag(p.log, rsp.tag));
    assert OwnOpenLock(p.log + [e], p.clusterEvent, e.tag.uid, |p.log|, IndexOfTag(p.log, rsp.tag));
  }

  lemma CheckpointIsWellPlaced(w: Workflow, p: PeerState, e: Entry)
    requires Orderly(w, p) && p.role == Leader && NoLockInFlight(p) && p.commitIndex < |p.log|
    requires !HasOpenLock(p.log, p.commitIndex, p.lastCheckpoint) && e.tag.kind == Checkpoint
    ensures WellPlaced(w, p.clusterEvent, p.log + [e], |p.log|)
  {
    NoOpenLockFound(w, p);
    SameScansAfter(p.log, e, 0);
  }

  // ---- Why P6 covers the checkpoint timer

  /** The timer looks for open locks in the committed part of the log only. The checkpoint it appends
      seals the log, so that a scan from it agrees with a scan of everything, exactly when every LOCK of
      another event that is not committed yet has been resolved. */
  lemma CheckpointTimerIff(w: Workflow, p: PeerState, e: Entry)
    requires Orderly(w, p) && p.role == Leader && p.commitIndex < |p.log| && CheckpointDue(p, true)
    requires e.tag.kind == Checkpoint && e.event == p.clusterEvent
    ensures var log, k := p.log + [e], |p.log|;
      (HasOpenLock(log, k, k) <==> HasOpenLock(log, k, 0))
      <==> forall i | p.commitIndex < i < k && p.log[i].tag.kind == Lock && p.log[i].event != p.clusterEvent ::
             LockResolved(p.log, k - 1, i)
  {
    var log, k, c := p.log + [e], |p.log|, p.commitIndex;
    CheckpointSeals(w, p.clusterEvent, p.log, p.lastCheckpoint, c);
    forall i | 0 <= i < k ensures OpenLockAt(log, k, i) <==>
      (c < i && p.log[i].tag.kind == Lock && p.log[i].event != p.clusterEvent && !LockResolved(p.log, k - 1, i))
    {
      OpenBehindCheckpoint(w, p, e, i);
    }
    if HasOpenLock(log, k, 0) {
      var i :| 0 <= i <= k && OpenLockAt(log, k, i);
      assert i < k;
    }
  }

  /** Which LOCKs are open once a checkpoint follows them: a checkpoint has the cluster's own event, so it
      counts as resolving an own LOCK. */
  lemma OpenBehindCheckpoint(w: Workflow, p: PeerState, e: Entry, i: nat)
    requires i < |p.log| && p.commitIndex < |p.log| && !HasOpenLock(p.log, p.commitIndex, 0)
    requires e.tag.kind == Checkpoint && e.event == p.clusterEvent
    ensures OpenLockAt(p.log + [e], |p.log|, i) <==>
      && p.commitIndex < i && p.log[i].tag.kind == Lock && p.log[i].event != p.clusterEvent
      && !LockResolved(p.log, |p.log| - 1, i)
  {
    var log, k, c := p.log + [e], |p.log|, p.commitIndex;
    assert log[i] == p.log[i] && log[k] == e;
    if LockResolved(p.log, k - 1, i) && p.log[i].tag.kind == Lock {
      var j :| i < j <= k - 1 && p.log[j].tag.kind != Lock && p.log[j].event == p.log[i].event;
      assert log[j] == p.log[j];
    }
    if i <= c {
      assert !OpenLockAt(p.log, c, i);
      if p.log[i].tag.kind == Lock {
        ResolvedStays(p.log, c, k - 1, i);
      }
    }
  }

  // ---- Requests that arrive twice

  lemma AppendKeepsLockSet(p: PeerState, e: Entry, id: Uid)
    requires |p.log| > 0
    ensures LockSet(AppendToLog(p, e).peer.workflow, id) == LockSet(p.workflow, id)
  {
    ApplyKeepsRelations(p.workflow, Uncommitted(p.(log := p.log + [e]), |p.log|));
    SameLockSet(p.workflow, AppendToLog(p, e).peer.workflow, id);
  }

  /** What the peer makes of the request once it has appended it. */
  lemma ArrivesAgain(p: PeerState, req: CommandReq, q: PeerState)
    requires p.commitIndex < |p.log| && EntryForCommand(p, req) != [] && q == RecvCommandReq(p, req).peer
    ensures EntryForCommand(q, req) != [] <==>
      && req.tag.kind == Lock && req.event == p.clusterEvent && LockSet(p.workflow, p.clusterEvent) == {}
      && Enabled(q.workflow, p.clusterEvent) && !HasOpenLock(q.log, q.commitIndex, q.lastCheckpoint)
  {
    var e := EntryForCommand(p, req)[0];
    AppendKeepsLockSet(p, e, p.clusterEvent);
    assert q.log == p.log + [e] && q.log[|p.log|] == e;
    assert e.tag == req.tag ==> TagExists(q.log, req.tag);
    if e.tag != req.tag {
      assert !TagExists(q.log, req.tag);
    }
  }

  predicate AllCommitted(p: PeerState) {
    |p.log| > 0 && p.commitIndex == |p.log| - 1
  }

  /** An event that acts on nothing stays enabled when it is executed. */
  lemma FreeEventStaysEnabled(w: Workflow, id: Uid)
    requires Enabled(w, id) && EventAt(w.events, id).id == id && LockSet(w, id) == {}
    ensures Enabled(Execute(w, id), id)
  {
    assert Effects(w, id) == {};
    FirstIsElement(Related(w.excludesTo, id));
    FirstIsElement(Related(w.includesTo, id));
    FirstIsElement(Related(w.responsesTo, id));
  }

  lemma FirstIsElement(ids: seq<Uid>)
    ensures ids != [] ==> ids[0] in Elements(ids)
  {}

  lemma LargerScan(log: seq<Entry>, e: Entry, from: nat)
    requires |log| > 0 && e.tag.kind != Lock
    ensures HasOpenLock(log + [e], |log|, from) ==> HasOpenLock(log, |log| - 1, from)
  {
    SameScansAfter(log, e, from);
    forall i | 0 <= i < |log| && OpenLockAt(log + [e], |log|, i) ensures OpenLockAt(log + [e], |log| - 1, i) {}
  }

  /** The only peer commits the EXEC at once. */
  lemma AloneExecutes(p: PeerState, e: Entry, q: PeerState)
    requires |p.members| == 1 && AllCommitted(p) && e.tag.kind == Exec && q == AppendToLog(p, e).peer
    ensures q.workflow == Execute(p.workflow, e.event) && q.log == p.log + [e] && q.commitIndex == |p.log|
    ensures q.lastCheckpoint == p.lastCheckpoint
  {
    var p1 := p.(log := p.log + [e]);
    var entries := Uncommitted(p1, |p1.log| - 1);
    assert entries == [e] && entries[..0] == [];
    assert Apply(p.workflow, entries) == Execute(p.workflow, e.event);
    assert CheckpointIn(entries, p.lastCheckpoint) == CheckpointIn(entries[..0], p.lastCheckpoint);
  }

  lemma AloneStillFree(p: PeerState, e: Entry, q: PeerState)
    requires |p.members| == 1 && AllCommitted(p)
    requires e.tag.kind == Exec && e.event == p.clusterEvent && q == AppendToLog(p, e).peer
    requires LockSet(p.workflow, p.clusterEvent) == {} && EventAt(p.workflow.events, p.clusterEvent).id == p.clusterEvent
    requires Enabled(p.workflow, p.clusterEvent) && !HasOpenLock(p.log, p.commitIndex, p.lastCheckpoint)
    ensures q.commitIndex < |q.log|
    ensures Enabled(q.workflow, p.clusterEvent) && !HasOpenLock(q.log, q.commitIndex, q.lastCheckpoint)
  {
    AloneExecutes(p, e, q);
    FreeEventStaysEnabled(p.workflow, p.clusterEvent);
    LargerScan(p.log, e, p.lastCheckpoint);
  }

  lemma OthersStillFree(p: PeerState, e: Entry, q: PeerState)
    requires |p.members| != 1 && p.commitIndex < |p.log| && q == AppendToLog(p, e).peer
    requires Enabled(p.workflow, p.clusterEvent) && !HasOpenLock(p.log, p.commitIndex, p.lastCheckpoint)
    ensures q.commitIndex < |q.log|
    ensures Enabled(q.workflow, p.clusterEvent) && !HasOpenLock(q.log, q.commitIndex, q.lastCheckpoint)
  {
    assert q.log[..|p.log|] == p.log[..|p.log|];
    SameScans(q.log, p.log, |p.log|, p.commitIndex, p.lastCheckpoint);
  }

  /** A request that has been appended is appended again when it arrives again, in a cluster of any size,
      exactly when it is a lock request on the own event and nothing has to be locked for it: such a request
      is logged as EXEC, and the check for duplicates looks for LOCK. (The only peer of a cluster always has
      committed its whole log.) */
  lemma AppendedTwiceIff(p: PeerState, req: CommandReq)
    requires p.commitIndex < |p.log| && EntryForCommand(p, req) != []
    requires |p.members| == 1 ==> AllCommitted(p) && EventAt(p.workflow.events, p.clusterEvent).id == p.clusterEvent
    ensures CommandReqInBounds(RecvCommandReq(p, req).peer, req)
    ensures EntryForCommand(RecvCommandReq(p, req).peer, req) != []
      <==> req.tag.kind == Lock && req.event == p.clusterEvent && LockSet(p.workflow, p.clusterEvent) == {}
  {
    var e, q := EntryForCommand(p, req)[0], RecvCommandReq(p, req).peer;
    ArrivesAgain(p, req, q);
    if req.tag.kind == Lock && req.event == p.clusterEvent && LockSet(p.workflow, p.clusterEvent) == {} {
      if |p.members| == 1 {
        AloneStillFree(p, e, q);
      } else {
        OthersStillFree(p, e, q);
      }
    }
  }

  /** A cluster of one that owns event 7, which nothing constrains and which acts on nothing. */
  function FreeEvent(): PeerState {
    Configured(1, [1], 7, map[1 := 7], 1,
               Workflow(map[7 := Event(7, false, false, false)], map[], map[], map[], map[], map[], map[], map[]))
  }

  /** Its event is executed twice for one request. */
  lemma ExecutedTwice()
    ensures var p, req := FreeEvent(), CommandReq(9, Tag(50, Lock), 7); var q := RecvCommandReq(p, req).peer;
      RecvCommandReq(q, req).peer.log
      == [EMPTY_ENTRY, Entry(1, 0, 7, 9, Tag(50, Exec)), Entry(2, 0, 7, 9, Tag(50, Exec))]
  {
    var p, req := FreeEvent(), CommandReq(9, Tag(50, Lock), 7);
    assert !HasOpenLock(p.log, 0, 0);
    assert EntryForCommand(p, req) == [Entry(1, 0, 7, 9, Tag(50, Exec))];
    var q := RecvCommandReq(p, req).peer;
    assert q.log == [EMPTY_ENTRY, Entry(1, 0, 7, 9, Tag(50, Exec))] && q.commitIndex == 1;
    var entries := Uncommitted(p.(log := q.log), 1);
    assert entries == [q.log[1]] && entries[..0] == [];
    AppendedTwiceIff(p, req);
  }
}

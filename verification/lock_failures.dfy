/** Why the lock theorems need P6 and their part of P3: runs that respect all other hypotheses and end
    with two open LOCKs, or with an event executed before everything it locks has answered. */
module LockFailures {
  import opened Uids
  import opened Workflows
  import opened PeerSpec
  import opened Clusters
  import opened Locks
  import opened Paths
  import opened CatchingUp
  import opened PairRuns
  import opened Reelections

  // ---- P6: a LOCK hidden behind a checkpoint

  const WITHOUT_P6 := ALL_RULES.(p6 := false)

  function Three(w: Workflow): Config {
    Config([1, 2, 3], 7, map[], 1, w)
  }

  const EXEC9 := Entry(1, 1, 9, 9, Tag(50, Exec))
  const LOCK8 := Entry(2, 1, 8, 8, Tag(51, Lock))
  const CHECK := Entry(3, 1, 7, 1, Tag(60, Checkpoint))
  const LOCK9 := Entry(4, 1, 9, 9, Tag(52, Lock))

  const CHECKED_LOG := [EMPTY_ENTRY, EXEC9, LOCK8, CHECK]

  function Leading(log: seq<Entry>, commitIndex: nat, indices: map<Uid, nat>, checkpoint: nat, w: Workflow): Look {
    Look(Leader, 1, log, commitIndex, indices, {}, checkpoint, w)
  }

  function Behind(log: seq<Entry>, commitIndex: nat, w: Workflow): Look {
    Look(Follower, 1, log, commitIndex, map[], {}, 0, w)
  }

  lemma ThreeIsPair(w: Workflow)
    ensures IsPair(Three(w), 1, 2)
  {
    assert [1, 2, 3][0] == 1 && [1, 2, 3][1] == 2;
  }

  lemma FirstCommit(w: Workflow, s: Look, t: Look)
    requires s == Leading([EMPTY_ENTRY, EXEC9], 0, map[], 0, w) && t == Behind([EMPTY_ENTRY], 0, w)
    ensures PairRuns.Follows(s, t) && Commits(s, 2)
    ensures Committed(s, 2) == Leading([EMPTY_ENTRY, EXEC9], 1, map[2 := 1], 0, Execute(w, 9))
    ensures Following(s, t) == Behind([EMPTY_ENTRY, EXEC9], 0, w)
  {
    assert s.log[s.commitIndex + 1..] == [EXEC9];
    OneEntry(w, EXEC9, 0);
  }

  lemma ReachFirstLeader(cfg: Config, c: Cluster, w: Workflow)
    requires cfg == Three(w) && c == Start(cfg)
    ensures Init(cfg, c)
    ensures CanShow(cfg, WITHOUT_P6, c, 1, Leading([EMPTY_ENTRY], 0, map[], 0, w), 2, Behind([EMPTY_ENTRY], 0, w))
  {
    ThreeIsPair(w);
    ShowStart(cfg, WITHOUT_P6, c, 1, 2);
    ShowElection(cfg, WITHOUT_P6, c, 1, Fresh(w), 2, Fresh(w), Leading([EMPTY_ENTRY], 0, map[], 0, w),
                 Behind([EMPTY_ENTRY], 0, w));
  }

  /** One EXEC is committed on the report of peer 2. */
  lemma ReachFirstCommit(cfg: Config, c: Cluster, w: Workflow)
    requires cfg == Three(w)
    requires CanShow(cfg, WITHOUT_P6, c, 1, Leading([EMPTY_ENTRY], 0, map[], 0, w), 2, Behind([EMPTY_ENTRY], 0, w))
    ensures CanShow(cfg, WITHOUT_P6, c, 1, Leading([EMPTY_ENTRY, EXEC9], 1, map[2 := 1], 0, Execute(w, 9)),
                    2, Behind([EMPTY_ENTRY, EXEC9], 0, w))
  {
    var s, s1 := Leading([EMPTY_ENTRY], 0, map[], 0, w), Leading([EMPTY_ENTRY, EXEC9], 0, map[], 0, w);
    var t := Behind([EMPTY_ENTRY], 0, w);
    ThreeIsPair(w);
    assert s.log + [EXEC9] == s1.log;
    ShowRequest(cfg, WITHOUT_P6, c, 1, s, 2, t, CommandReq(9, Tag(50, Exec), 9), EXEC9, s1);
    FirstCommit(w, s1, t);
    ShowCommit(cfg, WITHOUT_P6, c, 1, s1, 2, t, Committed(s1, 2), Following(s1, t));
  }

  /** A LOCK of another cluster is logged, and before it is committed the timer appends a CHECKPOINT. */
  lemma ReachCheckpoint(cfg: Config, c: Cluster, w: Workflow, w1: Workflow)
    requires cfg == Three(w) && w1 == Execute(w, 9)
    requires CanShow(cfg, WITHOUT_P6, c, 1, Leading([EMPTY_ENTRY, EXEC9], 1, map[2 := 1], 0, w1), 2,
                     Behind([EMPTY_ENTRY, EXEC9], 0, w))
    ensures CanShow(cfg, WITHOUT_P6, c, 1, Leading(CHECKED_LOG, 1, map[2 := 1], 3, w1), 2, Behind([EMPTY_ENTRY, EXEC9], 0, w))
  {
    var t := Behind([EMPTY_ENTRY, EXEC9], 0, w);
    var s1, s2 := Leading([EMPTY_ENTRY, EXEC9], 1, map[2 := 1], 0, w1),
        Leading([EMPTY_ENTRY, EXEC9, LOCK8], 1, map[2 := 1], 0, w1);
    ThreeIsPair(w);
    assert s1.log + [LOCK8] == s2.log;
    ShowRequest(cfg, WITHOUT_P6, c, 1, s1, 2, t, CommandReq(8, Tag(51, Lock), 8), LOCK8, s2);
    assert s2.log + [CHECK] == CHECKED_LOG;
    ShowCheckpoint(cfg, WITHOUT_P6, c, 1, s2, 2, t, 60, Leading(CHECKED_LOG, 1, map[2 := 1], 3, w1));
  }

  lemma SecondCommit(w: Workflow, w1: Workflow, s: Look, t: Look)
    requires s == Leading(CHECKED_LOG, 1, map[2 := 1], 3, w1) && t == Behind([EMPTY_ENTRY, EXEC9], 0, w)
        && w1 == Execute(w, 9)
    ensures PairRuns.Follows(s, t) && Commits(s, 2)
    ensures Committed(s, 2) == Leading(CHECKED_LOG, 3, map[2 := 3], 3, w1)
  {
    assert s.log[s.commitIndex + 1..] == [LOCK8, CHECK];
    TwoEntries(w1, LOCK8, CHECK, 3);
  }

  /** A log with open LOCKs of two events. */
  predicate TwoAreOpen(log: seq<Entry>) {
    |log| == 5 && OpenLockAt(log, 4, 2) && OpenLockAt(log, 4, 4) && log[2].event == 8 && log[4].event == 9
  }

  lemma BothAreOpen()
    ensures TwoAreOpen([EMPTY_ENTRY, EXEC9, LOCK8, CHECK, LOCK9])
  {}

  lemma ReachTwoLocks(cfg: Config, c: Cluster, w: Workflow, w1: Workflow, t: Look) returns (t': Look)
    requires cfg == Three(w) && w1 == Execute(w, 9) && t == Behind([EMPTY_ENTRY, EXEC9], 0, w)
    requires CanShow(cfg, WITHOUT_P6, c, 1, Leading(CHECKED_LOG, 1, map[2 := 1], 3, w1), 2, t)
    ensures CanShow(cfg, WITHOUT_P6, c, 1, Leading([EMPTY_ENTRY, EXEC9, LOCK8, CHECK, LOCK9], 3, map[2 := 3], 3, w1), 2, t')
    ensures t'.role == Follower && t'.term == 1 && t'.log == CHECKED_LOG
  {
    var s, s1 := Leading(CHECKED_LOG, 1, map[2 := 1], 3, w1), Leading(CHECKED_LOG, 3, map[2 := 3], 3, w1);
    ThreeIsPair(w);
    SecondCommit(w, w1, s, t);
    t' := Following(s, t);
    ShowCommit(cfg, WITHOUT_P6, c, 1, s, 2, t, s1, t');
    var s2 := Leading([EMPTY_ENTRY, EXEC9, LOCK8, CHECK, LOCK9], 3, map[2 := 3], 3, w1);
    assert CHECKED_LOG + [LOCK9] == s2.log;
    ShowRequest(cfg, WITHOUT_P6, c, 1, s1, 2, t', CommandReq(9, Tag(52, Lock), 9), LOCK9, s2);
  }

  lemma ThirdCommit(s: Look, t: Look)
    requires s.role == Leader && s.term == 1 && s.log == [EMPTY_ENTRY, EXEC9, LOCK8, CHECK, LOCK9] && s.commitIndex == 3
    requires s.indices == map[2 := 3] && t.role == Follower && t.term == 1 && t.log == CHECKED_LOG
    ensures PairRuns.Follows(s, t) && Commits(s, 2)
  {}

  lemma TwoLocksShown(cfg: Config, c: Cluster, w: Workflow, s: Look, t: Look) returns (c': Cluster)
    requires cfg == Three(w) && CanShow(cfg, WITHOUT_P6, c, 1, s, 2, t)
    requires s.role == Leader && s.term == 1 && s.log == [EMPTY_ENTRY, EXEC9, LOCK8, CHECK, LOCK9] && s.commitIndex == 3
    requires s.indices == map[2 := 3] && t.role == Follower && t.term == 1 && t.log == CHECKED_LOG
    ensures CanReach(cfg, WITHOUT_P6, c, c') && 1 in c'.peers
    ensures c'.peers[1].commitIndex == 4 && TwoAreOpen(c'.peers[1].log)
  {
    ThreeIsPair(w);
    ThirdCommit(s, t);
    var s', t' := Committed(s, 2), Following(s, t);
    ShowCommit(cfg, WITHOUT_P6, c, 1, s, 2, t, s', t');
    c' :| CanReach(cfg, WITHOUT_P6, c, c') && Shows(cfg, c', 1, s', 2, t');
    BothAreOpen();
  }

  /** The lock theorems need P6: in a cluster of three, whatever the workflow, a run that respects P1 to P5
      ends with two LOCKs of different events committed and open. */
  lemma CheckpointForgetsLock(w: Workflow) returns (states: seq<Cluster>, steps: seq<Step>)
    ensures IsRunUnder(Three(w), WITHOUT_P6, states, steps)
    ensures 1 in states[|steps|].peers && states[|steps|].peers[1].commitIndex == 4
    ensures TwoAreOpen(states[|steps|].peers[1].log)
  {
    var cfg, w1 := Three(w), Execute(w, 9);
    var c, t := Start(cfg), Behind([EMPTY_ENTRY, EXEC9], 0, w);
    ThreeIsPair(w);
    ReachFirstLeader(cfg, c, w);
    ReachFirstCommit(cfg, c, w);
    ReachCheckpoint(cfg, c, w, w1);
    var t' := ReachTwoLocks(cfg, c, w, w1, t);
    var c' := TwoLocksShown(cfg, c, w, Leading([EMPTY_ENTRY, EXEC9, LOCK8, CHECK, LOCK9], 3, map[2 := 3], 3, w1), t');
    states, steps := ReachedByRun(cfg, WITHOUT_P6, c, c');
  }

  // ---- P3: locks of an earlier reign

  /** No lock answer ever comes from cluster 8 about the second LOCK. */
  const STALE_LOCKS := Rules(false, true, true, true, {(8, Tag(60, Lock))})

  const PEER_EVENTS: map<Uid, Uid> := map[1 := 7, 2 := 7, 8 := 8, 9 := 9]

  /** Event 7 excludes the events 8 and 9. */
  const EXCLUDER := Workflow(map[7 := Event(7, false, false, false), 8 := Event(8, false, false, false),
                                 9 := Event(9, false, false, false)],
                             map[7 := [8, 9]], map[], map[], map[], map[], map[], map[])

  const TWO := Config([1, 2], 7, PEER_EVENTS, 1, EXCLUDER)

  const L1 := Entry(1, 1, 7, 1, Tag(50, Lock))
  const X2 := Entry(2, 2, 7, 2, Tag(50, Exec))
  const L3 := Entry(3, 3, 7, 1, Tag(60, Lock))
  const X4 := Entry(4, 3, 7, 1, Tag(60, Exec))

  const LOG1 := [EMPTY_ENTRY, L1]
  const LOG2 := [EMPTY_ENTRY, L1, X2]
  const LOG3 := [EMPTY_ENTRY, L1, X2, L3]
  const LOG4 := [EMPTY_ENTRY, L1, X2, L3, X4]

  function Sits(role: Role, term: nat, log: seq<Entry>, commitIndex: nat, indices: map<Uid, nat>, locked: set<Uid>,
                w: Workflow): Look
  {
    Look(role, term, log, commitIndex, indices, locked, 0, w)
  }

  lemma TwoIsPair()
    ensures IsPair(TWO, 1, 2) && IsPair(TWO, 2, 1)
  {
    assert [1, 2][0] == 1 && [1, 2][1] == 2;
  }

  /** The workflow before and after event 7 was executed. */
  predicate IsExcluder(w: Workflow) {
    w == EXCLUDER || w == Execute(EXCLUDER, 7)
  }

  lemma ExcluderLocks(w: Workflow)
    requires IsExcluder(w)
    ensures LockSet(w, 7) == {8, 9}
  {
    var ids := [8, 9];
    assert Related(w.excludesTo, 7) == ids && ids[0] == 8 && ids[1] == 9;
    assert Elements(ids) == {8, 9};
    assert Effects(w, 7) == {8, 9};
    assert DependentsOf(w, {8, 9}) == {};
  }

  lemma ExcluderIsEnabled(w: Workflow)
    requires IsExcluder(w)
    ensures Enabled(w, 7)
  {
    var s := EXCLUDER.events;
    var s0 := s[7 := s[7].(executed := true)];
    var ids := [8, 9];
    assert ids[..1] == [8] && [8][..0] == [] && ids[1] == 9;
    assert SetExcluded(s0, [8], true) == s0[8 := s0[8].(excluded := true)];
    assert SetExcluded(s0, ids, true)[7] == s0[7];
  }

  lemma LogsAreRooted()
    ensures Rooted([EMPTY_ENTRY]) && Rooted(LOG1) && Rooted(LOG2) && Rooted(LOG3)
    ensures Matching(LOG1, [EMPTY_ENTRY]) && Matching(LOG1, LOG1) && Matching(LOG2, LOG1) && Matching(LOG2, LOG2)
    ensures Matching(LOG3, LOG2)
  {}

  lemma ReachFirstReign(c: Cluster, w: Workflow, log: seq<Entry>)
    requires c == Start(TWO) && w == EXCLUDER && log == [EMPTY_ENTRY]
    ensures Init(TWO, c)
    ensures CanShow(TWO, STALE_LOCKS, c, 1, Sits(Leader, 1, log, 0, map[], {}, w), 2, Sits(Follower, 1, log, 0, map[], {}, w))
  {
    TwoIsPair();
    ShowStart(TWO, STALE_LOCKS, c, 1, 2);
    ShowElection(TWO, STALE_LOCKS, c, 1, Fresh(w), 2, Fresh(w), Sits(Leader, 1, log, 0, map[], {}, w),
                 Sits(Follower, 1, log, 0, map[], {}, w));
  }

  /** Peer 1 is asked to lock event 7. */
  lemma ReachFirstLock(c: Cluster, w: Workflow, s: Look, t: Look)
    requires s == Sits(Leader, 1, [EMPTY_ENTRY], 0, map[], {}, w) && t == Sits(Follower, 1, [EMPTY_ENTRY], 0, map[], {}, w)
    requires CanShow(TWO, STALE_LOCKS, c, 1, s, 2, t) && IsExcluder(w)
    ensures CanShow(TWO, STALE_LOCKS, c, 1, Sits(Leader, 1, LOG1, 0, map[], {}, w), 2, t)
  {
    TwoIsPair();
    ExcluderLocks(w);
    ExcluderIsEnabled(w);
    assert [EMPTY_ENTRY] + [L1] == LOG1;
    ShowRequest(TWO, STALE_LOCKS, c, 1, s, 2, t, CommandReq(1, Tag(50, Lock), 7), L1, Sits(Leader, 1, LOG1, 0, map[], {}, w));
  }

  lemma FirstLockCommits(w: Workflow, s: Look, t: Look, s': Look)
    requires s == Sits(Leader, 1, LOG1, 0, map[], {}, w) && t == Sits(Follower, 1, [EMPTY_ENTRY], 0, map[], {}, w)
    requires s' == Sits(Leader, 1, LOG1, 1, map[2 := 1], {}, w)
    ensures PairRuns.Follows(s, t) && Commits(s, 2) && Committed(s, 2) == s'
    ensures Following(s, t) == Sits(Follower, 1, LOG1, 0, map[], {}, w)
    ensures PairRuns.Follows(s', Following(s, t))
    ensures Following(s', Following(s, t)) == Sits(Follower, 1, LOG1, 1, map[], {}, w)
  {
    LogsAreRooted();
    assert LOG1[0 + 1..] == [L1] && LOG1[0 + 1..1 + 1] == [L1];
    OneEntry(w, L1, 0);
  }

  /** A committed LOCK of event 7 at the end of the log. */
  predicate LockAtEnd(s: Look, k: nat, tag: Tag) {
    && s.role == Leader && s.commitIndex == k && |s.log| == k + 1 && tag.kind == Lock && IsExcluder(s.workflow)
    && s.log[k].tag == tag && s.log[k].index == k && s.log[k].event == 7
    && forall i | 0 <= i < k :: s.log[i].tag != tag
  }

  lemma {:induction false} TagAtEnd(log: seq<Entry>, k: nat, tag: Tag)
    requires |log| == k + 1 && log[k].tag == tag && forall i | 0 <= i < k :: log[i].tag != tag
    ensures TagExists(log, tag) && IndexOfTag(log, tag) == log[k].index
  {
    if k > 0 {
      TagAtEnd(log[1..], k - 1, tag);
    }
  }

  lemma EightAnswers(s: Look, k: nat, tag: Tag, a: Uid, s': Look)
    requires LockAtEnd(s, k, tag) && s.lockedEvents == {} && s' == s.(lockedEvents := {8})
    ensures Counts(TWO, s, tag, k) && s' == Counted(TWO, a, s, 8, tag)
  {
    TagAtEnd(s.log, k, tag);
    ExcluderLocks(s.workflow);
  }

  lemma NineAnswers(s: Look, k: nat, tag: Tag, a: Uid, e: Entry, s': Look)
    requires LockAtEnd(s, k, tag) && s.lockedEvents == {8} && e == Entry(k + 1, s.term, 7, a, Tag(tag.uid, Exec))
    requires s' == s.(log := s.log + [e], lockedEvents := {})
    ensures Counts(TWO, s, tag, k) && s' == Counted(TWO, a, s, 9, tag)
  {
    TagAtEnd(s.log, k, tag);
    ExcluderLocks(s.workflow);
  }

  /** Both commit the LOCK. */
  lemma ReachFirstLocked(c: Cluster, w: Workflow, s: Look, t: Look)
    requires s == Sits(Leader, 1, LOG1, 0, map[], {}, w) && t == Sits(Follower, 1, [EMPTY_ENTRY], 0, map[], {}, w)
    requires CanShow(TWO, STALE_LOCKS, c, 1, s, 2, t)
    ensures CanShow(TWO, STALE_LOCKS, c, 1, Sits(Leader, 1, LOG1, 1, map[2 := 1], {}, w), 2,
                    Sits(Follower, 1, LOG1, 1, map[], {}, w))
  {
    var s1, t1 := Sits(Leader, 1, LOG1, 1, map[2 := 1], {}, w), Sits(Follower, 1, LOG1, 0, map[], {}, w);
    TwoIsPair();
    FirstLockCommits(w, s, t, s1);
    ShowCommit(TWO, STALE_LOCKS, c, 1, s, 2, t, s1, t1);
    ShowFollowing(TWO, STALE_LOCKS, c, 1, s1, 2, t1, Sits(Follower, 1, LOG1, 1, map[], {}, w));
  }

  /** Cluster 8 has answered peer 1 when peer 2 takes over. */
  lemma ReachTakeover(c: Cluster, w: Workflow, s: Look, t: Look)
    requires s == Sits(Leader, 1, LOG1, 1, map[2 := 1], {}, w) && t == Sits(Follower, 1, LOG1, 1, map[], {}, w)
    requires CanShow(TWO, STALE_LOCKS, c, 1, s, 2, t) && IsExcluder(w)
    ensures CanShow(TWO, STALE_LOCKS, c, 2, Sits(Leader, 2, LOG1, 1, map[], {}, w), 1,
                    Sits(Follower, 2, LOG1, 1, map[2 := 1], {8}, w))
  {
    var s1 := Sits(Leader, 1, LOG1, 1, map[2 := 1], {8}, w);
    TwoIsPair();
    EightAnswers(s, 1, Tag(50, Lock), 1, s1);
    ShowAnswer(TWO, STALE_LOCKS, c, 1, s, 2, t, 8, Tag(50, Lock), 1, s1);
    OtherWayRound(TWO, STALE_LOCKS, c, 1, s1, 2, t);
    NoCheckpoints();
    ShowElection(TWO, STALE_LOCKS, c, 2, t, 1, s1, Sits(Leader, 2, LOG1, 1, map[], {}, w),
                 Sits(Follower, 2, LOG1, 1, map[2 := 1], {8}, w));
  }

  lemma NoCheckpoints()
    ensures LatestCheckpoint(LOG1) == 0 && LatestCheckpoint(LOG2) == 0
  {
    assert LatestCheckpoint([EMPTY_ENTRY]) == 0;
    assert LOG1[..1] == [EMPTY_ENTRY] && LOG1[1].tag.kind == Lock;
    assert LatestCheckpoint(LOG1) == 0;
    assert LOG2[..2] == LOG1 && LOG2[2].tag.kind == Exec;
  }

  /** Peer 2 collects both answers and executes. */
  lemma ReachAnswers(c: Cluster, w: Workflow, t: Look, s: Look)
    requires t == Sits(Leader, 2, LOG1, 1, map[], {}, w) && s == Sits(Follower, 2, LOG1, 1, map[2 := 1], {8}, w)
    requires CanShow(TWO, STALE_LOCKS, c, 2, t, 1, s) && IsExcluder(w)
    ensures CanShow(TWO, STALE_LOCKS, c, 2, Sits(Leader, 2, LOG2, 1, map[], {}, w), 1, s)
  {
    var t1, t2 := Sits(Leader, 2, LOG1, 1, map[], {8}, w), Sits(Leader, 2, LOG2, 1, map[], {}, w);
    var tag := Tag(50, Lock);
    TwoIsPair();
    EightAnswers(t, 1, tag, 2, t1);
    ShowAnswer(TWO, STALE_LOCKS, c, 2, t, 1, s, 8, tag, 1, t1);
    assert LOG1 + [X2] == LOG2;
    NineAnswers(t1, 1, tag, 2, X2, t2);
    ShowAnswer(TWO, STALE_LOCKS, c, 2, t1, 1, s, 9, tag, 1, t2);
  }

  lemma ExecutionCommits(w: Workflow, w1: Workflow, t: Look, s: Look, t': Look)
    requires t == Sits(Leader, 2, LOG2, 1, map[], {}, w) && s == Sits(Follower, 2, LOG1, 1, map[2 := 1], {8}, w)
    requires t' == Sits(Leader, 2, LOG2, 2, map[1 := 2], {}, w1) && w1 == Execute(w, 7)
    ensures PairRuns.Follows(t, s) && Commits(t, 1) && Committed(t, 1) == t'
    ensures Following(t, s) == Sits(Follower, 2, LOG2, 1, map[2 := 1], {8}, w)
    ensures PairRuns.Follows(t', Following(t, s))
    ensures Following(t', Following(t, s)) == Sits(Follower, 2, LOG2, 2, map[2 := 1], {8}, w1)
  {
    LogsAreRooted();
    assert LOG2[1 + 1..] == [X2] && LOG2[1 + 1..2 + 1] == [X2];
    OneEntry(w, X2, 0);
  }

  /** Both commit the execution. */
  lemma ReachExecution(c: Cluster, w: Workflow, w1: Workflow, t: Look, s: Look)
    requires t == Sits(Leader, 2, LOG2, 1, map[], {}, w) && s == Sits(Follower, 2, LOG1, 1, map[2 := 1], {8}, w)
    requires CanShow(TWO, STALE_LOCKS, c, 2, t, 1, s) && w1 == Execute(w, 7)
    ensures CanShow(TWO, STALE_LOCKS, c, 1, Sits(Follower, 2, LOG2, 2, map[2 := 1], {8}, w1), 2,
                    Sits(Leader, 2, LOG2, 2, map[1 := 2], {}, w1))
  {
    var t1, s1 := Sits(Leader, 2, LOG2, 2, map[1 := 2], {}, w1), Sits(Follower, 2, LOG2, 1, map[2 := 1], {8}, w);
    var s2 := Sits(Follower, 2, LOG2, 2, map[2 := 1], {8}, w1);
    TwoIsPair();
    ExecutionCommits(w, w1, t, s, t1);
    ShowCommit(TWO, STALE_LOCKS, c, 2, t, 1, s, t1, s1);
    ShowFollowing(TWO, STALE_LOCKS, c, 2, t1, 1, s1, s2);
    OtherWayRound(TWO, STALE_LOCKS, c, 2, t1, 1, s2);
  }

  /** Peer 1 leads again, still holding the lock of event 8. */
  lemma ReachSecondReign(c: Cluster, w1: Workflow, s: Look, t: Look)
    requires s == Sits(Follower, 2, LOG2, 2, map[2 := 1], {8}, w1) && t == Sits(Leader, 2, LOG2, 2, map[1 := 2], {}, w1)
    requires CanShow(TWO, STALE_LOCKS, c, 1, s, 2, t)
    ensures CanShow(TWO, STALE_LOCKS, c, 1, Sits(Leader, 3, LOG2, 2, map[2 := 1], {8}, w1), 2,
                    Sits(Follower, 3, LOG2, 2, map[1 := 2], {}, w1))
  {
    TwoIsPair();
    NoCheckpoints();
    ShowElection(TWO, STALE_LOCKS, c, 1, s, 2, t, Sits(Leader, 3, LOG2, 2, map[2 := 1], {8}, w1),
                 Sits(Follower, 3, LOG2, 2, map[1 := 2], {}, w1));
  }

  /** It is asked to lock event 7 again. */
  lemma ReachSecondLock(c: Cluster, w1: Workflow, s: Look, t: Look)
    requires s == Sits(Leader, 3, LOG2, 2, map[2 := 1], {8}, w1) && CanShow(TWO, STALE_LOCKS, c, 1, s, 2, t) && IsExcluder(w1)
    ensures CanShow(TWO, STALE_LOCKS, c, 1, Sits(Leader, 3, LOG3, 2, map[2 := 1], {8}, w1), 2, t)
  {
    TwoIsPair();
    ExcluderLocks(w1);
    ExcluderIsEnabled(w1);
    assert LOG2 + [L3] == LOG3;
    FirstLockIsResolved();
    ShowRequest(TWO, STALE_LOCKS, c, 1, s, 2, t, CommandReq(1, Tag(60, Lock), 7), L3,
                Sits(Leader, 3, LOG3, 2, map[2 := 1], {8}, w1));
  }

  lemma FirstLockIsResolved()
    ensures !HasOpenLock(LOG2, 2, 0) && !TagExists(LOG2, Tag(60, Lock))
  {
    assert LOG2[2].event == LOG2[1].event;
  }

  lemma SecondLockCommits(w: Workflow, s: Look, t: Look, s': Look)
    requires s == Sits(Leader, 3, LOG3, 2, map[2 := 1], {8}, w) && t == Sits(Follower, 3, LOG2, 2, map[1 := 2], {}, w)
    requires s' == Sits(Leader, 3, LOG3, 3, map[2 := 3], {8}, w)
    ensures PairRuns.Follows(s, t) && Commits(s, 2) && Committed(s, 2) == s'
  {
    LogsAreRooted();
    assert LOG3[2 + 1..] == [L3];
    OneEntry(w, L3, 0);
  }

  /** The LOCK is committed. */
  lemma ReachSecondLocked(c: Cluster, w: Workflow, s: Look, t: Look) returns (t': Look)
    requires s == Sits(Leader, 3, LOG3, 2, map[2 := 1], {8}, w) && t == Sits(Follower, 3, LOG2, 2, map[1 := 2], {}, w)
    requires CanShow(TWO, STALE_LOCKS, c, 1, s, 2, t)
    ensures CanShow(TWO, STALE_LOCKS, c, 1, Sits(Leader, 3, LOG3, 3, map[2 := 3], {8}, w), 2, t')
  {
    var s1 := Sits(Leader, 3, LOG3, 3, map[2 := 3], {8}, w);
    TwoIsPair();
    SecondLockCommits(w, s, t, s1);
    t' := Following(s, t);
    ShowCommit(TWO, STALE_LOCKS, c, 1, s, 2, t, s1, t');
  }

  /** Cluster 9 answers, and peer 1 executes. */
  lemma ReachEarlyExecution(c: Cluster, w: Workflow, s: Look, t: Look, s': Look)
    requires s == Sits(Leader, 3, LOG3, 3, map[2 := 3], {8}, w) && s' == Sits(Leader, 3, LOG4, 3, map[2 := 3], {}, w)
    requires CanShow(TWO, STALE_LOCKS, c, 1, s, 2, t) && IsExcluder(w)
    ensures CanShow(TWO, STALE_LOCKS, c, 1, s', 2, t)
  {
    TwoIsPair();
    assert LOG3 + [X4] == LOG4;
    NineAnswers(s, 3, Tag(60, Lock), 1, X4, s');
    ShowAnswer(TWO, STALE_LOCKS, c, 1, s, 2, t, 9, Tag(60, Lock), 3, s');
  }

  /** Until peer 1 has won its second reign: it holds the lock of event 8, and nothing of its own is locked. */
  lemma ReachStrayLock(c: Cluster) returns (c1: Cluster)
    requires c == Start(TWO)
    ensures Init(TWO, c) && CanReach(TWO, STALE_LOCKS, c, c1) && 1 in c1.peers && !LocksBelong(c1.peers[1])
    ensures CanShow(TWO, STALE_LOCKS, c1, 1, Sits(Leader, 3, LOG2, 2, map[2 := 1], {8}, Execute(EXCLUDER, 7)),
                    2, Sits(Follower, 3, LOG2, 2, map[1 := 2], {}, Execute(EXCLUDER, 7)))
  {
    var w, w1 := EXCLUDER, Execute(EXCLUDER, 7);
    ReachFirstReign(c, w, [EMPTY_ENTRY]);
    ReachFirstLock(c, w, Sits(Leader, 1, [EMPTY_ENTRY], 0, map[], {}, w), Sits(Follower, 1, [EMPTY_ENTRY], 0, map[], {}, w));
    ReachFirstLocked(c, w, Sits(Leader, 1, LOG1, 0, map[], {}, w), Sits(Follower, 1, [EMPTY_ENTRY], 0, map[], {}, w));
    ReachTakeover(c, w, Sits(Leader, 1, LOG1, 1, map[2 := 1], {}, w), Sits(Follower, 1, LOG1, 1, map[], {}, w));
    ReachAnswers(c, w, Sits(Leader, 2, LOG1, 1, map[], {}, w), Sits(Follower, 2, LOG1, 1, map[2 := 1], {8}, w));
    ReachExecution(c, w, w1, Sits(Leader, 2, LOG2, 1, map[], {}, w), Sits(Follower, 2, LOG1, 1, map[2 := 1], {8}, w));
    ReachSecondReign(c, w1, Sits(Follower, 2, LOG2, 2, map[2 := 1], {8}, w1), Sits(Leader, 2, LOG2, 2, map[1 := 2], {}, w1));
    c1 := ShownStray(c, Sits(Leader, 3, LOG2, 2, map[2 := 1], {8}, w1), Sits(Follower, 3, LOG2, 2, map[1 := 2], {}, w1));
  }

  lemma ShownStray(c: Cluster, s: Look, t: Look) returns (c1: Cluster)
    requires CanShow(TWO, STALE_LOCKS, c, 1, s, 2, t) && s.role == Leader && s.log == LOG2 && s.lockedEvents == {8}
    ensures CanReach(TWO, STALE_LOCKS, c, c1) && 1 in c1.peers && !LocksBelong(c1.peers[1])
    ensures CanShow(TWO, STALE_LOCKS, c1, 1, s, 2, t)
  {
    c1 :| CanReach(TWO, STALE_LOCKS, c, c1) && Shows(TWO, c1, 1, s, 2, t);
    ReachSelf(TWO, STALE_LOCKS, c1);
    NothingOfItsOwn(c1.peers[1]);
  }

  lemma NothingOfItsOwn(p: PeerState)
    requires p.log == LOG2 && p.clusterEvent == 7
    ensures !exists t :: LockRuns.HasOwnLock(p, t)
  {
    FirstLockIsResolved();
    forall t, k | 0 <= k < |p.log| ensures !OwnOpenLock(p.log, 7, t, |p.log|, k) {
      assert !OpenLockAt(LOG2, 2, k);
    }
  }

  /** From there until it executes. */
  lemma ReachEnd(c: Cluster) returns (c': Cluster)
    requires CanShow(TWO, STALE_LOCKS, c, 1, Sits(Leader, 3, LOG2, 2, map[2 := 1], {8}, Execute(EXCLUDER, 7)),
                     2, Sits(Follower, 3, LOG2, 2, map[1 := 2], {}, Execute(EXCLUDER, 7)))
    ensures CanReach(TWO, STALE_LOCKS, c, c') && 1 in c'.peers && c'.peers[1].log == LOG4
  {
    var w1 := Execute(EXCLUDER, 7);
    ReachSecondLock(c, w1, Sits(Leader, 3, LOG2, 2, map[2 := 1], {8}, w1), Sits(Follower, 3, LOG2, 2, map[1 := 2], {}, w1));
    var t := ReachSecondLocked(c, w1, Sits(Leader, 3, LOG3, 2, map[2 := 1], {8}, w1), Sits(Follower, 3, LOG2, 2, map[1 := 2], {}, w1));
    var s := Sits(Leader, 3, LOG4, 3, map[2 := 3], {}, w1);
    ReachEarlyExecution(c, w1, Sits(Leader, 3, LOG3, 3, map[2 := 3], {8}, w1), t, s);
    c' :| CanReach(TWO, STALE_LOCKS, c, c') && Shows(TWO, c', 1, s, 2, t);
  }

  /** Only cluster 8 answers for event 8, and it stays silent. */
  lemma EightNeverAnswered(states: seq<Cluster>, steps: seq<Step>)
    requires IsRunUnder(TWO, STALE_LOCKS, states, steps)
    ensures 8 !in LockRuns.Answered(TWO, steps, |steps|, 1, Tag(60, Lock))
  {
    forall j | 0 <= j < |steps| && LockRuns.Answers(steps[j], 1, Tag(60, Lock)) ensures EventIn(PEER_EVENTS,
                                                                                                steps[j].rsp.source) != 8 {
      assert FollowsAt(TWO, STALE_LOCKS, Path(states, steps), j);
    }
  }

  /** A run that respects P5 and P6 is one the lock theorems speak of, with no scope. */
  lemma RunUnderIsOrderly(cfg: Config, rules: Rules, states: seq<Cluster>, steps: seq<Step>)
    requires IsRunUnder(cfg, rules, states, steps) && rules.p5 && rules.p6
    ensures LockRuns.IsOrderlyRun(cfg, states, steps, LockRuns.NO_EVENTS)
  {
    RunUnderIsDefined(cfg, rules, states, steps);
    forall i | 0 <= i < |steps| ensures LockRuns.StepIsOrderly(states[i], steps[i], LockRuns.NO_EVENTS) {
      assert FollowsAt(cfg, rules, Path(states, steps), i);
    }
  }

  /** Lock-then-execute needs its part of P3: in a cluster of two, a run that respects everything else ends
      with a leader that has executed its event for a LOCK about which one of the two clusters to be locked
      has not answered. It breaks the condition of `LocksBelongIff`: at moment k the leader has just won with
      a lock of its first reign and no open LOCK of its own. */
  lemma StaleLocksExecuteEarly() returns (states: seq<Cluster>, steps: seq<Step>, k: nat)
    ensures IsRunUnder(TWO, STALE_LOCKS, states, steps)
    ensures LockRuns.IsOrderlyRun(TWO, states, steps, LockRuns.NO_EVENTS)
    ensures 1 in states[|steps|].peers && states[|steps|].peers[1].log == [EMPTY_ENTRY, L1, X2, L3, X4]
    ensures LockSet(TWO.workflow, TWO.clusterEvent) == {8, 9}
    ensures 8 !in LockRuns.Answered(TWO, steps, |steps|, 1, Tag(60, Lock))
    ensures k < |states| && 1 in states[k].peers && !LocksBelong(states[k].peers[1])
    ensures exists j | 0 <= j < |steps| :: !WinsWithoutStrayLocks(states[j], steps[j])
  {
    var c := Start(TWO);
    TwoIsPair();
    var c1 := ReachStrayLock(c);
    var c2 := ReachEnd(c1);
    states, steps, k := ReachedThrough(TWO, STALE_LOCKS, c, c1, c2);
    RunUnderIsOrderly(TWO, STALE_LOCKS, states, steps);
    EightNeverAnswered(states, steps);
    ExcluderLocks(EXCLUDER);
    LocksBelongIff(TWO, states, steps);
  }
}

# A Dafny model of sgx-win

sgx-win executes DCR workflows (dynamic condition response graphs) among parties that do not trust each
other. Every event of a workflow belongs to a cluster of SGX enclaves. The peers of one cluster replicate a
log with a protocol derived from Raft; clusters lock each other's events through entries of that log before
an event is executed. This project models the three parts that carry the design and proves what each of
them promises:

* **the workflow engine** (`enclave/dcr.cpp`): markings, enabledness, lock and inform sets, and the flat form
  a workflow is shipped in;
* **the replicated log** (`enclave/enclave.cpp`, `enclave/raft.cpp`, `enclave/raft.h`): elections, appends with
  truncation, catching up, the commit rule and the application of committed entries;
* **locks and checkpoints in the log**: the scans that look for open locks, lock collection, and execution.

## How it is built

| files | content |
|---|---|
| `uids.dfy`, `workflow.dfy` | ids in their order; the workflow as a value, with the meaning of executing and testing an event |
| `dcr_theorems.dfy`, `dcr_exactness.dfy`, `flatten.dfy` | what holds of every workflow and every execution sequence; that lock and inform sets are exact; the flat form and the round trip |
| `dcr_workflow.dfy` | the class `dcr_workflow` with its maps and loops, proved against `workflow.dfy` and `flatten.dfy` |
| `commit_rule.dfy`, `peer_spec.dfy` | the majority index; each handler as a function from the state before to the state after and the packets sent |
| `peer.dfy`, `configuration.dfy` | the class `peer` with the handlers and scans as they are in the source, proved against `peer_spec.dfy`; what configuring every peer from the same lists makes of a cluster |
| `cluster.dfy` | a cluster of any size as a step relation over peers and message queues |
| `cluster_invariant.dfy`, `leader_completeness.dfy`, `cluster_frame.dfy`, `cluster_steps.dfy`, `cluster_election.dfy`, `cluster_replication.dfy`, `cluster_next.dfy` | the inductive invariant, over history variables, and why every step keeps it: a part about elections and logs, and a part about commitment |
| `cluster_safety.dfy`, `sending.dfy` | theorems over all runs of a cluster: elections and logs under P1 and P2, commitment under P1 to P4 |
| `announcements.dfy` | who is told what: appends reach every member, requests are answered |
| `paths.dfy`, `catch_up.dfy`, `progress.dfy` | what a run can be continued to, by steps that respect chosen hypotheses: catching up, stepping down, winning an election; what a report makes a leader commit |
| `votes.dfy`, `vote_rule.dfy` | one vote per term, for one peer and any calls; exactly when it is given |
| `locks.dfy`, `lock_runs.dfy`, `lock_scans.dfy` | disciplined logs; the lock protocol over all runs of a cluster; what its scans find up to the commit index |
| `command_runs.dfy`, `lock_progress.dfy` | exactly when a command is logged and where executions come from; that a leader executes, and writes checkpoints, as soon as it can |
| `reelection.dfy` | why P3 holds where no peer leads twice, and what a second reign does to collected locks |
| `early_execution.dfy`, `hypotheses.dfy` | single peers where a hypothesis fails: exactly when it matters |
| `five_runs.dfy`, `stale_indices.dfy`, `few_reports.dfy`, `pair_runs.dfy`, `lock_failures.dfy` | whole runs, from the initial state, in which one hypothesis fails and a theorem with it |
| `replica_view.dfy` | the log and the workflow engine together |

A theorem "over all runs" quantifies over every configuration, every sequence of steps (timers, won polls,
terms learned, commands, lock answers, deliveries and losses of messages), every moment, and every peer.
A read outside a vector is undefined behaviour in the source. There are two kinds of runs:

* `Clusters.IsDefinedRun`: runs of which P1 and P2 are assumed and nothing else, as far as every read stays
  inside its vector. Election safety, log matching, what appends copy, catching up and all lock theorems are
  stated over these;
* `Clusters.IsRun`: runs under P1 to P4, in which any state may follow a read outside a vector;
  `ClusterSafety.ReadsStayInside` shows that none happens, so that every such run is of the first kind
  (`ClusterSafety.RunIsDefined`). What is committed, and what the workflow is, is stated over these.

## What the environment must provide

The code does not enforce everything the protocol needs. The theorems name what they assume:

* **P1** each link is first-in first-out and delivers a message at most once; it may lose any message
  (`Clusters.Take`; detached sender threads do not guarantee it, `sgx_daemon/daemon.cpp:49-63`);
* **P2** a response is delivered only while its requester is still in the term of the request
  (`Clusters.P2ResponseInTerm`);
* **P3** a peer that wins an election has no follower indices left from an earlier reign
  (`Clusters.P3FreshIndices`), and no collected locks of the events in a given scope (`LockRuns.P3NoLocks`);
  `Reelections.LeadingOnceMeetsP3` and `Reelections.LeadingOnceIsOrderly` show that both hold of every run in
  which no peer leads twice, and each lock theorem names the scope it needs (most need the empty one);
* **P4** at a commit on the reports of k followers, k/2 + 1 >= (cluster size - 1) / 2
  (`Clusters.P4EnoughReports`), so that those who have the entry meet every majority
  (`CommitRule.ElectionsMeetIffEnoughReports`); it always holds for clusters of up to four;
* **P5** other clusters send LOCK and EXEC requests, name their own event in EXEC requests, and answer only
  the lock requests they were sent (`Locks.P5Honest`); one theorem also uses that such a request leaves
  only when its LOCK is committed (`LockScans.AnswersFollowCommits`);
* **P6** no LOCK is in flight, appended and not committed, when a leader appends a LOCK or its timer a
  CHECKPOINT, and nothing that would resolve an own LOCK is in flight when it counts a lock answer
  (`Locks.P6Settled`; heartbeats and all other steps are free); `LockRuns.AloneIsCommitted` shows that a
  cluster of one always meets it;
* **P7** terms and indexes do not wrap, delivered messages are authentic, ids are not empty, and
  configuration happens once.

P1 and P2 are conditions on the steps of every run of a cluster. P3 on indices and P4 are assumed for
commitment only; P3 on locks, P5 and P6 by `lock_runs.dfy`, `lock_scans.dfy`, `command_runs.dfy`,
`lock_progress.dfy` and `reelection.dfy` only, which need neither P3 on indices nor P4. `votes.dfy` assumes none of them, except that for votes, not for
terms, sources have non-empty ids.

## Where the code falls short of its purpose

Each item names the lemma that says exactly when, and the run or input that shows the damage where it needs
more than one call.

* The indices of an earlier reign count towards a commit. The rule picks an index that enough peers have, for
  every map of k reports, s of them stale, exactly under the bound of `CommitRule.ElectionsMeetIffFreshReports`
  (for a majority, of `CommitRule.MajorityIffFreshReports`); without P3,
  `StaleIndices.StaleIndicesBreakSafety` is a run of five peers, from the initial state, after which two
  peers have committed different entries.
* The element at (k-1)/2 of k reports is on a majority only if k is large enough for the cluster:
  `CommitRule.MajorityIffEnoughReports`; safety needs it on half of the cluster only, which has a bound of its
  own: `CommitRule.ElectionsMeetIffEnoughReports`. Without P4, `FewReports.FewReportsBreakSafety` is a run of
  five peers that respects everything else, after which two leaders have committed different entries.
* The locks of an earlier reign count towards an execution: `EarlyExecution.LocksThenExecutesIff`. Over whole
  runs, `Reelections.LocksBelongIff` says exactly when leaders hold locks that belong to no request of theirs, and
  `LockFailures.StaleLocksExecuteEarly` is a run that breaks its condition and in which an event is executed
  although a cluster it locks was never heard of.
* The checkpoint timer looks for open locks in the committed part of the log only. With a LOCK in flight it
  appends a CHECKPOINT behind it, and later scans start there: `Locks.CheckpointTimerIff`; a CHECKPOINT
  carries the cluster's own event, so it even counts as resolving a LOCK of that event:
  `Locks.OpenBehindCheckpoint`. `LockFailures.CheckpointForgetsLock` is a run that ends with two LOCKs committed
  and open.
* A lock request for the own event with an empty lock set is logged with an EXEC tag after the check for
  duplicates, which looks for its LOCK tag; when the request arrives twice, the event is executed twice:
  `Locks.AppendedTwiceIff`, with the instance `Locks.ExecutedTwice`, and `LockRuns.AppendedAgainIff` for later
  moments of a run and other leaders.
* Votes are counted by message, not by voter, and without regard to the term they were given in:
  `Hypotheses.GrantsCountByMessage`.
* A follower truncates to the end of any append it accepts, also of one older than what it acknowledged. What
  it had committed survives exactly under the condition of `Hypotheses.CommittedSurvivesIff`; any prefix,
  under that of `Hypotheses.AcceptedAppendKeepsIff`.
* A vote for the empty id leaves no trace: `Votes.GrantedAgainIff`.

## Model

| member | source | states |
|---|---|---|
| `DcrWorkflows.DcrWorkflow.LookUp` | enclave/dcr.cpp:4 | reading `event_store[id]` gives a zeroed event for a missing id and leaves it behind |
| `DcrWorkflows.DcrWorkflow.IsEventEnabled` | enclave/dcr.cpp:3-20 | the two scans decide enabledness; no lookup can tell the store after from the one before, and for an event of a closed workflow the store does not change at all |
| `DcrWorkflows.DcrWorkflow.SetEventExecuted` | enclave/dcr.cpp:22-38 | the updates in place make the workflow what executing the event makes of its value |
| `DcrWorkflows.DcrWorkflow.GetLockSet` | enclave/dcr.cpp:40-60 | the loops collect the lock set: everything the event acts on and everything that depends on that |
| `DcrWorkflows.DcrWorkflow.GetInformSet` | enclave/dcr.cpp:62-73 | the lock set and what depends on the event itself |
| `DcrWorkflows.DcrWorkflow.CreateIntermediate` | enclave/dcr.cpp:75-198 | the loops over the event store write the flat form of the workflow |
| `DcrWorkflows.DcrWorkflow.FromIntermediate` | enclave/dcr.cpp:200-241 | the loops over the arrays build the workflow the flat form describes |
| `DcrTheorems.ExecutionIsDcr` | enclave/dcr.cpp:22-38 | execution computes the DCR semantics on sets: executed grows by the event, pending loses it and gains its responses, included loses its excludes and gains its includes, include winning |
| `DcrTheorems.EnabledIsDcr` | enclave/dcr.cpp:3-20 | an event is enabled exactly when it is included, its included conditions are executed and none of its included milestones is pending |
| `DcrTheorems.ExecutionIsIdempotent` | enclave/dcr.cpp:22-38 | executing an event twice in a row is executing it once |
| `DcrTheorems.LockSetSuffices` | enclave/dcr.cpp:40-60 | executing e disables no enabled event outside its lock set, even where e is a condition or milestone of that event |
| `DcrTheorems.InformSetSuffices` | enclave/dcr.cpp:62-73 | executing e changes enabledness, in either direction, of no event outside its inform set |
| `DcrExactness.LockSetIsExact` | enclave/dcr.cpp:40-60 | f is in the lock set of e exactly when, in some marking, executing e includes, excludes or makes pending f itself or a condition or milestone of f |
| `DcrExactness.InformSetIsExact` | enclave/dcr.cpp:62-73 | f is in the inform set of e exactly when, in some marking, executing e does that to f, or changes a condition or milestone of f in any way |
| `DcrTheorems.LocalViewAnswersGlobally` | enclave/dcr.cpp:62-73 | a replica that misses only events that need not inform g answers for g as a replica of the whole run, for every run |
| `DcrTheorems.InformedAnswersGlobally` | enclave/enclave.cpp:273-306 | what send_execution delivers is enough for a cluster to answer for its event as the whole run would |
| `DcrTheorems.IndependentRunIsLegal` | enclave/dcr.cpp:22-60 | enabled events with disjoint footprints stay enabled until their turn comes |
| `DcrTheorems.Serializability` | enclave/dcr.cpp:22-60 | every order of executing such events is legal at each step and ends in the same marking |
| `DcrTheorems.RepeatedExecutionCanBeDropped` | enclave/dcr.cpp:22-38 | in a replay, a repeated EXEC changes nothing if nothing in between writes to what it writes to |
| `Flattening.EventsReturnIff` | enclave/dcr.cpp:203-219 | events and flags come back from the flat form exactly when ids equal keys |
| `Flattening.ListReturnsIff` | enclave/dcr.cpp:221-238 | each outgoing list comes back exactly when its key is an event or it is empty |
| `Flattening.InversesAreRebuilt` | enclave/dcr.cpp:222-229 | each rebuilt inverse list names an event as often as the outgoing list of that event names its owner, whatever inverse maps the workflow came with |
| `Flattening.InversesReturn` | enclave/dcr.cpp:222-229 | inverse maps that counted right come back equal as multisets |
| `Flattening.RoundTripPreservesMeaning` | enclave/dcr.cpp:75-241 | flattening and rebuilding changes no marking, no enabledness, no lock set and no inform set of any execution sequence |
| `CommitRule.SortAscending` | enclave/raft.cpp:85 | sorting orders the reports and keeps each as often as it occurs |
| `CommitRule.MajorityIndexIsReached` | enclave/raft.cpp:79-89 | of k reporters at least k/2+1 reach the chosen index, and one of them reported it |
| `CommitRule.MajorityIndexIsHighest` | enclave/raft.cpp:79-89 | the chosen index is the highest that k/2+1 of k reporters reach |
| `CommitRule.MajorityIffEnoughReports` | enclave/raft.cpp:79-89 | leader and reporters that reach the chosen index are a majority for all reports exactly when k/2+1 >= cluster size / 2 |
| `CommitRule.ElectionsMeetIffEnoughReports` | enclave/raft.cpp:79-89 | leader and reporters that reach the chosen index meet every majority, and so every later election, for all reports exactly when k/2+1 >= (cluster size - 1) / 2 |
| `CommitRule.MajorityIffFreshReports` | enclave/raft.cpp:79-89 | with s of k reports left from an earlier reign, leader and fresh reporters that reach the chosen index are a majority for all maps and all choices of stale reports exactly when k/2+1 >= cluster size / 2 + s (or the cluster has one peer) |
| `CommitRule.ElectionsMeetIffFreshReports` | enclave/raft.cpp:79-89 | and they meet every majority exactly when k/2+1 >= (cluster size - 1) / 2 + s (or the cluster has at most two peers) |
| `Peers.Peer.CreatePeerToEventMap` | enclave/enclave_helpers.h:6-14 | the two lists become the map from peers to events, the last row of a peer counting; the own event is that of the own id, or the empty id |
| `Peers.Peer.FindClusterMembers` | enclave/enclave_helpers.h:26-33 | the peers of the own event in the order of their ids |
| `Peers.Peer.PickLeaders` | enclave/enclave_helpers.h:16-24 | the first leader of every event is the first of its peers |
| `Peers.Peer.Configure` | enclave/enclave.cpp:1003-1061 | a peer starts as follower in term 0 with the placeholder entry, the members, first leader and event of its cluster and the rebuilt workflow, and leads at once if it is alone |
| `Configurations.PeersAgreeOnTheirCluster` | enclave/enclave_helpers.h:6-33 | peers configured from the same lists agree on event, members and first leader of their cluster, which is the least member; members are distinct and each is one of them |
| `Configurations.LastRowCounts` | enclave/enclave_helpers.h:6-14 | of several rows for one peer the last one counts |
| `Peers.Peer.UpdateTerm` | enclave/raft.cpp:32-39 | a new term forgets the vote given and the votes counted |
| `Peers.Peer.TermAndIndexExistInLog` | enclave/raft.cpp:41-46 | decides whether the log has this term at this index, for indexes past its end too |
| `Peers.Peer.ExistInLog` | enclave/raft.cpp:54-62 | finds the first entry with the tag, or none |
| `Peers.Peer.RemoveElementsAfter` | enclave/raft.cpp:72-76 | keeps the log up to the index, or all of it if it is shorter |
| `Peers.Peer.LargestMajorityIndex` | enclave/raft.cpp:79-89 | collects, sorts and picks the index the commit rule is about |
| `Peers.Peer.LocksAquired` | enclave/raft.cpp:95-102 | true exactly when the lock set of the own event lies in the collected locks |
| `Peers.Peer.LockIsResolved` | enclave/raft.cpp:104-115 | true exactly for a non-LOCK, and for a LOCK with a later committed non-LOCK entry of its event |
| `Peers.Peer.HasUnresolvedLock` | enclave/raft.cpp:117-128 | true exactly when a LOCK between checkpoint and commit index is not resolved |
| `Peers.Peer.LockResolveIsCommitted` | enclave/raft.cpp:135-147 | true exactly for a LOCK with any later committed entry of its event |
| `Peers.Peer.FindLatestCheckpoint` | enclave/raft.cpp:149-156 | the last CHECKPOINT of the log |
| `Peers.Peer.VerifyOwnTerm` | enclave/enclave.cpp:27-33 | a higher term makes the peer a follower of that term |
| `Peers.Peer.BecomeLeader` | enclave/enclave.cpp:131-143 | a new leader scans from the last checkpoint; its indices stay |
| `Peers.Peer.StartElection` | enclave/enclave.cpp:148-170 | a candidate of the next term describes its last entry to every other member |
| `Peers.Peer.AppendToLog` | enclave/enclave.cpp:172-200 | the entry goes to the end of the log and to every other member, or is committed at once in a cluster of one |
| `Peers.Peer.UpdateCommitIndex` | enclave/enclave.cpp:351-417 | the EXEC entries between the old and the new index are executed in order, once each, by leaders and followers alike |
| `Peers.Peer.Heartbeat` | enclave/enclave.cpp:419-441 | every other member is told the last entry and the commit index |
| `Peers.Peer.RecvElectionReq` | enclave/enclave.cpp:826-853 | one grant per term, to a candidate whose log is not behind |
| `Peers.Peer.RecvElectionRsp` | enclave/enclave.cpp:855-875 | a majority of counted grants makes the candidate leader |
| `Peers.Peer.RecvAppendReq` | enclave/enclave.cpp:676-730 | refusal of lower terms, rejection of an unknown previous entry, else truncation, appending and committing |
| `Peers.Peer.RecvAppendRsp` | enclave/enclave.cpp:732-767 | a success is recorded and may commit, a rejection is answered from one entry earlier |
| `Peers.Peer.RecvCommandReq` | enclave/enclave.cpp:463-568 | duplicates, locked clusters and disabled own events are turned away; else one entry is appended; the event store may gain zeroed events, which no lookup tells from missing ones |
| `Peers.Peer.RecvCommandRsp` | enclave/enclave.cpp:570-668 | an answer for an open LOCK is collected; the last one missing makes the leader append the EXEC and forget the locks |
| `Peers.Peer.RetryRequests` | enclave/enclave.cpp:202-238 | a checkpoint is appended when nothing is missing, no lock is open and something was committed since the last one |
| `Peers.Peer.Timeout` | enclave/enclave.cpp:978-993 | leaders send heartbeats and retry, candidates stand again |
| `Peers.ApplyKeepsReferences` | enclave/enclave.cpp:353-363 | a workflow that is closed and has the own event stays so over every replay, so that testing the own event changes nothing at all |
| `LeaderCompleteness.UpToDateKeeps` | enclave/enclave.cpp:837-840 | a candidate that passes the up-to-date test has every entry its voter has kept |
| `LeaderCompleteness.CommittedSurvives` | enclave/enclave.cpp:743-748 | an entry that half of the cluster or more accepted in its term is in the log of every later reign |
| `ClusterNext.NextKeepsInv` | enclave/enclave.cpp:670-875 | under P1 to P4 every step stays inside its vectors and keeps the invariant of elections, logs, messages and commitment |
| `ClusterNext.DefinedNextKeepsInv` | enclave/enclave.cpp:670-875 | under P1 and P2 alone every step that stays inside its vectors keeps the part about elections, logs and messages |
| `ClusterSafety.ElectionSafety` | enclave/enclave.cpp:826-875 | under P1 and P2, at most one peer ever leads a term, at any two moments of a run |
| `ClusterSafety.LogMatchingAlways` | enclave/enclave.cpp:691-709 | under P1 and P2, logs with the same term at an index are identical up to it, at any two moments |
| `ClusterSafety.LeadersAreComplete` | enclave/enclave.cpp:826-853 | what any peer has committed in a term is in the log of every leader of a later term |
| `ClusterSafety.StateMachineSafety` | enclave/enclave.cpp:670-767 | two peers at two moments agree on everything both have committed |
| `ClusterSafety.CommittedNeverChanges` | enclave/enclave.cpp:705-716 | commit indexes only grow, and no append, truncation or change of leader alters an entry at or below one |
| `ClusterSafety.WorkflowIsReplay` | enclave/enclave.cpp:351-417 | a peer's workflow is the configured one with its committed EXEC entries applied in order, once each, across role changes |
| `ClusterSafety.ReplicasAgree` | enclave/enclave.cpp:351-417 | peers that committed equally much have the same workflow |
| `ClusterSafety.ReadsStayInside` | enclave/enclave.cpp:732-767 | no handler reads outside a vector in any run |
| `ClusterSafety.RunIsDefined` | enclave/enclave.cpp:732-767 | so what holds of runs under P1 and P2 whose reads stay inside their vectors holds of every run under P1 to P4 |
| `Sending.AppendsDescribeLogs` | enclave/enclave.cpp:184-194 | every append request in flight describes, to its end, a log its sender had as leader of the term of the request, with the commit index it had then |
| `Sending.AcceptedAppendCopiesTheLog` | enclave/enclave.cpp:691-730 | an accepted append leaves the follower's log equal to the log its sender had at a moment when it led the term of the append |
| `Announcements.EveryMemberIsTold` | enclave/enclave.cpp:172-200 | over runs, when a command, an answer or its timer lengthens the log of a leader, when its timer goes off, and when it wins, the link to every other member ends in an append that gives a follower which has the log of before the leader's log and commit index |
| `Announcements.RequestsAreAnswered` | enclave/enclave.cpp:38-57 | over runs, every delivered vote or append request puts one answer on the link back, with the peer's term and the verdict, unless the peer is a candidate or leader of just that term |
| `Announcements.LeaderRaisedTheTerm` | enclave/raft.cpp:32-39 | a peer takes for leader whoever raised its term last: the sender of the message, or itself as a candidate |
| `Progress.OutdatedIsRefused` | enclave/enclave.cpp:38-57 | a request of an earlier term changes nothing, and delivering its answer makes a sender still in that term a follower in the later one |
| `Progress.OutrunPeersStepDown` | enclave/enclave.cpp:27-57 | every run under P1 and P2 with a leader whose term has passed can be continued, by its timer and two deliveries under P1 to P6, until it is a follower in the later term with the log it had; so can one with a candidate two terms behind |
| `Progress.EveryCandidateCanWin` | enclave/enclave.cpp:978-987 | every run under P1 and P2 with a candidate can be continued, by its timer and deliveries, until it leads the next term, if peers enough for a majority are in no later term and not ahead of its log |
| `Progress.LeaderCommitsIff` | enclave/enclave.cpp:740-748 | over runs, the report of a follower makes a leader commit the highest index that more than half of its reporters reach, exactly if that entry is of its term and not committed yet |
| `CatchingUp.RoundAdvances` | enclave/enclave.cpp:749-766 | each rejection is answered from one entry earlier, and index 0 is never rejected |
| `CatchingUp.CatchUpTakes` | enclave/enclave.cpp:749-766 | catching up takes as many rejections as there are indexes down to the last match, fewer than the first rejected index |
| `CatchingUp.CatchUpEndsEqual` | enclave/enclave.cpp:691-730 | it ends with the log the leader had when it sent what was accepted, even if that log grows meanwhile |
| `CatchingUp.EveryFollowerCatchesUp` | enclave/enclave.cpp:749-766 | so it does in every state a cluster reaches under P1 and P2 |
| `CatchingUp.EveryRunCanCatchUp` | enclave/enclave.cpp:676-767 | whatever has happened under P1 and P2 and is in flight, every run with a leader and a follower of its term can be continued, by steps that respect P1 to P6, until the follower has the leader's log and has committed what the leader has, with no other peer changed; under P1 to P4 it then has the leader's workflow, if it was not ahead |
| `Votes.TermNeverDecreases` | enclave/raft.cpp:32-39 | over any calls with any contents a peer's term never decreases; while it stays the same, and sources are not the empty id, a vote that is gone stays gone |
| `Votes.AtMostOneVotePerTerm` | enclave/enclave.cpp:837-850 | over any calls with any contents from sources that are not the empty id, a peer casts at most one vote per term, counting the one for itself |
| `VoteRule.VotesExactlyWhen` | enclave/enclave.cpp:826-852 | over any life that starts without a vote, a request is granted exactly when it is not of an earlier term, its last entry is not behind, and the peer has cast no vote of that term before, not even for itself |
| `Votes.GrantedAgainIff` | enclave/enclave.cpp:837-850 | a granted request that arrives again is granted again exactly when its source is the empty id |
| `ReplicaViews.ReplicaAnswersGlobally` | enclave/enclave.cpp:351-363 | a peer configured over the flat form that has executed at least what informs its cluster answers for its event as the original workflow after the whole run |
| `Locks.OneOpenLock` | enclave/raft.cpp:117-128 | in a disciplined log at most one LOCK is open, up to whatever index one looks |
| `Locks.ResolveScansAgree` | enclave/raft.cpp:104-147 | on LOCK entries the two scans for a resolution agree, although only one skips LOCK entries |
| `Locks.CheckpointSeals` | enclave/raft.cpp:117-128 | every LOCK before a CHECKPOINT is resolved before it, so scanning from it finds an open lock exactly when scanning everything does |
| `Locks.OneExecPerLock` | enclave/enclave.cpp:648-665 | an own LOCK is followed by at most one own EXEC with its tag id |
| `Locks.CheckpointTimerIff` | enclave/enclave.cpp:224-236 | the timer's checkpoint seals the log exactly when every uncommitted LOCK of another event is resolved |
| `Locks.OpenBehindCheckpoint` | enclave/raft.cpp:104-115 | which LOCKs are still open once a checkpoint follows them |
| `LockFailures.CheckpointForgetsLock` | enclave/enclave.cpp:224-236 | for every workflow, a run of a cluster of three that respects all but P6 and ends with two LOCKs of different events committed and open in the leader's log |
| `Locks.AppendedTwiceIff` | enclave/enclave.cpp:490-567 | in a cluster of any size, a command that was appended is appended again when it arrives again exactly when it locks the own event and nothing has to be locked |
| `LockRuns.AppendedAgainIff` | enclave/enclave.cpp:490-567 | over runs, a command that any leader has appended and that arrives at a leader that has its entry, is not locked and finds the event enabled, is appended once more exactly when it locks the own event and nothing has to be locked |
| `Locks.ExecutedTwice` | enclave/enclave.cpp:490-567 | a cluster of one that executes its event twice for one request |
| `CommandRuns.OwnCommandsAreEnabled` | enclave/enclave.cpp:529-547 | under P1 and P2, in a workflow that has the own event and whose relations stay inside it, a command that makes a leader log an entry of that event finds it included, its included conditions executed and no included milestone pending |
| `CommandRuns.Origin` | enclave/enclave.cpp:172-173 | every entry of every log but the first was appended, at its place and behind the same entries, by a step of some peer's own |
| `CommandRuns.OwnExecutionsWereEnabled` | enclave/enclave.cpp:529-567 | every own EXEC of any log goes back to an entry of that log with its tag id, itself or an own LOCK before it, that a command made a leader append while the event was enabled |
| `CommandRuns.CommandIsLoggedIff` | enclave/enclave.cpp:463-567 | a command is logged exactly when a leader without its tag gets it and, if it asks for a lock, no committed LOCK is open and the own event, if asked for, is enabled; the entry is as requested, an EXEC if the own event has nothing to lock |
| `LockRuns.LocksHold` | enclave/enclave.cpp:463-668 | under P1, P2, P5 and P6 every log of a run is disciplined, and collected locks in the scope of P3 belong to answers about the open own LOCK |
| `LockRuns.LocksAreExclusive` | enclave/raft.cpp:104-147 | over all runs at most one LOCK of a log is open and the two scans agree |
| `LockScans.LogsAreSealed` | enclave/enclave.cpp:224-236 | over all runs every LOCK before a CHECKPOINT of a peer's log is resolved by what that peer has committed, however far behind its commit index is |
| `LockScans.CheckpointsSeal` | enclave/raft.cpp:117-156 | in every state of a run the scans to the commit index from a leader's checkpoint and from the one a new leader finds agree with a scan of everything committed |
| `LockScans.CheckpointsSealBeyond` | enclave/raft.cpp:117-156 | the same for scans that end anywhere from the commit index on, or from just before the checkpoint on |
| `LockProgress.CheckpointIsWrittenIff` | enclave/enclave.cpp:224-236 | a leader's timer writes a CHECKPOINT exactly when no response is missing, no committed LOCK is open and something behind its checkpoint is committed |
| `LockProgress.WinnersScanFromLatest` | enclave/enclave.cpp:131-143 | a peer that wins an election scans from the last CHECKPOINT of its log |
| `LockProgress.CommitNotesCheckpoint` | enclave/enclave.cpp:370-374 | a leader that commits further scans from the last CHECKPOINT among what it has just committed, if there is one |
| `LockRuns.NoLocksWithoutOwnLock` | enclave/enclave.cpp:648-665 | a leader holds collected locks of the scope only while a LOCK of its own event is open, and none at all if the scope is everything |
| `LockScans.NoLocksWithoutCommittedLock` | enclave/raft.cpp:117-128 | where answers are about committed LOCKs only, a leader whose scan from its checkpoint to its commit index finds no open LOCK of its own event holds no collected lock of the scope |
| `LockRuns.OneExecutionPerLock` | enclave/enclave.cpp:648-665 | over all runs at most one own EXEC is appended for an own LOCK |
| `LockRuns.ExecutesOnlyWhenAllAnswered` | enclave/enclave.cpp:627-665 | an own EXEC from lock collection is appended only after every event of the lock set has answered about that very LOCK, if no winner holds an old lock of the lock set |
| `LockProgress.ExecutesOnceAllAnswered` | enclave/enclave.cpp:627-665 | a leader with an open own LOCK that goes on leading has logged the EXEC for it once every event of the lock set has answered |
| `LockRuns.AloneIsCommitted` | enclave/enclave.cpp:175-178 | the only peer of a cluster leads and has committed its whole log in every reachable state |
| `LockRuns.AloneIsOrderly` | enclave/enclave.cpp:175-178 | for a cluster of one, P3 on locks and P6 hold of every run, so that the lock theorems need only honest requests and answers |
| `Reelections.OnlyLeadersCollect` | enclave/enclave.cpp:570-767 | no call of a peer that does not lead changes its follower indices or its collected locks, winning included |
| `Reelections.LeadingOnceMeetsP3` | enclave/enclave.cpp:131-143 | a run under P1, P2 and P4 in which no winner has led before meets P3 at every step |
| `Reelections.LeadingOnceIsOrderly` | enclave/enclave.cpp:131-143 | under P1, P2, P5 and P6 a run in which no winner has led before has no winner with old locks, so that every lock theorem holds of it |
| `Reelections.LocksBelongIff` | enclave/enclave.cpp:131-143 | over a whole run, leaders hold collected locks only for an open LOCK of their own event exactly when no peer wins with old locks and no such LOCK in its log |
| `EarlyExecution.LocksThenExecutesIff` | enclave/enclave.cpp:627-665 | whichever peers answer and in whatever order, a leader executes only after every locked event has answered exactly when none of the locks it still holds is in the lock set, or only one event can answer at all |
| `LockFailures.StaleLocksExecuteEarly` | enclave/enclave.cpp:131-143 | a run of a cluster of two that respects all but P3, at one moment of which a winner holds an old lock and no own LOCK is open, and which ends with an EXEC for a LOCK about which one of the two events to be locked has not answered |
| `Hypotheses.GrantsCountByMessage` | enclave/enclave.cpp:855-874 | n deliveries of one grant, also of an earlier term, elect a candidate exactly when n votes would |
| `Hypotheses.AcceptedAppendKeepsIff` | enclave/enclave.cpp:691-709 | an accepted append keeps the log up to any index exactly when it reaches beyond that index and agrees with the log up to there |
| `Hypotheses.CommittedSurvivesIff` | enclave/enclave.cpp:691-716 | a follower keeps everything it has committed, and its commit index does not fall, exactly when the append reaches beyond that index and agrees with the log up to there |
| `StaleIndices.StaleIndicesBreakSafety` | enclave/enclave.cpp:743-748 | for every workflow, a run of a cluster of five that respects all but P3 and ends with two peers that have committed different entries at one index |
| `FewReports.FewReportsBreakSafety` | enclave/enclave.cpp:743-748 | for every workflow, a run of a cluster of five that respects all but P4 and ends with two peers that have committed different entries at one index |

## Left out

- The ABORT path: it reads an entry that is never initialised and may index the log with -1.
- Refused locks: a refusal is not told from a grant, so nothing is claimed about contested runs across clusters.
- The entry reported by `lock_resolve_is_committed` and the reply that forwards it: the out parameter is passed by value, so only the boolean is modelled.
- `leader_map`, `missing_resp`, `locked_entry_index` and the command messages sent to other clusters: routing between clusters. Whether a response is missing is a parameter of the checkpoint timer.
- Poll messages: a won poll and a term learned from a poll are steps of the cluster; how polls are counted and when timers fire is not modelled, and nothing is claimed about progress.
- MAC computation and validation: delivered messages are authentic.
- Retry targets, random ids and clocks: parameters of the steps.
- Protobuf conversion, gRPC, the daemon, history collection, printing and test hooks.
- Wrap-around of 32-bit terms and indexes, except for the -1 a rejection reports.
- Empty lists that `operator[]` leaves in a relation map, and empty ids it leaves in the map from peers to events: no code can tell them from missing ones. The events it leaves in the event store are modelled.
- LockRuns.ExecutesOnlyWhenAllAnswered: says that every cluster has answered, not that it has granted the lock, because the code does not tell the two apart.
- LockRuns.NoLocksWithoutOwnLock: counts an own LOCK as open before it is committed, because P5 lets answers come early; `LockScans.NoLocksWithoutCommittedLock` is about the committed one. Both speak of leaders; a peer that stops leading keeps what it has collected, which is why P3 is needed.
- Peers.Peer.UpdateTerm: does not model that a new term also clears poll_votes and updates leader_map, because polls and routing are left out.
- Peers.Peer.VerifyOwnTerm: does not model the reset of locked_entry_index, which only the ABORT path reads, nor the checks of MAC and target that precede it.
- Peers.Peer.BecomeLeader: does not model locked_entry_index, which only the ABORT path reads, and the entry in leader_map.
- Peers.Peer.UpdateCommitIndex: does not model the lock requests and command responses a leader sends to other clusters on commit.
- Peers.Peer.RecvCommandRsp: does not model leader_map, missing_resp, the ABORT branch and the executions reported to other clusters.
- Peers.Peer.RetryRequests: does not model resending; whether a response is missing is a parameter.
- Peers.Peer.Timeout: does not model the poll a follower starts; a poll that is won is a step of the cluster.
- CatchingUp.EveryFollowerCatchesUp: follows one exchange with the leader's state fixed; `CatchingUp.EveryRunCanCatchUp` is the result about whole runs.
- Exactly which runs stay safe without P3 or P6: the exact conditions are stated for single calls and, over runs, for the locks leaders hold.
- ClusterSafety.ReadsStayInside: covers every vector the modelled calls read, and no other undefined behaviour: `append_to_log` puts the address of an expired temporary into the requests it sends (enclave.cpp:191), where the model has the entry itself; the ABORT path, which reads `log[locked_entry_index]`, is left out as a whole, and so is the scan a new leader makes for `locked_entry_index`, which reads up to the commit index.
- Peers.Peer.Configure: keeps of `leader_map` the leader of the own cluster only, and sets no timers.
- Peers.Peer.RecvCommandReq: does not model the responses sent to the requester.

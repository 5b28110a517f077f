/** The replicated log and the workflow engine together: what a peer of one cluster answers about its own
    event, against the execution of the whole distributed workflow. */
module ReplicaViews {
  import opened Uids
  import opened Workflows
  import opened PeerSpec
  import opened DcrTheorems
  import opened Flattening
  import opened Clusters
  import opened ClusterSafety

  /** The events of the EXEC entries, in order. */
  function ExecutedEvents(entries: seq<Entry>): seq<Uid> {
    if entries == [] then []
    else
      var before := ExecutedEvents(entries[..|entries| - 1]);
      var last := entries[|entries| - 1];
      if last.tag.kind == Exec then before + [last.event] else before
  }

  lemma {:induction false} ApplyRuns(w: Workflow, entries: seq<Entry>)
    ensures Apply(w, entries) == Run(w, ExecutedEvents(entries))
  {
    if entries != [] {
      ApplyRuns(w, entries[..|entries| - 1]);
      var before, event := ExecutedEvents(entries[..|entries| - 1]), entries[|entries| - 1].event;
      assert (before + [event])[..|before|] == before;
    }
  }

  /** What a peer has executed. */
  function ExecutedBy(states: seq<Cluster>, i: nat, p: Uid): seq<Uid>
    requires i < |states| && p in states[i].peers
    requires PeerAt(states, i, p).commitIndex < |PeerAt(states, i, p).log|
  {
    ExecutedEvents(PeerAt(states, i, p).log[..PeerAt(states, i, p).commitIndex + 1])
  }

  lemma ReplicaRuns(cfg: Config, states: seq<Cluster>, steps: seq<Step>, i: nat, p: Uid, executed: seq<Uid>)
    requires InRun(cfg, states, steps, i, p) && PeerAt(states, i, p).commitIndex < |PeerAt(states, i, p).log|
    requires executed == ExecutedBy(states, i, p)
    ensures PeerAt(states, i, p).workflow == Run(cfg.workflow, executed)
  {
    WorkflowIsReplay(cfg, states, steps, i, p);
    ApplyRuns(cfg.workflow, PeerAt(states, i, p).log[..PeerAt(states, i, p).commitIndex + 1]);
  }

  lemma RebuiltViewAnswers(w: Workflow, id: Uid, run: seq<Uid>, heard: seq<Uid>)
    requires Structured(w) && IsEvent(w, id) && AllEvents(w, run) && Hears(w, id, run, heard)
    ensures Enabled(Run(RoundTrip(w), heard), id) <==> Enabled(Run(w, run), id)
  {
    RoundTripPreservesMeaning(w, heard, id);
    LocalViewAnswersGlobally(w, id, run, heard);
  }

  /** A cluster is configured with the flattened workflow. If what a peer has executed is the run of the
      whole workflow, less events that need not inform its cluster, it answers for its event exactly as a
      replica of the whole original workflow would. */
  lemma ReplicaAnswersGlobally(cfg: Config, states: seq<Cluster>, steps: seq<Step>, i: nat, p: Uid, w: Workflow, run: seq<Uid>)
    requires InRun(cfg, states, steps, i, p) && PeerAt(states, i, p).commitIndex < |PeerAt(states, i, p).log|
    requires Structured(w) && cfg.workflow == RoundTrip(w) && IsEvent(w, cfg.clusterEvent) && AllEvents(w, run)
    requires Hears(w, cfg.clusterEvent, run, ExecutedBy(states, i, p))
    ensures Enabled(PeerAt(states, i, p).workflow, cfg.clusterEvent) <==> Enabled(Run(w, run), cfg.clusterEvent)
  {
    ReplicaRuns(cfg, states, steps, i, p, ExecutedBy(states, i, p));
    RebuiltViewAnswers(w, cfg.clusterEvent, run, ExecutedBy(states, i, p));
  }
}

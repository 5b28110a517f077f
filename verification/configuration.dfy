/** What configuring every peer from the same two lists makes of a cluster: the hypothesis `ValidConfig`
    of the cluster theorems, and peers that agree on it. */
module Configurations {
  import opened Uids
  import opened Workflows
  import opened PeerSpec
  import opened Clusters

  /** The cluster of the peer `id`, as that peer is told. */
  function ConfigOf(peers: seq<Uid>, events: seq<Uid>, id: Uid, w: Workflow): Config
    requires |peers| == |events|
  {
    var m := PeerEvents(peers, events);
    var e := EventIn(m, id);
    Config(ClusterMembers(m, e), e, m, FirstLeader(m, e), w)
  }

  lemma {:induction false} ListedPeers(peers: seq<Uid>, events: seq<Uid>)
    requires |peers| == |events|
    ensures PeerEvents(peers, events).Keys == Elements(peers)
  {
    if peers != [] {
      var n := |peers| - 1;
      ListedPeers(peers[..n], events[..n]);
      assert peers == peers[..n] + [peers[n]];
    }
  }

  /** Of several rows for one peer the last one counts. */
  lemma {:induction false} LastRowCounts(peers: seq<Uid>, events: seq<Uid>, k: nat)
    requires |peers| == |events| && k < |peers| && forall j | k < j < |peers| :: peers[j] != peers[k]
    ensures EventIn(PeerEvents(peers, events), peers[k]) == events[k]
  {
    var n := |peers| - 1;
    if k < n {
      LastRowCounts(peers[..n], events[..n], k);
    }
  }

  predicate Ascending(ids: seq<Uid>) {
    forall i, j | 0 <= i < j < |ids| :: ids[i] < ids[j]
  }

  lemma LastIsLargest(ids: seq<Uid>, k: nat, x: Uid)
    requires Ascending(ids) && ids != [] && k == |ids| - 1 && x in ids[..k]
    ensures x < ids[k]
  {
    var i :| 0 <= i < k && ids[..k][i] == x;
    assert ids[i] == x;
  }

  lemma {:induction false} PeersStayInOrder(ids: seq<Uid>, m: map<Uid, Uid>, e: Uid)
    requires Ascending(ids)
    ensures Ascending(PeersOf(ids, m, e))
  {
    if ids != [] {
      var front, last := ids[..|ids| - 1], ids[|ids| - 1];
      assert Ascending(front);
      PeersStayInOrder(front, m, e);
      var before := PeersOf(front, m, e);
      forall i | 0 <= i < |before| ensures before[i] < last {
        assert before[i] in before;
        LastIsLargest(ids, |ids| - 1, before[i]);
      }
      assert Ascending(before + [last]);
    }
  }

  lemma MembersInOrder(m: map<Uid, Uid>, e: Uid)
    ensures Ascending(ClusterMembers(m, e)) && forall x :: x in ClusterMembers(m, e) <==> x in m && m[x] == e
  {
    PeersStayInOrder(InOrder(m.Keys), m, e);
  }

  lemma FirstIsLeast(m: map<Uid, Uid>, e: Uid, q: Uid)
    requires q in ClusterMembers(m, e)
    ensures FirstLeader(m, e) in ClusterMembers(m, e) && FirstLeader(m, e) <= q
  {
    MembersInOrder(m, e);
    var members := ClusterMembers(m, e);
    var k :| 0 <= k < |members| && members[k] == q;
    assert members[0] in members;
  }

  /** Every listed peer is a member of its own cluster, all members are told the same cluster, its first
      leader is its least member, and the cluster is a valid one. */
  lemma PeersAgreeOnTheirCluster(peers: seq<Uid>, events: seq<Uid>, w: Workflow, p: Uid, q: Uid)
    requires |peers| == |events| && p in peers && EMPTY_UID !in peers
    ensures var cfg := ConfigOf(peers, events, p, w);
      && ValidConfig(cfg) && p in Members(cfg)
      && (q in Members(cfg) <==> q in peers && ConfigOf(peers, events, q, w) == cfg)
      && (q in Members(cfg) ==> cfg.firstLeader <= q) && cfg.firstLeader in Members(cfg)
  {
    var m := PeerEvents(peers, events);
    var e := EventIn(m, p);
    ListedPeers(peers, events);
    assert p in m && (q in m <==> q in peers);
    MembersInOrder(m, e);
    FirstIsLeast(m, e, p);
    if q in ClusterMembers(m, e) {
      FirstIsLeast(m, e, q);
    }
  }
}

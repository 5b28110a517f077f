/** The commit rule of `peer::largest_majority_index` (enclave/raft.cpp:79-89): the element at
    position (k-1)/2 of the k reported indices in ascending order. */
module CommitRule {
  import opened Uids

  predicate Ascending(s: seq<nat>) {
    forall i, j | 0 <= i < j < |s| :: s[i] <= s[j]
  }

  function Insert(x: nat, s: seq<nat>): (r: seq<nat>)
    requires Ascending(s)
    ensures |r| == |s| + 1 && (r[0] == x || (s != [] && r[0] == s[0]))
    ensures Ascending(r)
    ensures multiset(r) == multiset(s) + multiset{x}
  {
    if s == [] || x <= s[0] then [x] + s
    else
      assert s == [s[0]] + s[1..];
      [s[0]] + Insert(x, s[1..])
  }

  /** What `std::sort` promises: the same elements in ascending order. */
  function SortAscending(s: seq<nat>): (r: seq<nat>)
    ensures Ascending(r) && multiset(r) == multiset(s)
    ensures |r| == |s|
  {
    if s == [] then []
    else
      assert s == [s[0]] + s[1..];
      var r := Insert(s[0], SortAscending(s[1..]));
      assert |multiset(r)| == |multiset(s)|;
      r
  }

  /** The values of `indices`, in the order the map is iterated. */
  function Reports(indices: map<Uid, nat>): (s: seq<nat>)
    ensures |s| == |indices|
  {
    var keys := InOrder(indices.Keys);
    seq(|keys|, i requires 0 <= i < |keys| => assert keys[i] in keys; indices[keys[i]])
  }

  function MajorityIndex(indices: map<Uid, nat>): (n: nat)
    requires |indices| > 0
  {
    SortAscending(Reports(indices))[(|indices| - 1) / 2]
  }

  /** The followers whose reported index reaches n. */
  function Reaching(indices: map<Uid, nat>, n: nat): set<Uid> {
    set f | f in indices && indices[f] >= n
  }

  function ReachingAmong(indices: map<Uid, nat>, keys: seq<Uid>, n: nat): set<Uid> {
    set f | f in keys && f in indices && indices[f] >= n
  }

  predicate IsMajority(count: nat, clusterSize: nat) {
    count > clusterSize / 2
  }

  /** So many peers that every majority has one of them: at least half the cluster. */
  predicate MeetsMajorities(count: nat, clusterSize: nat) {
    2 * count >= clusterSize
  }

  /** That is what the number means. */
  lemma MeetsMajoritiesIff(count: nat, clusterSize: nat)
    ensures MeetsMajorities(count, clusterSize)
      <==> forall majority: nat | IsMajority(majority, clusterSize) :: count + majority > clusterSize
  {
    assert IsMajority(clusterSize / 2 + 1, clusterSize);
  }

  // ---- How many reports reach the chosen index

  function CountReaching(s: seq<nat>, n: nat): nat {
    if s == [] then 0 else (if s[0] >= n then 1 else 0) + CountReaching(s[1..], n)
  }

  lemma {:induction false} CountInsert(x: nat, s: seq<nat>, n: nat)
    requires Ascending(s)
    ensures CountReaching(Insert(x, s), n) == CountReaching(s, n) + if x >= n then 1 else 0
  {
    if s == [] || x <= s[0] {
      assert ([x] + s)[1..] == s;
    } else {
      CountInsert(x, s[1..], n);
      assert ([s[0]] + Insert(x, s[1..]))[1..] == Insert(x, s[1..]);
    }
  }

  lemma {:induction false} CountSorted(s: seq<nat>, n: nat)
    ensures CountReaching(SortAscending(s), n) == CountReaching(s, n)
  {
    if s != [] {
      CountSorted(s[1..], n);
      CountInsert(s[0], SortAscending(s[1..]), n);
    }
  }

  /** In an ascending sequence everything from position i on reaches the value at i. */
  lemma {:induction false} CountFrom(s: seq<nat>, i: nat)
    requires Ascending(s) && i < |s|
    ensures CountReaching(s, s[i]) >= |s| - i
  {
    if i > 0 {
      CountFrom(s[1..], i - 1);
    } else if |s| > 1 {
      CountFrom(s[1..], 0);
      CountAntitone(s[1..], s[0], s[1]);
    }
  }

  lemma {:induction false} CountAntitone(s: seq<nat>, lower: nat, upper: nat)
    requires lower <= upper
    ensures CountReaching(s, upper) <= CountReaching(s, lower)
  {
    if s != [] {
      CountAntitone(s[1..], lower, upper);
    }
  }

  lemma {:induction false} CountKeys(indices: map<Uid, nat>, keys: seq<Uid>, values: seq<nat>, n: nat)
    requires |keys| == |values|
    requires forall i | 0 <= i < |keys| :: keys[i] in indices && indices[keys[i]] == values[i]
    requires forall i, j | 0 <= i < j < |keys| :: keys[i] != keys[j]
    ensures CountReaching(values, n) == |ReachingAmong(indices, keys, n)|
  {
    var here := ReachingAmong(indices, keys, n);
    if keys == [] {
      assert here == {};
    } else {
      assert keys[0] in keys;
      CountKeys(indices, keys[1..], values[1..], n);
      var later := ReachingAmong(indices, keys[1..], n);
      assert keys[0] !in later;
      assert forall f :: f in keys <==> f == keys[0] || f in keys[1..];
      if values[0] >= n {
        assert here == later + {keys[0]};
      } else {
        assert here == later;
      }
    }
  }

  lemma ReachingCount(indices: map<Uid, nat>, n: nat)
    ensures |Reaching(indices, n)| == CountReaching(Reports(indices), n)
  {
    var keys := InOrder(indices.Keys);
    assert forall i | 0 <= i < |keys| :: keys[i] in keys;
    CountKeys(indices, keys, Reports(indices), n);
    assert Reaching(indices, n) == ReachingAmong(indices, keys, n);
  }

  /** At least k/2+1 of k reporters reach the index the rule picks, and one of them reported it. */
  lemma MajorityIndexIsReached(indices: map<Uid, nat>)
    requires |indices| > 0
    ensures MajorityIndex(indices) in indices.Values
    ensures |Reaching(indices, MajorityIndex(indices))| >= |indices| / 2 + 1
  {
    var k := |indices|;
    var reports := Reports(indices);
    var sorted := SortAscending(reports);
    var n := sorted[(k - 1) / 2];
    CountFrom(sorted, (k - 1) / 2);
    CountSorted(reports, n);
    ReachingCount(indices, n);
    assert n in multiset(sorted);
    var i :| 0 <= i < |reports| && reports[i] == n;
    assert InOrder(indices.Keys)[i] in InOrder(indices.Keys);
  }

  /** In an ascending sequence only what comes after position i can reach more than the value at i. */
  lemma {:induction false} CountAbove(s: seq<nat>, i: nat, n: nat)
    requires Ascending(s) && i < |s| && s[i] < n
    ensures CountReaching(s, n) <= |s| - 1 - i
  {
    if i > 0 {
      CountAbove(s[1..], i - 1, n);
    } else {
      CountAtMost(s[1..], n);
    }
  }

  lemma {:induction false} CountAtMost(s: seq<nat>, n: nat)
    ensures CountReaching(s, n) <= |s|
  {
    if s != [] {
      CountAtMost(s[1..], n);
    }
  }

  /** The index the rule picks is the highest that at least k/2+1 of k reporters reach. */
  lemma MajorityIndexIsHighest(indices: map<Uid, nat>, n: nat)
    requires |indices| > 0
    ensures |Reaching(indices, n)| >= |indices| / 2 + 1 <==> n <= MajorityIndex(indices)
  {
    var k, chosen := |indices|, MajorityIndex(indices);
    MajorityIndexIsReached(indices);
    ReachingCount(indices, n);
    if n <= chosen {
      ReachingCount(indices, chosen);
      CountAntitone(Reports(indices), n, chosen);
    } else {
      CountSorted(Reports(indices), n);
      CountAbove(SortAscending(Reports(indices)), (k - 1) / 2, n);
    }
  }

  // ---- The bound is sharp

  /** k followers that report 1, 2, ..., k. */
  function Staircase(k: nat): map<Uid, nat> {
    map f | f in Interval(1, k) :: f
  }

  /** The numbers from lo to hi. */
  function Interval(lo: nat, hi: nat): (s: set<nat>)
    ensures forall f :: f in s <==> lo <= f <= hi
    ensures lo <= hi + 1 ==> |s| == hi + 1 - lo
    decreases hi + 1 - lo
  {
    if lo > hi then {} else {lo} + Interval(lo + 1, hi)
  }

  /** A strictly ascending sequence climbs by at least one at every position. */
  lemma {:induction false} Climbs(ks: seq<Uid>, i: nat, j: nat)
    requires forall a, b | 0 <= a < b < |ks| :: ks[a] < ks[b]
    requires i <= j < |ks|
    ensures ks[i] + (j - i) <= ks[j]
    decreases j - i
  {
    if i < j {
      Climbs(ks, i, j - 1);
    }
  }

  lemma {:induction false} SortOfAscending(s: seq<nat>)
    requires Ascending(s)
    ensures SortAscending(s) == s
  {
    if s != [] {
      SortOfAscending(s[1..]);
    }
  }

  lemma StaircaseReports(k: nat)
    requires k > 0
    ensures |Staircase(k)| == k
    ensures forall i | 0 <= i < k :: Reports(Staircase(k))[i] == i + 1
  {
    assert Staircase(k).Keys == Interval(1, k);
    var keys := InOrder(Interval(1, k));
    forall i | 0 <= i < k ensures Reports(Staircase(k))[i] == i + 1 {
      assert keys[0] in keys && keys[k - 1] in keys;
      Climbs(keys, 0, i);
      Climbs(keys, i, k - 1);
    }
  }

  lemma StaircaseIndex(k: nat, n: nat)
    requires k > 0 && n == (k - 1) / 2 + 1
    ensures |Staircase(k)| == k && MajorityIndex(Staircase(k)) == n
  {
    StaircaseReports(k);
    SortOfAscending(Reports(Staircase(k)));
  }

  lemma StaircaseAbove(k: nat, n: nat)
    requires 0 < n
    ensures Staircase(k).Keys == Interval(1, k) && Reaching(Staircase(k), n) == Interval(n, k)
  {}

  lemma StaircaseReach(k: nat)
    requires k > 0
    ensures |Staircase(k)| == k
    ensures |Reaching(Staircase(k), MajorityIndex(Staircase(k)))| == k / 2 + 1
  {
    var n := (k - 1) / 2 + 1;
    StaircaseIndex(k, n);
    StaircaseAbove(k, n);
  }

  /** Whatever k followers report, the leader and the followers that reach the chosen index are a
      majority of the cluster exactly when k/2 + 1 is at least half the cluster size. */
  lemma MajorityIffEnoughReports(k: nat, clusterSize: nat)
    requires k > 0
    ensures (forall indices: map<Uid, nat> | |indices| == k ::
              IsMajority(1 + |Reaching(indices, MajorityIndex(indices))|, clusterSize))
            <==> k / 2 + 1 >= clusterSize / 2
  {
    if k / 2 + 1 >= clusterSize / 2 {
      forall indices: map<Uid, nat> | |indices| == k
        ensures IsMajority(1 + |Reaching(indices, MajorityIndex(indices))|, clusterSize)
      {
        MajorityIndexIsReached(indices);
      }
    } else {
      StaircaseReach(k);
      assert !IsMajority(1 + |Reaching(Staircase(k), MajorityIndex(Staircase(k)))|, clusterSize);
    }
  }

  /** They meet every majority of the cluster, so that no leader can be elected without one of them, exactly
      when k/2 + 1 is at least half the number of the other peers. */
  lemma ElectionsMeetIffEnoughReports(k: nat, clusterSize: nat)
    requires k > 0 && clusterSize > 0
    ensures (forall indices: map<Uid, nat> | |indices| == k ::
              MeetsMajorities(1 + |Reaching(indices, MajorityIndex(indices))|, clusterSize))
            <==> k / 2 + 1 >= (clusterSize - 1) / 2
  {
    if k / 2 + 1 >= (clusterSize - 1) / 2 {
      forall indices: map<Uid, nat> | |indices| == k
        ensures MeetsMajorities(1 + |Reaching(indices, MajorityIndex(indices))|, clusterSize)
      {
        MajorityIndexIsReached(indices);
      }
    } else {
      StaircaseReach(k);
      assert !MeetsMajorities(1 + |Reaching(Staircase(k), MajorityIndex(Staircase(k)))|, clusterSize);
    }
  }

  // ---- Reports of an earlier reign

  lemma DifferenceSize(a: set<Uid>, b: set<Uid>)
    ensures |a - b| >= |a| - |b|
  {
    assert a == (a - b) + (a * b);
    assert b == (b - a) + (a * b);
  }

  lemma CutInterval(lo: nat, cut: nat, hi: nat)
    requires lo <= hi + 1 && cut <= hi
    ensures |Interval(lo, hi) - Interval(cut + 1, hi)| == if lo <= cut then cut + 1 - lo else 0
  {
    if lo <= cut {
      assert Interval(lo, hi) - Interval(cut + 1, hi) == Interval(lo, cut);
    } else {
      assert Interval(lo, hi) - Interval(cut + 1, hi) == {};
    }
  }

  /** The reports that reach the chosen index and are not among the outdated ones. */
  function Fresh(indices: map<Uid, nat>, outdated: set<Uid>): set<Uid>
    requires |indices| > 0
  {
    Reaching(indices, MajorityIndex(indices)) - outdated
  }

  lemma CutUpperHalf(k: nat, stale: nat, n: nat, outdated: set<Uid>)
    requires 0 < k && stale <= k && outdated == Interval(k - stale + 1, k) && n == (k - 1) / 2 + 1
    ensures outdated <= Interval(1, k) && |outdated| == stale
    ensures |Interval(n, k) - outdated| == if stale <= k / 2 then k / 2 + 1 - stale else 0
  {
    CutInterval(n, k - stale, k);
  }

  /** With the `stale` highest reports of the staircase out of date, the fresh reporters that reach the
      chosen index are as few as they can be. */
  lemma StaircaseFresh(k: nat, stale: nat, outdated: set<Uid>)
    requires 0 < k && stale <= k && outdated == Interval(k - stale + 1, k)
    ensures |Staircase(k)| == k && outdated <= Staircase(k).Keys && |outdated| == stale
    ensures |Fresh(Staircase(k), outdated)| == if stale <= k / 2 then k / 2 + 1 - stale else 0
  {
    var n := (k - 1) / 2 + 1;
    CutUpperHalf(k, stale, n, outdated);
    StaircaseIndex(k, n);
    StaircaseAbove(k, n);
  }

  lemma EnoughFresh(indices: map<Uid, nat>, outdated: set<Uid>)
    requires |indices| > 0
    ensures |Fresh(indices, outdated)| + |outdated| >= |indices| / 2 + 1
  {
    MajorityIndexIsReached(indices);
    DifferenceSize(Reaching(indices, MajorityIndex(indices)), outdated);
  }

  /** With `stale` of k reports left from an earlier reign, whatever they are, the leader and the fresh
      reporters that reach the chosen index are a majority of the cluster exactly when k/2 + 1 is at least
      half the cluster size plus the number of stale reports (or the cluster has one peer). */
  lemma MajorityIffFreshReports(k: nat, stale: nat, clusterSize: nat)
    requires 0 < k && stale <= k
    ensures (forall indices: map<Uid, nat>, outdated: set<Uid> {:trigger Fresh(indices, outdated)}
              | |indices| == k && outdated <= indices.Keys && |outdated| == stale ::
              IsMajority(1 + |Fresh(indices, outdated)|, clusterSize))
            <==> clusterSize / 2 == 0 || k / 2 + 1 >= clusterSize / 2 + stale
  {
    if clusterSize / 2 == 0 || k / 2 + 1 >= clusterSize / 2 + stale {
      forall indices: map<Uid, nat>, outdated: set<Uid>
        | |indices| == k && outdated <= indices.Keys && |outdated| == stale
        ensures IsMajority(1 + |Fresh(indices, outdated)|, clusterSize)
      {
        EnoughFresh(indices, outdated);
      }
    } else {
      StaircaseFresh(k, stale, Interval(k - stale + 1, k));
    }
  }

  /** And they meet every majority exactly when k/2 + 1 is at least half the number of the other peers plus
      the number of stale reports (or there is at most one other peer). */
  lemma ElectionsMeetIffFreshReports(k: nat, stale: nat, clusterSize: nat)
    requires 0 < k && stale <= k && clusterSize > 0
    ensures (forall indices: map<Uid, nat>, outdated: set<Uid> {:trigger Fresh(indices, outdated)}
              | |indices| == k && outdated <= indices.Keys && |outdated| == stale ::
              MeetsMajorities(1 + |Fresh(indices, outdated)|, clusterSize))
            <==> clusterSize <= 2 || k / 2 + 1 >= (clusterSize - 1) / 2 + stale
  {
    if clusterSize <= 2 || k / 2 + 1 >= (clusterSize - 1) / 2 + stale {
      forall indices: map<Uid, nat>, outdated: set<Uid>
        | |indices| == k && outdated <= indices.Keys && |outdated| == stale
        ensures MeetsMajorities(1 + |Fresh(indices, outdated)|, clusterSize)
      {
        EnoughFresh(indices, outdated);
      }
    } else {
      StaircaseFresh(k, stale, Interval(k - stale + 1, k));
    }
  }
}

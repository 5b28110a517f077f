/** A leader that collects the answers about one LOCK, and what locks it still holds from an earlier reign
    do to it. */
module EarlyExecution {
  import opened Uids
  import opened Workflows
  import opened PeerSpec

  /** The LOCK with this tag is in the leader's log and nothing has resolved it. */
  predicate Collecting(p: PeerState, tag: Tag) {
    && p.role == Leader && p.commitIndex < |p.log| && tag.kind == Lock
    && TagExists(p.log, tag) && IndexOfTag(p.log, tag) < |p.log|
    && !LockResolved(p.log, p.commitIndex, IndexOfTag(p.log, tag))
  }

  function Grant(source: Uid, tag: Tag): CommandRsp {
    CommandRsp(source, tag, true, EMPTY_UID)
  }

  function EventsOf(p: PeerState, sources: set<Uid>): set<Uid> {
    set s | s in sources :: EventOfPeer(p, s)
  }

  function ToLock(p: PeerState): set<Uid> {
    LockSet(p.workflow, p.clusterEvent)
  }

  lemma OneGrant(p: PeerState, tag: Tag, source: Uid, locked: set<Uid>)
    requires Collecting(p, tag) && locked == p.lockedEvents + {EventOfPeer(p, source)}
    ensures CommandRspInBounds(p, Grant(source, tag))
    ensures RecvCommandRsp(p, Grant(source, tag)).peer.log != p.log <==> ToLock(p) <= locked
    ensures !(ToLock(p) <= locked) ==> RecvCommandRsp(p, Grant(source, tag)).peer == p.(lockedEvents := locked)
  {}

  /** The leader after answers from these sources, up to the one that makes it append an EXEC, if any. */
  function AfterGrants(p: PeerState, tag: Tag, sources: seq<Uid>): (q: PeerState)
    requires Collecting(p, tag)
    ensures q.log == p.log ==> q == p.(lockedEvents := p.lockedEvents + EventsOf(p, Elements(sources)))
    ensures q.log != p.log <==> sources != [] && ToLock(p) <= p.lockedEvents + EventsOf(p, Elements(sources))
    decreases |sources|
  {
    if sources == [] then
      assert p.lockedEvents + EventsOf(p, Elements(sources)) == p.lockedEvents;
      p
    else
      var front, source := sources[..|sources| - 1], sources[|sources| - 1];
      var q := AfterGrants(p, tag, front);
      var locked := p.lockedEvents + EventsOf(p, Elements(sources));
      assert locked == p.lockedEvents + EventsOf(p, Elements(front)) + {EventOfPeer(p, source)} by {
        assert Elements(sources) == Elements(front) + {source};
      }
      if q.log != p.log then q
      else
        OneGrant(q, tag, source, locked);
        RecvCommandRsp(q, Grant(source, tag)).peer
  }

  predicate Executes(p: PeerState, tag: Tag, sources: seq<Uid>)
    requires Collecting(p, tag)
  {
    AfterGrants(p, tag, sources).log != p.log
  }

  /** Execution after these answers, if any, is execution after every locked event has answered. */
  predicate LocksThenExecutes(p: PeerState, tag: Tag, sources: seq<Uid>)
    requires Collecting(p, tag)
  {
    Executes(p, tag, sources) ==> ToLock(p) <= EventsOf(p, Elements(sources))
  }

  /** With a stale lock of x, answers from everyone but the peers of x are enough. */
  lemma StaleLockExecutesEarly(p: PeerState, tag: Tag, peers: set<Uid>, x: Uid, y: Uid) returns (sources: seq<Uid>)
    requires Collecting(p, tag) && ToLock(p) <= EventsOf(p, peers)
    requires x in p.lockedEvents && x in ToLock(p) && y in EventsOf(p, peers) && y != x
    ensures Elements(sources) <= peers && !LocksThenExecutes(p, tag, sources)
  {
    var others := set s | s in peers && EventOfPeer(p, s) != x;
    sources := InOrder(others);
    assert Elements(sources) == others;
    assert sources != [] by {
      var s :| s in peers && EventOfPeer(p, s) == y;
      assert s in others;
    }
    forall z | z in ToLock(p) ensures z in p.lockedEvents + EventsOf(p, others) {
      if z != x {
        var s :| s in peers && EventOfPeer(p, s) == z;
        assert s in others;
      }
    }
  }

  lemma OneEventAnswers(p: PeerState, tag: Tag, peers: set<Uid>, sources: seq<Uid>)
    requires Collecting(p, tag) && ToLock(p) <= EventsOf(p, peers) && |EventsOf(p, peers)| <= 1
    requires Elements(sources) <= peers && Executes(p, tag, sources)
    ensures ToLock(p) <= EventsOf(p, Elements(sources))
  {
    var all, some := EventsOf(p, peers), EventsOf(p, Elements(sources));
    assert EventOfPeer(p, sources[0]) in some;
    assert some <= all;
    forall z | z in ToLock(p) ensures z in some {
      AtMostOne(all, z, EventOfPeer(p, sources[0]));
    }
  }

  lemma AtMostOne(s: set<Uid>, a: Uid, b: Uid)
    requires |s| <= 1 && a in s && b in s
    ensures a == b
  {
    assert |s - {a}| == 0;
  }

  /** Lock, then execute: whichever of the peers answer, the leader executes only after every locked event
      has answered, exactly when none of the locks it still holds is one it needs, or a single event is all
      that can answer. */
  lemma LocksThenExecutesIff(p: PeerState, tag: Tag, peers: set<Uid>)
    requires Collecting(p, tag) && ToLock(p) <= EventsOf(p, peers)
    ensures (forall sources | Elements(sources) <= peers :: LocksThenExecutes(p, tag, sources))
      <==> p.lockedEvents !! ToLock(p) || |EventsOf(p, peers)| <= 1
  {
    if !(p.lockedEvents !! ToLock(p)) && |EventsOf(p, peers)| > 1 {
      var x :| x in p.lockedEvents && x in ToLock(p);
      assert x in EventsOf(p, peers) && |EventsOf(p, peers) - {x}| == |EventsOf(p, peers)| - 1;
      var y :| y in EventsOf(p, peers) - {x};
      var sources := StaleLockExecutesEarly(p, tag, peers, x, y);
    } else {
      forall sources | Elements(sources) <= peers ensures LocksThenExecutes(p, tag, sources) {
        if Executes(p, tag, sources) && |EventsOf(p, peers)| <= 1 {
          OneEventAnswers(p, tag, peers, sources);
        }
      }
    }
  }
}

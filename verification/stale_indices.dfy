/** Why P3: a run of five peers that respects P1, P2 and P4 to P6, in which one peer wins a second reign with
    reports of an earlier one in its indices, and two peers end up with different committed entries. */
module StaleIndices {
  import opened Uids
  import opened Workflows
  import opened Clusters
  import opened Paths
  import opened CatchingUp
  import opened FiveRuns

  const RULES := ALL_RULES.(p3 := false)

  // ---- The run

  /** Peer 1 in its first reign. */
  const Z1_LOG := BARE + [Exec9(1, 1, 51)]
  const Z_LOG := Z1_LOG + [Exec9(2, 1, 52)]
  /** Peer 2 in its first reign. */
  const Y_LOG := BARE + [Exec9(1, 2, 53)]
  /** Peer 1 and peer 2, each in its last reign. */
  const W_LOG := Y_LOG + [Exec9(2, 5, 54)]
  const V_LOG := Y_LOG + [Exec9(2, 6, 55)]

  const STALE: map<Uid, nat> := map[3 := 2, 4 := 2]

  function First(n: nat): Move {
    // Term 1: peer 1 leads and logs two entries, which reach nobody.
    if n == 0 then Election(1, 3, 4)
    else if n == 1 then Order(1, 51)
    else if n == 2 then Order(1, 52)
    // Term 2: so does peer 2, with one.
    else if n == 3 then Hear(2, 1)
    else if n == 4 then Election(2, 3, 5)
    else if n == 5 then Order(2, 53)
    // Term 3: peer 1 leads again; peers 3 and 4 copy its entries of term 1 and report them.
    else if n == 6 then Hear(1, 2)
    else if n == 7 then Election(1, 3, 4)
    else if n == 8 then Report(1, 3, 2)
    else if n == 9 then Report(1, 4, 2)
    // Term 4: peer 2 leads again, with the higher last term, and overwrites the log of peer 1.
    else if n == 10 then Hear(2, 1)
    else Election(2, 3, 4)
  }

  function Second(n: nat): Move {
    if n == 0 then Hear(1, 2)
    else if n == 1 then Copy(2, 1)
    // Term 5: peer 1 leads a third time, its indices still naming peers 3 and 4. With the report of
    // peer 5 it commits an entry that only peers 1 and 5 have.
    else if n == 2 then Election(1, 2, 5)
    else if n == 3 then Order(1, 54)
    else if n == 4 then Report(1, 5, 2)
    // Term 6: peer 2 leads a third time. Peers 3 and 4 copy its log, report it, and do so again when it
    // has logged another entry, which is committed in the place of the one peer 1 committed.
    else if n == 5 then Election(2, 3, 4)
    else if n == 6 then Report(2, 4, 1)
    else if n == 7 then Report(2, 3, 1)
    else if n == 8 then Order(2, 55)
    else if n == 9 then Report(2, 3, 1)
    else Report(2, 4, 2)
  }

  /** The five peers before the moves `First`. */
  function Scene(n: nat): seq<Sketch> {
    var none: map<Uid, nat> := map[];
    if n == 0 then AT_REST
    else if n == 1 then [L(1, BARE, none), F(0, BARE), F(1, BARE), F(1, BARE), F(0, BARE)]
    else if n == 2 then [L(1, Z1_LOG, none), F(0, BARE), F(1, BARE), F(1, BARE), F(0, BARE)]
    else if n == 3 then [L(1, Z_LOG, none), F(0, BARE), F(1, BARE), F(1, BARE), F(0, BARE)]
    else if n == 4 then [L(1, Z_LOG, none), F(1, BARE), F(1, BARE), F(1, BARE), F(0, BARE)]
    else if n == 5 then [L(1, Z_LOG, none), L(2, BARE, none), F(2, BARE), F(1, BARE), F(2, BARE)]
    else if n == 6 then [L(1, Z_LOG, none), L(2, Y_LOG, none), F(2, BARE), F(1, BARE), F(2, BARE)]
    else if n == 7 then [F(2, Z_LOG), L(2, Y_LOG, none), F(2, BARE), F(1, BARE), F(2, BARE)]
    else if n == 8 then [L(3, Z_LOG, none), L(2, Y_LOG, none), F(3, BARE), F(3, BARE), F(2, BARE)]
    else if n == 9 then [L(3, Z_LOG, map[3 := 2]), L(2, Y_LOG, none), F(3, Z_LOG), F(3, BARE), F(2, BARE)]
    else if n == 10 then [L(3, Z_LOG, STALE), L(2, Y_LOG, none), F(3, Z_LOG), F(3, Z_LOG), F(2, BARE)]
    else if n == 11 then [L(3, Z_LOG, STALE), F(3, Y_LOG), F(3, Z_LOG), F(3, Z_LOG), F(2, BARE)]
    else [L(3, Z_LOG, STALE), L(4, Y_LOG, none), F(4, Z_LOG), F(4, Z_LOG), F(2, BARE)]
  }

  /** The five peers before the moves `Second`. */
  function LaterScene(n: nat): seq<Sketch> {
    var none: map<Uid, nat> := map[];
    var e := F(5, W_LOG);
    var a := L(5, W_LOG, map[3 := 2, 4 := 2, 5 := 2]).(commitIndex := 2);
    if n == 0 then Scene(12)
    else if n == 1 then [F(4, Z_LOG).(indices := STALE), L(4, Y_LOG, none), F(4, Z_LOG), F(4, Z_LOG), F(2, BARE)]
    else if n == 2 then [F(4, Y_LOG).(indices := STALE), L(4, Y_LOG, none), F(4, Z_LOG), F(4, Z_LOG), F(2, BARE)]
    else if n == 3 then [L(5, Y_LOG, STALE), F(5, Y_LOG), F(4, Z_LOG), F(4, Z_LOG), F(5, BARE)]
    else if n == 4 then [L(5, W_LOG, STALE), F(5, Y_LOG), F(4, Z_LOG), F(4, Z_LOG), F(5, BARE)]
    else if n == 5 then [a, F(5, Y_LOG), F(4, Z_LOG), F(4, Z_LOG), e]
    else if n == 6 then [a, L(6, Y_LOG, none), F(6, Z_LOG), F(6, Z_LOG), e]
    else if n == 7 then [a, L(6, Y_LOG, map[4 := 1]), F(6, Z_LOG), F(6, Y_LOG), e]
    else if n == 8 then [a, L(6, Y_LOG, map[3 := 1, 4 := 1]), F(6, Y_LOG), F(6, Y_LOG), e]
    else if n == 9 then [a, L(6, V_LOG, map[3 := 1, 4 := 1]), F(6, Y_LOG), F(6, Y_LOG), e]
    else if n == 10 then [a, L(6, V_LOG, map[3 := 2, 4 := 1]), F(6, V_LOG), F(6, Y_LOG), e]
    else [a, L(6, V_LOG, map[3 := 2, 4 := 2]).(commitIndex := 2), F(6, V_LOG), F(6, V_LOG), e]
  }

  lemma FirstReignPlays(n: nat)
    requires n < 3
    ensures Plays(RULES, Scene(n), First(n), Scene(n + 1))
  {}

  lemma SecondReignPlays(n: nat)
    requires 3 <= n < 6
    ensures Plays(RULES, Scene(n), First(n), Scene(n + 1))
  {}

  lemma ThirdElectionPlays(n: nat)
    requires 6 <= n < 8
    ensures Plays(RULES, Scene(n), First(n), Scene(n + 1))
  {}

  lemma LogsMatch()
    ensures Rooted(BARE) && Rooted(Z_LOG) && Rooted(Y_LOG) && Rooted(W_LOG) && Rooted(V_LOG)
    ensures Matching(Z_LOG, BARE) && Matching(Y_LOG, Z_LOG) && Matching(W_LOG, BARE) && Matching(V_LOG, Y_LOG)
  {}

  lemma FirstReportPlays()
    ensures Plays(RULES, Scene(8), Report(1, 3, 2), Scene(9))
  {
    LogsMatch();
    OneReport(3, 2, map[3 := 2]);
    ReportGives(RULES, L(3, Z_LOG, map[]), 3, 2, map[3 := 2], false);
    ReportPlays(RULES, Scene(8), 1, 3, 2, L(3, Z_LOG, map[]), F(3, BARE), L(3, Z_LOG, map[3 := 2]), F(3, Z_LOG), Scene(9));
  }

  lemma SecondReportGives()
    ensures CanReport(RULES, L(3, Z_LOG, map[3 := 2]), 4, 2)
    ensures Reported(L(3, Z_LOG, map[3 := 2]), 4, 2) == L(3, Z_LOG, STALE)
  {
    TwoReports(3, 4, 2, 2, STALE);
    ReportGives(RULES, L(3, Z_LOG, map[3 := 2]), 4, 2, STALE, false);
  }

  lemma SecondReportPlays()
    ensures Plays(RULES, Scene(9), Report(1, 4, 2), Scene(10))
  {
    LogsMatch();
    SecondReportGives();
    ReportPlays(RULES, Scene(9), 1, 4, 2, L(3, Z_LOG, map[3 := 2]), F(3, BARE), L(3, Z_LOG, STALE), F(3, Z_LOG), Scene(10));
  }

  lemma FourthReignPlays(n: nat)
    requires n == 10 || n == 11
    ensures Plays(RULES, Scene(n), First(n), Scene(n + 1))
  {}

  lemma FirstPlays(n: nat)
    requires n < 12
    ensures Plays(RULES, Scene(n), First(n), Scene(n + 1))
  {
    if n < 3 {
      FirstReignPlays(n);
    } else if n < 6 {
      SecondReignPlays(n);
    } else if n < 8 {
      ThirdElectionPlays(n);
    } else if n == 8 {
      FirstReportPlays();
    } else if n == 9 {
      SecondReportPlays();
    } else {
      FourthReignPlays(n);
    }
  }

  lemma OverwritePlays()
    ensures Plays(RULES, LaterScene(0), Second(0), LaterScene(1)) && Plays(RULES, LaterScene(1), Second(1), LaterScene(2))
  {
    LogsMatch();
  }

  lemma FifthReignPlays(n: nat)
    requires n == 2 || n == 3
    ensures Plays(RULES, LaterScene(n), Second(n), LaterScene(n + 1))
  {}

  lemma ThreeReports(indices: map<Uid, nat>)
    requires indices == map[3 := 2, 4 := 2, 5 := 2]
    ensures PicksAt(indices, 2) && |indices.Keys| >= 2 && indices == STALE[5 := 2]
  {
    assert indices[3] == 2;
    assert indices.Keys == {3, 4, 5} && |{3, 4, 5}| == 3;
  }

  lemma FifthReportPlays()
    ensures Plays(RULES, LaterScene(4), Report(1, 5, 2), LaterScene(5))
  {
    var indices := map[3 := 2, 4 := 2, 5 := 2];
    LogsMatch();
    ThreeReports(indices);
    ReportGives(RULES, L(5, W_LOG, STALE), 5, 2, indices, true);
    ReportPlays(RULES, LaterScene(4), 1, 5, 2, L(5, W_LOG, STALE), F(5, BARE), L(5, W_LOG, indices).(commitIndex := 2),
                F(5, W_LOG), LaterScene(5));
  }

  lemma SixthElectionPlays()
    ensures Plays(RULES, LaterScene(5), Second(5), LaterScene(6))
  {}

  lemma SixthOrderPlays()
    ensures Plays(RULES, LaterScene(8), Second(8), LaterScene(9))
  {}

  lemma SixthReportPlays()
    ensures Plays(RULES, LaterScene(6), Report(2, 4, 1), LaterScene(7))
  {
    LogsMatch();
    OneReport(4, 1, map[4 := 1]);
    ReportGives(RULES, L(6, Y_LOG, map[]), 4, 1, map[4 := 1], false);
    ReportPlays(RULES, LaterScene(6), 2, 4, 1, L(6, Y_LOG, map[]), F(6, Z_LOG), L(6, Y_LOG, map[4 := 1]), F(6, Y_LOG),
                LaterScene(7));
  }

  /** Of two reports the second is one of peer 3, equal to or above that of peer 4. */
  lemma ReportOfThree(s: Sketch, n: nat, indices: map<Uid, nat>, s': Sketch)
    requires
      || (s.log == Y_LOG && s.indices == map[4 := 1] && n == 1)
      || (s.log == V_LOG && s.indices == map[3 := 1, 4 := 1] && n == 2)
    requires s.commitIndex == 0 && s.term == 6 && indices == map[4 := 1, 3 := n] && s' == s.(indices := indices)
    ensures CanReport(RULES, s, 3, 1) && Reported(s, 3, 1) == s'
  {
    TwoReports(4, 3, 1, n, indices);
    assert indices == s.indices[3 := n];
    ReportGives(RULES, s, 3, 1, indices, false);
  }

  lemma SeventhReportPlays()
    ensures Plays(RULES, LaterScene(7), Report(2, 3, 1), LaterScene(8))
  {
    var s, s' := L(6, Y_LOG, map[4 := 1]), L(6, Y_LOG, map[3 := 1, 4 := 1]);
    LogsMatch();
    assert map[3 := 1, 4 := 1] == map[4 := 1, 3 := 1];
    ReportOfThree(s, 1, map[4 := 1, 3 := 1], s');
    ReportPlays(RULES, LaterScene(7), 2, 3, 1, s, F(6, Z_LOG), s', F(6, Y_LOG), LaterScene(8));
  }

  lemma NinthReportPlays()
    ensures Plays(RULES, LaterScene(9), Report(2, 3, 1), LaterScene(10))
  {
    var s, s' := L(6, V_LOG, map[3 := 1, 4 := 1]), L(6, V_LOG, map[3 := 2, 4 := 1]);
    LogsMatch();
    assert map[3 := 2, 4 := 1] == map[4 := 1, 3 := 2];
    ReportOfThree(s, 2, map[4 := 1, 3 := 2], s');
    ReportPlays(RULES, LaterScene(9), 2, 3, 1, s, F(6, Y_LOG), s', F(6, V_LOG), LaterScene(10));
  }

  lemma LastReportPlays()
    ensures Plays(RULES, LaterScene(10), Report(2, 4, 2), LaterScene(11))
  {
    var before := map[3 := 2, 4 := 1];
    LogsMatch();
    assert STALE == before[4 := 2];
    TwoReports(3, 4, 2, 2, STALE);
    ReportGives(RULES, L(6, V_LOG, before), 4, 2, STALE, true);
    ReportPlays(RULES, LaterScene(10), 2, 4, 2, L(6, V_LOG, before), F(6, Y_LOG), L(6, V_LOG, STALE).(commitIndex := 2),
                F(6, V_LOG), LaterScene(11));
  }

  lemma SecondPlays(n: nat)
    requires n < 11
    ensures Plays(RULES, LaterScene(n), Second(n), LaterScene(n + 1))
  {
    if n < 2 {
      OverwritePlays();
    } else if n < 4 {
      FifthReignPlays(n);
    } else if n == 4 {
      FifthReportPlays();
    } else if n == 5 {
      SixthElectionPlays();
    } else if n == 8 {
      SixthOrderPlays();
    } else if n == 6 {
      SixthReportPlays();
    } else if n == 7 {
      SeventhReportPlays();
    } else if n == 9 {
      NinthReportPlays();
    } else {
      LastReportPlays();
    }
  }

  // ---- The theorem

  lemma {:induction false} DrawFirst(cfg: Config, c: Cluster, n: nat)
    requires Drawn(cfg, c, Scene(0)) && n <= 12
    ensures CanDraw(cfg, RULES, c, Scene(n))
  {
    if n == 0 {
      ReachSelf(cfg, RULES, c);
    } else {
      DrawFirst(cfg, c, n - 1);
      FirstPlays(n - 1);
      DrawFurther(cfg, RULES, c, Scene(n - 1), First(n - 1), Scene(n));
    }
  }

  lemma {:induction false} DrawSecond(cfg: Config, c: Cluster, n: nat)
    requires CanDraw(cfg, RULES, c, LaterScene(0)) && n <= 11
    ensures CanDraw(cfg, RULES, c, LaterScene(n))
  {
    if n > 0 {
      DrawSecond(cfg, c, n - 1);
      SecondPlays(n - 1);
      DrawFurther(cfg, RULES, c, LaterScene(n - 1), Second(n - 1), LaterScene(n));
    }
  }

  lemma LastSceneConflicts(cfg: Config, c: Cluster)
    requires Drawn(cfg, c, LaterScene(11))
    ensures Conflict(c, 1, 2, 2)
  {
    var a, b := LaterScene(11)[0], LaterScene(11)[1];
    assert a.commitIndex == 2 && a.log == W_LOG && b.commitIndex == 2 && b.log == V_LOG;
    assert IsSketched(c.peers, LaterScene(11), 1) && IsSketched(c.peers, LaterScene(11), 2);
  }

  /** The theorem `StateMachineSafety` needs P3: in a cluster of five, a run that respects everything else
      ends with two peers that have committed different entries. */
  lemma StaleIndicesBreakSafety(w: Workflow) returns (states: seq<Cluster>, steps: seq<Step>)
    ensures IsRunUnder(Five(w), RULES, states, steps)
    ensures Conflict(states[|steps|], 1, 2, 2)
  {
    var cfg := Five(w);
    var c := Start(cfg);
    FiveAreMembers(cfg, 1);
    StartIsInit(cfg, c);
    StartIsDrawn(cfg, c);
    DrawFirst(cfg, c, 12);
    DrawSecond(cfg, c, 11);
    var c' :| CanReach(cfg, RULES, c, c') && Drawn(cfg, c', LaterScene(11));
    LastSceneConflicts(cfg, c');
    states, steps := ReachedByRun(cfg, RULES, c, c');
  }
}

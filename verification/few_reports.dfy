/** Why P4: a run of five peers that respects P1 to P3, P5 and P6, in which two leaders each commit on the
    report of one follower, and end up with different committed entries. */
module FewReports {
  import opened Uids
  import opened Workflows
  import opened Clusters
  import opened Paths
  import opened CatchingUp
  import opened FiveRuns

  const RULES := ALL_RULES.(p4 := false)

  /** Peer 1 and peer 4, each in its only reign. */
  const A_LOG := BARE + [Exec9(1, 1, 51)]
  const B_LOG := BARE + [Exec9(1, 2, 52)]

  function MoveAt(n: nat): Move {
    // Term 1: peer 1 logs an entry and commits it on the report of peer 2.
    if n == 0 then Election(1, 2, 3)
    else if n == 1 then Order(1, 51)
    else if n == 2 then Report(1, 2, 1)
    // Term 2: peer 4 leads with the votes of peers that never had that entry, and does the same.
    else if n == 3 then Hear(4, 1)
    else if n == 4 then Election(4, 3, 5)
    else if n == 5 then Order(4, 52)
    else Report(4, 3, 1)
  }

  /** The five peers before each move. */
  function Scene(n: nat): seq<Sketch> {
    var none: map<Uid, nat> := map[];
    var a := L(1, A_LOG, map[2 := 1]).(commitIndex := 1);
    if n == 0 then AT_REST
    else if n == 1 then [L(1, BARE, none), F(1, BARE), F(1, BARE), F(0, BARE), F(0, BARE)]
    else if n == 2 then [L(1, A_LOG, none), F(1, BARE), F(1, BARE), F(0, BARE), F(0, BARE)]
    else if n == 3 then [a, F(1, A_LOG), F(1, BARE), F(0, BARE), F(0, BARE)]
    else if n == 4 then [a, F(1, A_LOG), F(1, BARE), F(1, BARE), F(0, BARE)]
    else if n == 5 then [a, F(1, A_LOG), F(2, BARE), L(2, BARE, none), F(2, BARE)]
    else if n == 6 then [a, F(1, A_LOG), F(2, BARE), L(2, B_LOG, none), F(2, BARE)]
    else [a, F(1, A_LOG), F(2, B_LOG), L(2, B_LOG, map[3 := 1]).(commitIndex := 1), F(2, BARE)]
  }

  lemma LogsMatch()
    ensures Rooted(BARE) && Rooted(A_LOG) && Rooted(B_LOG) && Matching(A_LOG, BARE) && Matching(B_LOG, BARE)
  {}

  lemma ReignPlays(n: nat)
    requires n < 7 && n != 2 && n != 6
    ensures Plays(RULES, Scene(n), MoveAt(n), Scene(n + 1))
  {}

  lemma FirstReportPlays()
    ensures Plays(RULES, Scene(2), Report(1, 2, 1), Scene(3))
  {
    LogsMatch();
    OneReport(2, 1, map[2 := 1]);
    ReportGives(RULES, L(1, A_LOG, map[]), 2, 1, map[2 := 1], true);
    ReportPlays(RULES, Scene(2), 1, 2, 1, L(1, A_LOG, map[]), F(1, BARE), Scene(3)[0], F(1, A_LOG), Scene(3));
  }

  lemma SecondReportPlays()
    ensures Plays(RULES, Scene(6), Report(4, 3, 1), Scene(7))
  {
    LogsMatch();
    OneReport(3, 1, map[3 := 1]);
    ReportGives(RULES, L(2, B_LOG, map[]), 3, 1, map[3 := 1], true);
    ReportPlays(RULES, Scene(6), 4, 3, 1, L(2, B_LOG, map[]), F(2, BARE), Scene(7)[3], F(2, B_LOG), Scene(7));
  }

  lemma {:induction false} DrawScene(cfg: Config, c: Cluster, n: nat)
    requires Drawn(cfg, c, AT_REST) && n <= 7
    ensures CanDraw(cfg, RULES, c, Scene(n))
  {
    if n == 0 {
      ReachSelf(cfg, RULES, c);
    } else {
      DrawScene(cfg, c, n - 1);
      if n - 1 == 2 {
        FirstReportPlays();
      } else if n - 1 == 6 {
        SecondReportPlays();
      } else {
        ReignPlays(n - 1);
      }
      DrawFurther(cfg, RULES, c, Scene(n - 1), MoveAt(n - 1), Scene(n));
    }
  }

  lemma LastSceneConflicts(cfg: Config, c: Cluster)
    requires Drawn(cfg, c, Scene(7))
    ensures Conflict(c, 1, 4, 1)
  {
    var a, b := Scene(7)[0], Scene(7)[3];
    assert a.commitIndex == 1 && a.log == A_LOG && b.commitIndex == 1 && b.log == B_LOG;
    assert IsSketched(c.peers, Scene(7), 1) && IsSketched(c.peers, Scene(7), 4);
  }

  /** The theorem `StateMachineSafety` needs P4: in a cluster of five, a run that respects everything else
      ends with two peers that have committed different entries. */
  lemma FewReportsBreakSafety(w: Workflow) returns (states: seq<Cluster>, steps: seq<Step>)
    ensures IsRunUnder(Five(w), RULES, states, steps)
    ensures Conflict(states[|steps|], 1, 4, 1)
  {
    var cfg := Five(w);
    var c := Start(cfg);
    FiveAreMembers(cfg, 1);
    StartIsInit(cfg, c);
    StartIsDrawn(cfg, c);
    DrawScene(cfg, c, 7);
    var c' :| CanReach(cfg, RULES, c, c') && Drawn(cfg, c', Scene(7));
    LastSceneConflicts(cfg, c');
    states, steps := ReachedByRun(cfg, RULES, c, c');
  }
}

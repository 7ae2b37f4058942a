/** Two runs in which discovery's write of the target index loses a committed write. */
module DiscoveryRuns {
  import opened Common
  import opened ReplicaStatus
  import opened Topology
  import opened LogSafety

  // The first. Pod-1 was the target and holds a write; pod-0 is an old main that came back without it.
  // The ConfigMap is gone, or cannot be read, so discovery runs. The storage counts are both zero, so
  // the cluster is initialised as a new one. The strict replica is not ready, which ends the process;
  // the next one discovers pod-0 as main beside a replica.

  const IPS: map<Pod, string> := map[0 := "10.0.0.1", 1 := "10.0.0.2"]

  function Discovering(stored: Option<Pod>, dbs: map<Pod, Db>, nodes: map<Pod, Node>, confirmed: set<Pod>): System {
    System(dbs, {}, nodes, if nodes == map[] then {} else {0, 1}, None, stored, None, false, false, confirmed)
  }

  function Seen(role0: Option<Role>, role1: Option<Role>): map<Pod, Node> {
    map[0 := Node("10.0.0.1", role0, [], false), 1 := Node("10.0.0.2", role1, [], false)]
  }

  const BOTH_MAIN: map<Pod, Db> := map[0 := Db(Main, map[], []), 1 := Db(Main, map[], [7])]

  const DEMOTED: map<Pod, Db> := map[0 := Db(Main, map[], []), 1 := Db(Replica, map[], [7])]

  const INITIALISED: map<Pod, Db> := map[0 := Db(Main, map[1 := StrictSync], []), 1 := Db(Replica, map[], [7])]

  function Stage(x: Option<Pod>, k: nat): System {
    if k == 0 then Discovering(x, BOTH_MAIN, map[], {})
    else if k == 1 then Discovering(x, BOTH_MAIN, Seen(None, None), {})
    else if k == 2 then Discovering(x, BOTH_MAIN, Seen(Some(Main), None), {})
    else if k == 3 then Discovering(x, BOTH_MAIN, Seen(Some(Main), Some(Main)), {})
    else if k == 4 then Discovering(x, DEMOTED, Seen(Some(Main), None), {1})
    else if k == 5 then Discovering(x, INITIALISED, Seen(Some(Main), None), {1})
    else if k == 6 then Discovering(x, INITIALISED, map[], {})
    else if k == 7 then Discovering(x, INITIALISED, Seen(None, None), {})
    else if k == 8 then Discovering(x, INITIALISED, Seen(Some(Main), None), {})
    else if k == 9 then Discovering(x, INITIALISED, Seen(Some(Main), Some(Replica)), {1})
    else Discovering(Some(0), INITIALISED, Seen(Some(Main), Some(Replica)), {1}).(mem := Some(0))
  }

  const DISCOVERIES: seq<Step> :=
    [Refresh(IPS), ReadRole(0), ReadRole(1), Demote(1, Acknowledged), Register(0, 1, StrictSync, Acknowledged),
     Restart, Refresh(IPS), ReadRole(0), ReadRole(1), Adopt(0, Acknowledged)]

  lemma DiscoveryRefreshes(x: Option<Pod>, dbs: map<Pod, Db>)
    requires dbs.Keys == {0, 1}
    ensures Next(Discovering(x, dbs, map[], {}), Refresh(IPS), Discovering(x, dbs, Seen(None, None), {}))
  {
    assert RefreshedNodes(Discovering(x, dbs, map[], {}), IPS) == Seen(None, None);
  }

  lemma DiscoveryReads(x: Option<Pod>, dbs: map<Pod, Db>)
    requires dbs.Keys == {0, 1} && dbs[0].role == Main
    ensures var s := Discovering(x, dbs, Seen(Some(Main), None), {});
            && Next(Discovering(x, dbs, Seen(None, None), {}), ReadRole(0), s)
            && Next(s, ReadRole(1), Discovering(x, dbs, Seen(Some(Main), Some(dbs[1].role)),
                                                if dbs[1].role == Replica then {1} else {}))
  {
    hide Committed, WithoutFirst, Truthful, ListsReady, GateList, GateOpen, RefreshedNodes;
    assert Seen(None, None)[0 := Node("10.0.0.1", Some(Main), [], false)] == Seen(Some(Main), None);
  }

  lemma DiscoveryDemotes(x: Option<Pod>)
    ensures Next(Stage(x, 3), DISCOVERIES[3], Stage(x, 4))
  {
    assert Seen(Some(Main), Some(Main))[1 := Node("10.0.0.2", None, [], false)] == Seen(Some(Main), None);
  }

  lemma DiscoveryRegisters(x: Option<Pod>)
    ensures Next(Stage(x, 4), DISCOVERIES[4], Stage(x, 5))
  {
  }

  lemma DiscoveryEnds(x: Option<Pod>)
    ensures Next(Stage(x, 5), DISCOVERIES[5], Stage(x, 6))
  {
  }

  lemma DiscoveryAdopts(x: Option<Pod>)
    requires x == None || x == Some(1)
    ensures Next(Stage(x, 9), DISCOVERIES[9], Stage(x, 10)) && !Safe(Stage(x, 9), DISCOVERIES[9])
    ensures TargetLog(Stage(x, 0)) == [7] && TargetLog(Stage(x, 10)) == [] && Init(Stage(x, 0))
  {
  }

  lemma StageSteps(x: Option<Pod>, k: nat)
    requires k < 10 && (x == None || x == Some(1))
    ensures Next(Stage(x, k), DISCOVERIES[k], Stage(x, k + 1))
  {
    hide Next, Discovering, Seen, Safe, TargetLog, Init;
    DiscoveryRefreshes(x, BOTH_MAIN);
    DiscoveryReads(x, BOTH_MAIN);
    DiscoveryDemotes(x);
    DiscoveryRegisters(x);
    DiscoveryEnds(x);
    DiscoveryRefreshes(x, INITIALISED);
    DiscoveryReads(x, INITIALISED);
    DiscoveryAdopts(x);
  }

  /** The write committed on pod-1 is gone from the log of the new target, whether the index of pod-1 is
      stored or gone, after a run in which only the last step was not Safe. */
  lemma DiscoveryLosesWrites(stored: Option<Pod>) returns (states: seq<System>)
    requires stored == None || stored == Some(1)
    ensures Run(states, DISCOVERIES) && states[0].persisted == stored
    ensures forall k | 0 <= k < |DISCOVERIES| :: Safe(states[k], DISCOVERIES[k]) <==> k < |DISCOVERIES| - 1
    ensures TargetLog(states[0]) == [7] && TargetLog(states[|DISCOVERIES|]) == []
  {
    states := seq(11, k requires 0 <= k => Stage(stored, k));
    forall k | 0 <= k < |DISCOVERIES|
      ensures Next(states[k], DISCOVERIES[k], states[k + 1])
    {
      StageSteps(stored, k);
    }
    DiscoveryAdopts(stored);
    hide Next, Init, TargetLog, MayAdopt;
  }

  // The second. The target is pod-0, stored and healthy, but the ConfigMap cannot be read at first, so
  // discovery runs and sees pod-0 as main. Before it writes, another goroutine loads the target, fails
  // over to pod-1 and opens the gateway, and a client commits.

  const PAIR: map<Pod, Db> := map[0 := Db(Main, map[1 := StrictSync], []), 1 := Db(Replica, map[], [])]

  const MOVED: map<Pod, Db> := map[0 := Db(Main, map[1 := StrictSync], []), 1 := Db(Main, map[], [])]

  const WRITTEN: map<Pod, Db> := map[0 := Db(Main, map[1 := StrictSync], []), 1 := Db(Main, map[], [7])]

  const READY_ROW := ReplicaInfo(1, StrictSync, Some(DataInfo(0, "ready", 0, true)))

  function Listed(role1: Option<Role>): map<Pod, Node> {
    map[0 := Node("10.0.0.1", Some(Main), [READY_ROW], true), 1 := Node("10.0.0.2", role1, [], false)]
  }

  const OVERLAP: seq<Step> :=
    [Refresh(IPS), ReadRole(0), ReadRole(1), LoadTarget, ListReplicas(0, [READY_ROW]), BeginFailover,
     Promote(1, Acknowledged), ReadRole(1), PersistTarget(1, Acknowledged), EndFailover, OpenGateway(1),
     ClientBegin, ClientCommit(1, 7), Adopt(0, Acknowledged)]

  function Overlap(k: nat): System {
    var k01 := {0, 1};
    if k == 0 then Discovering(Some(0), PAIR, map[], {})
    else if k == 1 then Discovering(Some(0), PAIR, Seen(None, None), {})
    else if k == 2 then Discovering(Some(0), PAIR, Seen(Some(Main), None), {})
    else if k == 3 then Discovering(Some(0), PAIR, Seen(Some(Main), Some(Replica)), {1})
    else if k == 4 then Discovering(Some(0), PAIR, Seen(Some(Main), Some(Replica)), {1}).(mem := Some(0))
    else if k == 5 then System(PAIR, {}, Listed(Some(Replica)), k01, Some(0), Some(0), None, false, true, {1})
    else if k == 6 then System(PAIR, {}, Listed(Some(Replica)), k01, Some(0), Some(0), None, true, true, {1})
    else if k == 7 then System(MOVED, {}, Listed(None), k01, Some(0), Some(0), None, true, false, {})
    else if k == 8 then System(MOVED, {}, Listed(Some(Main)), k01, Some(0), Some(0), None, true, false, {})
    else if k == 9 then System(MOVED, {}, Listed(Some(Main)), k01, Some(1), Some(1), None, true, false, {})
    else if k == 10 then System(MOVED, {}, Listed(Some(Main)), k01, Some(1), Some(1), None, false, false, {})
    else if k == 11 then System(MOVED, {}, Listed(Some(Main)), k01, Some(1), Some(1), Some(1), false, false, {})
    else if k == 12 then System(MOVED, {1}, Listed(Some(Main)), k01, Some(1), Some(1), Some(1), false, false, {})
    else if k == 13 then System(WRITTEN, {1}, Listed(Some(Main)), k01, Some(1), Some(1), Some(1), false, false, {})
    else System(WRITTEN, {1}, Listed(Some(Main)), k01, Some(0), Some(0), Some(1), false, false, {})
  }

  lemma OverlapLoads()
    ensures Next(Overlap(3), OVERLAP[3], Overlap(4))
  {
    hide Committed, RefreshedNodes, WithoutFirst, Truthful, ListsReady, GateOpen;
  }

  lemma OverlapLists()
    ensures Next(Overlap(4), OVERLAP[4], Overlap(5))
  {
    hide Committed, RefreshedNodes, WithoutFirst, GateOpen;
    var list := [READY_ROW];
    assert list[0] == READY_ROW && Names(list) == {1};
    assert Truthful(Overlap(4), 0, list);
    assert Seen(Some(Main), Some(Replica))[0 := Node("10.0.0.1", Some(Main), list, true)] == Listed(Some(Replica));
  }

  lemma ListOpensGate(s: System, role1: Option<Role>)
    requires s.nodes == Listed(role1)
    ensures GateOpen(s, 0)
  {
    var list := [READY_ROW];
    assert READY_ROW in list && StrictReady(READY_ROW, 1);
  }

  lemma OverlapCloses()
    ensures Next(Overlap(5), OVERLAP[5], Overlap(6))
  {
    hide GateOpen;
    ListOpensGate(Overlap(5), Some(Replica));
  }

  lemma OverlapPromotes()
    ensures Next(Overlap(6), OVERLAP[6], Overlap(7))
  {
    assert Listed(Some(Replica))[1 := Node("10.0.0.2", None, [], false)] == Listed(None);
    assert PAIR[1 := Db(Main, map[], [])] == MOVED;
  }

  lemma OverlapVerifies()
    ensures Next(Overlap(7), OVERLAP[7], Overlap(8))
  {
    assert Listed(None)[1 := Node("10.0.0.2", Some(Main), [], false)] == Listed(Some(Main));
  }

  lemma OverlapPersists()
    ensures Next(Overlap(8), OVERLAP[8], Overlap(9))
  {
    hide GateOpen;
    ListOpensGate(Overlap(8), Some(Main));
  }

  lemma OverlapOpens()
    ensures Next(Overlap(9), OVERLAP[9], Overlap(10)) && Next(Overlap(10), OVERLAP[10], Overlap(11))
  {
    hide GateOpen;
  }

  lemma OverlapBegins()
    ensures Next(Overlap(11), OVERLAP[11], Overlap(12))
  {
    hide GateOpen;
  }

  lemma OverlapCommits()
    ensures Next(Overlap(12), OVERLAP[12], Overlap(13))
  {
    hide GateOpen;
    var after := Committed(MOVED, 1, 7);
    assert after.Keys == WRITTEN.Keys && !StrictOn(MOVED[1], 0);
    assert after[0] == WRITTEN[0] && after[1].log == WRITTEN[1].log;
    assert after == WRITTEN;
  }

  lemma OverlapAdopts()
    ensures Next(Overlap(13), OVERLAP[13], Overlap(14))
  {
  }

  lemma OverlapLoses()
    ensures Init(Overlap(0)) && TargetLog(Overlap(13)) == [7] && TargetLog(Overlap(14)) == []
    ensures !Safe(Overlap(13), OVERLAP[13])
    ensures Overlap(14).gateway == Some(1) && Overlap(14).mem == Some(0)
  {
  }

  lemma OverlapSteps(k: nat)
    requires k < 14
    ensures Next(Overlap(k), OVERLAP[k], Overlap(k + 1))
  {
    hide Next, Discovering, Seen, Listed;
    DiscoveryRefreshes(Some(0), PAIR);
    DiscoveryReads(Some(0), PAIR);
    OverlapLoads();
    OverlapLists();
    OverlapCloses();
    OverlapPromotes();
    OverlapVerifies();
    OverlapPersists();
    OverlapOpens();
    OverlapBegins();
    OverlapCommits();
    OverlapAdopts();
  }

  /** Discovery's late write loses the commit and leaves the gateway on a pod that is not the target,
      after a run in which only that write was not Safe. */
  lemma LateDiscoveryLosesWrites() returns (states: seq<System>)
    ensures Run(states, OVERLAP)
    ensures forall k | 0 <= k < |OVERLAP| :: Safe(states[k], OVERLAP[k]) <==> k < |OVERLAP| - 1
    ensures OVERLAP[12] == ClientCommit(1, 7) && TargetLog(states[13]) == [7] && TargetLog(states[14]) == []
    ensures states[14].gateway == Some(1) && states[14].mem == Some(0)
  {
    states := seq(15, k requires 0 <= k => Overlap(k));
    forall k | 0 <= k < |OVERLAP|
      ensures Next(states[k], OVERLAP[k], states[k + 1])
    {
      OverlapSteps(k);
    }
    OverlapLoses();
    hide Next, Init, TargetLog, MayAdopt, Overlap;
  }
}

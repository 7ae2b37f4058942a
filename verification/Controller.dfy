/** The controller's operations (controller_reconcile.go, queue_failover.go, memgraph_cluster.go,
    memgraph_node.go, and the target index of controller_core.go).

    The ghost fields record the run so far; Valid() says that it is a safe run of the step machine of
    module Topology. Between any two commands and queries `Interfere` lets clients begin and commit
    transactions, replicas catch up, pods appear and preStop hooks close the gateway, any number of
    times. operationMu keeps other reconciliations and failovers out. A command fails without effect,
    or is lost, at any time. */
module Controller {
  import opened Common
  import opened ReplicaStatus
  import opened Topology
  import opened LogSafety
  import opened Coherence

  /** A pod of the informer cache. */
  datatype PodStatus = PodStatus(ip: string, conditions: seq<Condition>, terminating: bool, answersPing: bool)

  datatype Condition = Condition(kind: string, holds: bool)

  type Pods = map<Pod, PodStatus>

  /** The counts a pod's storage query reports. */
  datatype Storage = Storage(vertices: nat, edges: nat)

  /** The answers of the storage queries; a pod whose query fails has none. */
  type Storages = map<Pod, Storage>

  predicate Empty(storage: Storage) {
    storage.edges == 0 && storage.vertices == 0
  }

  predicate PodReady(pod: PodStatus) {
    && !pod.terminating
    && exists k | 0 <= k < |pod.conditions| ::
         && pod.conditions[k].kind == "Ready" && pod.conditions[k].holds
         && forall i | 0 <= i < k :: pod.conditions[i].kind != "Ready"
  }

  /** isPodReady: the first condition of type Ready decides. */
  method IsPodReady(pod: PodStatus) returns (ready: bool)
    ensures ready == PodReady(pod)
  {
    if pod.terminating {
      return false;
    }
    for i := 0 to |pod.conditions|
      invariant forall j | 0 <= j < i :: pod.conditions[j].kind != "Ready"
    {
      if pod.conditions[i].kind == "Ready" {
        return pod.conditions[i].holds;
      }
    }
    return false;
  }

  /** Every cached role that was true still is. */
  ghost predicate RolesKept(s: System, s': System) {
    forall p :: RoleTrue(s, p) ==> RoleTrue(s', p)
  }

  lemma RolesKeptReflexive(s: System)
    ensures RolesKept(s, s)
  {
  }

  lemma RolesKeptTransitive(s: System, s': System, s'': System)
    requires RolesKept(s, s') && RolesKept(s', s'')
    ensures RolesKept(s, s'')
  {
    hide RoleTrue;
  }

  lemma RolesKeptBy(s: System, st: Step, s': System)
    requires Inv(s) && Next(s, st, s') && !LostCommand(st)
    ensures RolesKept(s, s')
  {
    hide Next, RoleTrue, Sound;
    forall p | RoleTrue(s, p)
      ensures RoleTrue(s', p)
    {
      AcknowledgedKeepsRole(s, st, s', p);
    }
  }

  /** What the lock holder can rely on while others run: they only write through the gateway,
      replicate, start pods and close the gateway. */
  predicate Undisturbed(s: System, s': System) {
    && s' == s.(dbs := s'.dbs, pending := s'.pending, gateway := s'.gateway)
    && (s'.gateway == s.gateway || s'.gateway.None?)
    && s.dbs.Keys <= s'.dbs.Keys
    && forall p | p in s.dbs :: s'.dbs[p].role == s.dbs[p].role && s'.dbs[p].regs == s.dbs[p].regs
  }

  predicate Interference(st: Step) {
    st.ClientBegin? || st.ClientCommit? || st.CatchUp? || st.PodJoins? || st.PreStop?
  }

  lemma InterferenceUndisturbed(s: System, st: Step, s': System)
    requires Next(s, st, s') && Interference(st)
    ensures Undisturbed(s, s')
  {
    hide ListsReady, GateList, GateOpen, Truthful, RefreshedNodes, WithoutFirst;
  }

  /** Reading about pod p: only its cache, and what is confirmed about it, may change. */
  predicate Observed(s: System, s': System, p: Pod) {
    && s' == s.(dbs := s'.dbs, pending := s'.pending, gateway := s'.gateway, nodes := s'.nodes,
                confirmed := s'.confirmed,
                relisted := s'.relisted)
    && Undisturbed(s.(nodes := s'.nodes, confirmed := s'.confirmed, relisted := s'.relisted), s')
    && s'.nodes.Keys == s.nodes.Keys
    && (forall q | q in s.nodes && q != p :: s'.nodes[q] == s.nodes[q])
    && (p in s.nodes ==> s'.nodes[p].ip == s.nodes[p].ip)
    && (s.relisted ==> s'.relisted)
    && s'.confirmed - {p} == s.confirmed - {p}
  }

  lemma ReadingObserves(s: System, p: Pod)
    requires p in s.nodes && p in s.dbs
    ensures Observed(s, s, p) && Observed(s, AfterReadRole(s, p), p)
  {
  }

  lemma ListingObserves(s: System, p: Pod, list: seq<ReplicaInfo>)
    requires p in s.nodes
    ensures Observed(s, AfterList(s, p, list), p)
  {
  }

  lemma ObservedTransitive(s: System, s': System, s'': System, p: Pod)
    requires Observed(s, s', p) && (Observed(s', s'', p) || Undisturbed(s', s''))
    ensures Observed(s, s'', p)
  {
  }

  /** Reading about any pods: only caches may change. */
  predicate Surveyed(s: System, s': System) {
    && s' == s.(dbs := s'.dbs, pending := s'.pending, gateway := s'.gateway, nodes := s'.nodes,
                confirmed := s'.confirmed, relisted := s'.relisted)
    && Undisturbed(s.(nodes := s'.nodes, confirmed := s'.confirmed, relisted := s'.relisted), s')
    && s'.nodes.Keys == s.nodes.Keys && forall q | q in s.nodes :: s'.nodes[q].ip == s.nodes[q].ip
  }

  lemma SurveyedBy(s: System, s': System, s'': System, p: Pod)
    requires Surveyed(s, s') && (Observed(s', s'', p) || Undisturbed(s', s''))
    ensures Surveyed(s, s'')
  {
  }

  lemma SurveyedTransitive(s: System, s': System, s'': System)
    requires Surveyed(s, s') && Surveyed(s', s'')
    ensures Surveyed(s, s'')
  {
  }

  lemma SelfSurveyed(s: System)
    ensures Surveyed(s, s)
  {
  }

  /** The checks of executeFailoverInternal on the replica list: the first row of the complement is
      strict, and every row is ready. */
  predicate GatePasses(list: seq<ReplicaInfo>, o: Pod) {
    && (exists k | 0 <= k < |list| ::
          list[k].name == o && list[k].mode == StrictSync && forall i | 0 <= i < k :: list[i].name != o)
    && forall r | r in list :: Ready(r)
  }

  /** Every pod of `known` but t is in the informer cache, ready or on its way out. */
  predicate ReplicasUp(known: set<Pod>, t: Pod, pods: Pods) {
    forall p | p in known && p != t :: p in pods && (PodReady(pods[p]) || pods[p].terminating)
  }

  /** All pods are ready as far as the gateway is concerned. */
  predicate AllUp(s: System, t: Pod, pods: Pods) {
    t in pods && PodReady(pods[t]) && ReplicasUp(s.nodes.Keys, t, pods)
  }

  /** What keeps a pass without faults from opening the gateway to a ready target. */
  predicate GatewayRefused(s: System, t: Pod) {
    t in s.nodes &&
    (s.nodes[t].ip == "" || CachedRole(s, t) == Some(Replica) || !ClusterHealthy(s.nodes[t].replicas))
  }

  /** At the end of a pass without faults over ready pods, the gateway leads to the target, unless the
      cluster is not healthy. */
  predicate GatewayDecided(s: System, ok: bool) {
    && s.mem.Some? && s.mem.value in s.nodes
    && if ok then s.gateway == s.mem else !ClusterHealthy(s.nodes[s.mem.value].replicas)
  }

  /** The target is pod o, in memory and in the ConfigMap; it is known to be main, and the gateway leads to
      it unless it has no address. */
  predicate Moved(s: System, o: Pod) {
    && s.mem == s.persisted == Some(o) && CachedRole(s, o) == Some(Main) && o in s.nodes
    && s.gateway == if s.nodes[o].ip == "" then None else Some(o)
  }

  /** A direct check finds the pod ready and cached as main. */
  predicate SeenAsMain(s: System, t: Pod, pods: Pods) {
    t in pods && pods[t].ip != "" && PodReady(pods[t]) && CachedRole(s, t) == Some(Main)
  }

  /** Kubernetes and the last-chance ping both say that the pod is there. */
  predicate CanTakeOver(o: Pod, pods: Pods) {
    o in pods && pods[o].ip != "" && PodReady(pods[o]) && pods[o].answersPing
  }

  /** What makes a failover away from t refuse without any query or command failing. */
  predicate FailoverRefused(s: System, t: Pod, pods: Pods)
    requires t <= 1
  {
    var o := Other(t);
    || o !in pods || pods[o].ip == "" || !PodReady(pods[o]) || !pods[o].answersPing
    || o !in s.nodes || s.nodes[o].ip == "" || t !in s.nodes
    || CachedRole(s, t) == Some(Replica) || !GatePasses(s.nodes[t].replicas, o)
  }

  class Controller {
    var s: System
    ghost var states: seq<System>
    ghost var steps: seq<Step>
    ghost var faults: nat   // commands and queries that reported an error so far

    ghost predicate Valid()
      reads `s, `states, `steps
    {
      && Recorded() && SafeRun(states, steps)
      && Inv(s) && ConfirmedTrue(s)
    }

    /** What happened so far is a run of the machine. */
    ghost predicate Recorded()
      reads `s, `states, `steps
    {
      Run(states, steps) && states[|steps|] == s
    }

    constructor (initial: System)
      requires Init(initial)
      ensures Valid() && s == initial && faults == 0
    {
      s := initial;
      states := [initial];
      steps := [];
      faults := 0;
      InitInv(initial);
    }

    method Take(st: Step)
      requires Valid() && Enabled(s, st) && Safe(s, st)
      modifies this
      ensures Valid() && s == Apply(old(s), st) && faults == old(faults)
      ensures !LostCommand(st) ==> RolesKept(old(s), s)
    {
      hide Inv, Enabled, Apply, RoleTrue, ConfirmedTrue, Safe, LostCommand, Run, SafeRun;
      ghost var before := s;
      s := Apply(s, st);
      RunExtends(states, steps, st, s);
      states := states + [s];
      steps := steps + [st];
      StepKeeps(before, st, s);
      ConfirmedKept(before, st, s);
      if !LostCommand(st) {
        RolesKeptBy(before, st, s);
      }
    }

    /** Any number of steps of the environment. */
    method Interfere()
      requires Valid()
      modifies this
      ensures Valid() && Undisturbed(old(s), s) && faults == old(faults)
      ensures RolesKept(old(s), s)
    {
      var n: nat := *;
      hide Inv, Next, RoleTrue, ConfirmedTrue, Run, SafeRun;
      while n > 0
        invariant Valid() && Undisturbed(old(s), s) && faults == old(faults)
        invariant RolesKept(old(s), s)
      {
        var st: Step := *;
        if Interference(st) && Enabled(s, st) {
          ghost var before := s;
          Take(st);
          assert Next(before, st, s) by { NextOf(before, st, s); }
          InterferenceUndisturbed(before, st, s);
        }
        n := n - 1;
      }
    }

    lemma Facts()
      requires Valid()
      ensures Shape(s) && Routed(s) && ModesRight(s) && ConfirmedTrue(s)
    {
    }

    // -- memgraph_node.go ------------------------------------------------------------------------

    method ReadRoleNow(p: Pod)
      requires Valid() && MayReadRole(s, p)
      modifies this
      ensures Valid() && RolesKept(old(s), s) && faults == old(faults)
      ensures MayReadRole(old(s), p) && s == AfterReadRole(old(s), p)
    {
      hide Valid, RoleTrue;
      Take(ReadRole(p));
    }

    method ListNow(p: Pod, list: seq<ReplicaInfo>)
      requires Valid() && p in s.nodes && p in s.dbs && s.nodes[p].role == Some(Main)
      requires s.dbs[p].role == Main && Truthful(s, p, list)
      modifies this
      ensures Valid() && RolesKept(old(s), s) && faults == old(faults)
      ensures p in old(s).nodes && s == AfterList(old(s), p, list) && Truthful(s, p, list)
    {
      hide Valid, RoleTrue;
      Take(ListReplicas(p, list));
    }

    /** The cached role, read from the instance first if it is unknown or a refresh is asked for. */
    method GetReplicationRole(p: Pod, refresh: bool) returns (role: Option<Role>, ok: bool)
      requires Valid() && p in s.nodes && (refresh ==> MayReadRole(s, p))
      modifies this
      ensures Valid() && RolesKept(old(s), s)
      ensures ok ==> faults == old(faults) && role.Some? && role == CachedRole(s, p)
      ensures !ok ==> faults > old(faults) && s == old(s)
      ensures p in old(s).dbs && (s == old(s) || s == AfterReadRole(old(s), p))
      ensures ok && (refresh || old(s).nodes[p].role.None?) ==> s == AfterReadRole(old(s), p) && RoleTrue(s, p)
      ensures !refresh && old(s).nodes[p].role.Some? ==> ok && s == old(s)
    {
      hide Valid;
      Facts();
      if s.nodes[p].role.None? || refresh {
        var answered: bool := *;
        if s.nodes[p].ip == "" || !answered {
          faults := faults + 1;
          return s.nodes[p].role, false;
        }
        ReadRoleNow(p);
      }
      return s.nodes[p].role, true;
    }

    /** The cached replica list of a main, read from the instance first if it is not valid or a
        refresh is asked for. */
    method GetReplicas(p: Pod, refresh: bool) returns (list: seq<ReplicaInfo>, ok: bool)
      requires Valid() && p in s.nodes && (refresh ==> MayReadRole(s, p))
      modifies this
      ensures Valid() && RolesKept(old(s), s)
      ensures Observed(old(s), s, p)
      ensures ok ==> faults == old(faults) && CachedRole(s, p) == Some(Main) && s.nodes[p].hasReplicas
      ensures ok ==> list == s.nodes[p].replicas
      ensures ok && refresh ==> p in s.dbs && Truthful(s, p, list) && (s.mem == Some(p) ==> s.relisted)
      ensures faults >= old(faults)
      ensures !ok && faults == old(faults) ==> CachedRole(s, p) == Some(Replica)
      ensures refresh && faults == old(faults) ==> RoleTrue(s, p)
      ensures !refresh && old(s).nodes[p].role.Some? ==> CachedRole(s, p) == old(s).nodes[p].role
    {
      hide Valid, RoleTrue, Truthful, Observed, Undisturbed;
      var role;
      role, ok := GetReplicationRole(p, refresh);
      ReadingObserves(old(s), p);
      if !ok || role != Some(Main) {
        assert ok ==> role.value == Replica;
        return s.nodes[p].replicas, false;
      }
      ghost var s1 := s;
      Interfere();
      ObservedTransitive(old(s), s1, s, p);
      UndisturbedNodes(s1, s);
      ghost var s2 := s;
      if !s.nodes[p].hasReplicas || refresh {
        var answer: seq<ReplicaInfo> := *;
        if s.nodes[p].ip == "" || p !in s.dbs || s.dbs[p].role != Main || !Truthful(s, p, answer) {
          faults := faults + 1;
          return s.nodes[p].replicas, false;
        }
        ListNow(p, answer);
        ListingObserves(s2, p, answer);
        ObservedTransitive(old(s), s2, s, p);
      }
      return s.nodes[p].replicas, true;
    }

    /** SET REPLICATION ROLE TO MAIN. An error leaves the instance as it was, or promoted unnoticed. */
    method SetToMainRole(p: Pod) returns (ok: bool)
      requires Valid() && MayPromote(s, p)
      modifies this
      ensures Valid() && MayPromote(old(s), p)
      ensures ok ==> faults == old(faults) && s == AfterPromote(old(s), p, Acknowledged)
      ensures !ok ==> faults > old(faults) && (s == old(s) || s == AfterPromote(old(s), p, Lost))
    {
      hide Valid, RoleTrue;
      var effect: bool, reported: bool := *, *;
      if s.nodes[p].ip != "" && effect {
        Take(Promote(p, if reported then Acknowledged else Lost));
        ok := reported;
      } else {
        ok := false;
      }
      faults := if ok then faults else faults + 1;
    }

    /** SET REPLICATION ROLE TO REPLICA. */
    method SetToReplicaRole(p: Pod) returns (ok: bool)
      requires Valid() && MayDemote(s, p)
      modifies this
      ensures Valid() && MayDemote(old(s), p)
      ensures ok ==> faults == old(faults) && s == AfterDemote(old(s), p, Acknowledged)
      ensures ok ==> RolesKept(old(s), s) && RoleTrue(s, p)
      ensures !ok ==> faults > old(faults) && (s == old(s) || s == AfterDemote(old(s), p, Lost))
    {
      hide Valid, RolesKept;
      var effect: bool, reported: bool := *, *;
      if s.nodes[p].ip != "" && effect {
        Take(Demote(p, if reported then Acknowledged else Lost));
        ok := reported;
      } else {
        ok := false;
      }
      faults := if ok then faults else faults + 1;
    }

    /** REGISTER REPLICA on the main i. */
    method RegisterReplica(i: Pod, j: Pod, mode: Mode) returns (ok: bool)
      requires Valid() && MayRegister(s, i, j) && mode == ModeFor(i, j)
      modifies this
      ensures Valid() && MayRegister(old(s), i, j)
      ensures ok ==> faults == old(faults) && s == AfterRegister(old(s), i, j, mode, Acknowledged)
      ensures ok ==> RolesKept(old(s), s)
      ensures !ok ==> faults > old(faults) && (s == old(s) || s == AfterRegister(old(s), i, j, mode, Lost))
    {
      hide Valid, RoleTrue;
      var effect: bool, reported: bool := *, *;
      if s.nodes[i].ip != "" && effect {
        Take(Register(i, j, mode, if reported then Acknowledged else Lost));
        ok := reported;
      } else {
        ok := false;
      }
      faults := if ok then faults else faults + 1;
    }

    /** DROP REPLICA on the main i; the cached rows of that name go too. */
    method DropReplica(i: Pod, j: Pod) returns (ok: bool)
      requires Valid() && MayDrop(s, i, j)
      modifies this
      ensures Valid() && MayDrop(old(s), i, j)
      ensures ok ==> faults == old(faults) && s == AfterDrop(old(s), i, j, Acknowledged)
      ensures !ok ==> faults > old(faults) && (s == old(s) || s == AfterDrop(old(s), i, j, Lost))
      ensures s.nodes == old(s).nodes
    {
      hide Valid, RoleTrue;
      var effect: bool, reported: bool := *, *;
      WithoutAbsent(s.nodes[i].replicas, j);
      if s.nodes[i].ip != "" && effect {
        Take(Drop(i, j, if reported then Acknowledged else Lost));
        ok := reported;
      } else {
        ok := false;
      }
      faults := if ok then faults else faults + 1;
    }

    // -- The target index (controller_core.go) ---------------------------------------------------

    /** The index in memory, loaded from the ConfigMap the first time. A stored index that cannot be
        read, or not be parsed, looks like a missing one. */
    method GetTargetMainIndex() returns (t: Pod, ok: bool)
      requires Valid()
      modifies this
      ensures Valid() && RolesKept(old(s), s)
      ensures ok ==> t <= 1 && s == old(s).(mem := Some(t)) && Target(old(s)) == Some(t) && faults == old(faults)
      ensures !ok ==> s == old(s) && s.mem.None?
      ensures !ok ==> faults == if s.persisted.None? then old(faults) else old(faults) + 1
    {
      hide Valid, RoleTrue;
      Facts();
      if s.mem.Some? {
        return s.mem.value, true;
      }
      if s.persisted.None? {
        return 0, false;
      }
      var readable: bool := *;
      if !readable {
        faults := faults + 1;
        return 0, false;
      }
      Take(LoadTarget);
      return s.mem.value, true;
    }

    /** ConfigMap first, then memory. A lost write has changed the ConfigMap only. */
    method SetTargetMainIndex(i: Pod) returns (ok: bool)
      requires Valid() && MayPersist(s, i)
      modifies this
      ensures Valid()
      ensures ok ==> s == AfterTarget(old(s), i, Acknowledged) && faults == old(faults)
      ensures !ok ==> faults > old(faults) && (s == old(s) || s == AfterTarget(old(s), i, Lost))
    {
      hide Valid, RoleTrue;
      var effect: bool, reported: bool := *, *;
      var out := if reported then Acknowledged else Lost;
      if effect {
        Take(PersistTarget(i, out));
        ok := reported;
      } else {
        ok := false;
      }
      faults := if ok then faults else faults + 1;
    }

    // -- queue_failover.go -----------------------------------------------------------------------

    /** Ready in Kubernetes, known to the controller, and its role cached or readable. */
    method GetHealthyRole(p: Pod, pods: Pods) returns (role: Option<Role>, healthy: bool)
      requires Valid()
      modifies this
      ensures Valid() && RolesKept(old(s), s)
      ensures healthy ==> p in s.nodes && role.Some? && role == CachedRole(s, p)
      ensures healthy ==> p in pods && pods[p].ip != "" && PodReady(pods[p])
      ensures healthy ==> role == CachedRole(old(s), p) || (p in s.dbs && role.value == s.dbs[p].role)
      ensures Observed(old(s), s, p)
      ensures faults >= old(faults)
      ensures p in pods && pods[p].ip != "" && PodReady(pods[p]) && p in old(s).nodes ==>
                if old(s).nodes[p].role.Some? then healthy && faults == old(faults) && s == old(s)
                else healthy || faults > old(faults)
    {
      hide Valid, RoleTrue, Observed;
      if p !in pods || pods[p].ip == "" || !PodReady(pods[p]) || p !in s.nodes {
        assert Observed(s, s, p) by { SelfObserved(s, p); }
        return None, false;
      }
      role, healthy := GetReplicationRole(p, false);
      ReadingObserves(old(s), p);
    }

    /** The checks of executeFailoverInternal on the replica list. */
    method CheckGate(list: seq<ReplicaInfo>, o: Pod) returns (open: bool)
      ensures open <==> GatePasses(list, o)
      ensures open ==> ListsReady(list, o)
    {
      var k := 0;
      while k < |list| && list[k].name != o
        invariant 0 <= k <= |list| && forall i | 0 <= i < k :: list[i].name != o
      {
        k := k + 1;
      }
      if k == |list| || list[k].mode != StrictSync {
        return false;
      }
      assert list[k] in list;
      if list[k].info.None? || list[k].info.value.status != "ready" {
        return false;
      }
      for i := 0 to |list|
        invariant forall r | r in list[..i] :: Ready(r)
      {
        assert list[i] in list;
        if list[i].info.None? || list[i].info.value.status != "ready" {
          return false;
        }
      }
      assert list[..|list|] == list;
      assert StrictReady(list[k], o);
      return true;
    }

    /** Promotes the complement and verifies the promotion with a query. */
    method PromoteSyncReplica(o: Pod) returns (ok: bool)
      requires Valid() && MayPromote(s, o)
      modifies this
      ensures old(s).dbs.Keys <= s.dbs.Keys
      ensures Valid() && s.failing && s.gateway.None?
      ensures s.known == old(s.known)
      ensures s.mem == old(s.mem) && s.persisted == old(s.persisted)
      ensures s.nodes.Keys == old(s.nodes).Keys && forall q | q in s.nodes && q != o :: s.nodes[q] == old(s.nodes)[q]
      ensures o in s.nodes && s.nodes[o].ip == old(s.nodes)[o].ip
      ensures ok ==> o in s.dbs && CachedRole(s, o) == Some(Main) && s.dbs[o].role == Main
      ensures faults >= old(faults) && (!ok ==> faults > old(faults))
    {
      hide Valid, RoleTrue;
      ok := SetToMainRole(o);
      Facts();
      if !ok {
        return;
      }
      Interfere();
      var role;
      role, ok := GetReplicationRole(o, false);
      Facts();
      ok := ok && role == Some(Main);
    }

    /** The first half: decide whether a failover is safe. Nothing but caches changes. */
    method FailoverIsSafe(t: Pod, pods: Pods) returns (role: Option<Role>, safe: bool)
      requires Valid() && s.mem == Some(t) && t <= 1 && !s.failing
      modifies this
      ensures old(s).dbs.Keys <= s.dbs.Keys
      ensures s.known == old(s.known) && s.nodes.Keys == old(s.nodes).Keys
      ensures Valid() && s.mem == old(s.mem) && s.persisted == old(s.persisted) && !s.failing
      ensures s.gateway == old(s.gateway) || s.gateway.None?
      ensures safe ==> GateOpen(s, t) && Other(t) in s.nodes && role.Some? && role == CachedRole(s, Other(t))
      ensures safe ==> GatePasses(s.nodes[t].replicas, Other(t)) && CanTakeOver(Other(t), pods)
      ensures safe ==> role == CachedRole(old(s), Other(t))
                       || (Other(t) in s.dbs && role.value == s.dbs[Other(t)].role)
      ensures faults >= old(faults) && (!safe && faults == old(faults) ==> FailoverRefused(s, t, pods))
      ensures Surveyed(old(s), s) && RolesKept(old(s), s)
      ensures CachedRole(old(s), t) == Some(Replica) ==> !safe
    {
      hide Valid, RoleTrue, Surveyed;
      SelfSurveyed(s);
      var o := Other(t);
      Interfere();
      SurveyedBy(old(s), old(s), s, t);
      ghost var s0 := s;
      role, safe := GetHealthyRole(o, pods);
      SurveyedBy(old(s), s0, s, o);
      if !safe || t !in s.nodes {
        return None, false;
      }
      ghost var s2 := s;
      Interfere();
      SurveyedBy(old(s), s2, s, t);
      ghost var s3 := s;
      var replicas;
      replicas, safe := GetReplicas(t, false);
      SurveyedBy(old(s), s3, s, t);
      if !safe || o !in s.nodes {
        return None, false;
      }
      safe := CheckGate(replicas, o);
      if !safe {
        return None, false;
      }
      if s.nodes[o].ip == "" || !pods[o].answersPing {   // the last-chance ping
        return None, false;
      }
      ghost var s1 := s;
      Interfere();
      SurveyedBy(old(s), s1, s, t);
      UndisturbedRoles(s1, s, t);
    }

    method CloseForFailover(t: Pod)
      requires Valid() && s.mem == Some(t) && GateOpen(s, t)
      modifies this
      ensures Valid() && s == old(s).(gateway := None, failing := true) && faults == old(faults)
    {
      hide Valid, RoleTrue;
      Take(BeginFailover);
    }

    /** The last action of a failover: the new upstream, if there is one. That the failover has ended is
        bookkeeping, so nothing comes between. */
    method EndFailoverAt(upstream: Option<Pod>)
      requires Valid() && (upstream.Some? ==> s.mem == upstream)
      modifies this
      ensures Valid() && faults == old(faults)
      ensures s == old(s).(failing := false, gateway := if upstream.Some? then upstream else old(s.gateway))
    {
      hide Valid, RoleTrue;
      Take(EndFailover);
      if upstream.Some? {
        Take(OpenGateway(upstream.value));
      }
    }

    /** Disconnects the clients and stops accepting new ones; then promotes the complement unless it is
        a main already. */
    method CloseAndPromote(t: Pod, role: Option<Role>) returns (ok: bool)
      requires Valid() && s.mem == Some(t) && t <= 1 && GateOpen(s, t)
      requires Other(t) in s.nodes && role.Some? && role == CachedRole(s, Other(t))
      modifies this
      ensures Valid() && s.failing && s.gateway.None? && faults >= old(faults)
      ensures old(s).dbs.Keys <= s.dbs.Keys && s.nodes.Keys == old(s.nodes).Keys
      ensures s.mem == old(s.mem) && s.persisted == old(s.persisted) && s.known == old(s.known)
      ensures ok ==> GateOpen(s, t) && CachedRole(s, Other(t)) == Some(Main)
      ensures !ok ==> faults > old(faults)
      ensures ok && Other(t) in old(s.dbs) && (role == Some(Main) ==> old(s.dbs)[Other(t)].role == Main)
              ==> Other(t) in s.dbs && s.dbs[Other(t)].role == Main
    {
      hide Valid, RoleTrue, Enabled, Apply, GateOpen, ModesRight, ConfirmedTrue, Routed;
      CloseForFailover(t);
      assert GateOpen(s, t) by { GateFrame(old(s), s, t); }
      ghost var s1 := s;
      Interfere();
      Facts();
      assert GateOpen(s, t) by { GateFrame(s1, s, t); }
      ghost var s2 := s;
      ok := true;
      if role != Some(Main) {
        assert role.value == Replica;
        ok := PromoteSyncReplica(Other(t));
        assert GateOpen(s, t) by { GateFrame(s2, s, t); }
      }
    }

    /** The second half: close the gateway, promote unless already main, move the target, reopen. */
    method SwitchTarget(t: Pod, role: Option<Role>) returns (ok: bool)
      requires Valid() && s.mem == Some(t) && t <= 1 && GateOpen(s, t)
      requires Other(t) in s.nodes && role.Some? && role == CachedRole(s, Other(t))
      modifies this
      ensures old(s).dbs.Keys <= s.dbs.Keys
      ensures s.known == old(s.known) && s.nodes.Keys == old(s.nodes).Keys
      ensures Valid() && !s.failing && faults >= old(faults)
      ensures ok ==> var o := Other(t);
                s.mem == s.persisted == Some(o) && CachedRole(s, o) == Some(Main)
                && o in s.nodes && s.gateway == if s.nodes[o].ip == "" then None else Some(o)
      ensures ok && Other(t) in old(s.dbs) && (role == Some(Main) ==> old(s.dbs)[Other(t)].role == Main)
              ==> Other(t) in s.dbs && s.dbs[Other(t)].role == Main
      ensures !ok ==> s.mem == Some(t) && s.gateway.None? && faults > old(faults)
    {
      hide Valid, RoleTrue, Enabled, Apply, GateOpen;
      var o := Other(t);
      ok := CloseAndPromote(t, role);
      if ok {
        ghost var s1 := s;
        Interfere();
        UndisturbedRoles(s1, s, t);
        ok := SetTargetMainIndex(o);
      }
      Interfere();
      EndFailoverAt(if ok && s.nodes[o].ip != "" then Some(o) else None);
    }

    /** The whole failover. Success: the target has moved to the complement, in memory and in the
        ConfigMap; the complement is known to be main; the gateway leads to it, unless it has no
        address. Any error: the target in memory has not moved and the gateway is as before or
        closed. The ConfigMap has then moved only if its write was lost. */
    method ExecuteFailover(pods: Pods) returns (ok: bool)
      requires Valid() && !s.failing
      modifies this
      ensures old(s).dbs.Keys <= s.dbs.Keys
      ensures s.known == old(s.known) && s.nodes.Keys == old(s.nodes).Keys
      ensures Valid() && !s.failing && faults >= old(faults)
      ensures ok ==> Target(old(s)).Some? && Target(old(s)).value <= 1
      ensures ok ==> var o := Other(Target(old(s)).value);
                s.mem == s.persisted == Some(o) && CachedRole(s, o) == Some(Main)
                && o in s.nodes && s.gateway == if s.nodes[o].ip == "" then None else Some(o)
      ensures ok ==> var o := Other(Target(old(s)).value);
                CachedRole(old(s), o) == Some(Main) || (o in s.dbs && s.dbs[o].role == Main)
      ensures ok ==> CanTakeOver(Other(Target(old(s)).value), pods)
      ensures !ok ==> Target(s) == Target(old(s)) && (old(s.mem).Some? ==> s.mem == old(s.mem))
      ensures !ok ==> s.gateway == old(s.gateway) || s.gateway.None?
      ensures !ok && s.persisted != old(s.persisted) ==> faults > old(faults) && s.gateway.None?
      ensures !ok && faults == old(faults) ==>
                Target(old(s)).None? || (s.mem.Some? && s.mem.value <= 1 && FailoverRefused(s, s.mem.value, pods))
      ensures old(s.mem).Some? && CachedRole(old(s), old(s.mem).value) == Some(Replica) ==>
                !ok && Surveyed(old(s), s) && RolesKept(old(s), s)
    {
      hide Valid, RoleTrue, Enabled, Apply, GateOpen;
      var t;
      t, ok := GetTargetMainIndex();
      if !ok {
        return;
      }
      var role;
      role, ok := FailoverIsSafe(t, pods);
      if !ok {
        return;
      }
      Facts();
      ok := SwitchTarget(t, role);
    }

    /** Decides whether to fail over at all. Events raised by health checks never do: the branch
        returns without an error and without a failover whether or not the ping fails. Success in any
        other case means that the target has moved, or that a direct check saw it ready and main, in which
        case it stays; an error without faults means that the failover was refused. */
    method PerformFailoverCheck(reason: Option<string>, pods: Pods) returns (ok: bool)
      requires Valid() && !s.failing
      modifies this
      ensures old(s).dbs.Keys <= s.dbs.Keys
      ensures s.known == old(s.known) && s.nodes.Keys == old(s.nodes).Keys
      ensures Valid() && !s.failing && faults >= old(faults)
      ensures s.gateway == old(s.gateway) || s.gateway.None? || s.gateway == s.mem
      ensures if Target(old(s)).None? then s == old(s) else Target(s).Some?
      ensures reason == Some("health-check-failure") ==>
                if ok then s == old(s).(mem := Target(old(s)))
                else s == old(s) && (Target(s).Some? ==> faults > old(faults))
      ensures ok && reason != Some("health-check-failure") ==>
                && Target(old(s)).Some? && Target(old(s)).value <= 1
                && var t := Target(old(s)).value;
                || (Moved(s, Other(t)) && CanTakeOver(Other(t), pods))
                || (reason.None? && s.mem == Some(t) && SeenAsMain(s, t, pods))
      ensures !ok && faults == old(faults) && Target(old(s)).Some? ==>
                && s.mem == Target(old(s)) && s.mem.value <= 1 && FailoverRefused(s, s.mem.value, pods)
      ensures reason.None? && old(s.mem).Some? && SeenAsMain(old(s), old(s.mem).value, pods) ==>
                ok && s.mem == old(s.mem) && s.persisted == old(s.persisted)
      ensures reason.None? && old(s.mem).Some? && MainReady(old(s), pods) ==>
                faults > old(faults) || (Surveyed(old(s), s) && RolesKept(old(s), s))
    {
      hide Valid, RoleTrue, Surveyed, RolesKept, FailoverRefused, MainReady;
      var t;
      t, ok := GetTargetMainIndex();
      if !ok {
        return;
      }
      if reason == Some("health-check-failure") {
        return true;
      }
      ghost var s1 := s;
      if reason.None? {
        var fine := DirectCheck(t, pods);
        if fine {
          return true;
        }
      }
      ghost var s2 := s;
      ok := ExecuteFailover(pods);
      if reason.None? && old(s.mem).Some? && MainReady(old(s), pods) && faults == old(faults) {
        RolesKeptTransitive(s1, s2, s);
        SurveyedTransitive(s1, s2, s);
      }
    }

    /** The check of a pass: is the target ready, and main as far as the controller knows? */
    method DirectCheck(t: Pod, pods: Pods) returns (fine: bool)
      requires Valid() && s.mem == Some(t) && !s.failing
      modifies this
      ensures Valid() && Surveyed(old(s), s) && RolesKept(old(s), s) && faults >= old(faults)
      ensures s.mem == old(s.mem) && s.persisted == old(s.persisted) && !s.failing && s.known == old(s.known)
      ensures old(s).dbs.Keys <= s.dbs.Keys && s.nodes.Keys == old(s).nodes.Keys
      ensures s.gateway == old(s.gateway) || s.gateway.None?
      ensures fine ==> SeenAsMain(s, t, pods)
      ensures SeenAsMain(old(s), t, pods) ==> fine
      ensures !fine && faults == old(faults) && MainReady(old(s), pods) ==> CachedRole(s, t) == Some(Replica)
    {
      hide Valid, RoleTrue;
      SelfSurveyed(s);
      Interfere();
      SurveyedBy(old(s), old(s), s, t);
      ghost var s1 := s;
      var role, healthy := GetHealthyRole(t, pods);
      SurveyedBy(old(s), s1, s, t);
      fine := healthy && role == Some(Main);
      assert healthy && !fine ==> role.value == Replica;
    }

    // -- controller_reconcile.go -----------------------------------------------------------------

    /** Refresh: new pods get an empty cache, known pods a new address, vanished pods stay. */
    method RefreshNodes(pods: Pods)
      requires Valid() && pods.Keys <= s.dbs.Keys
      modifies this
      ensures Valid() && RolesKept(old(s), s) && faults == old(faults)
      ensures s == AfterRefresh(old(s), map p | p in pods :: pods[p].ip)
      ensures s.known == pods.Keys && s.nodes.Keys == old(s).nodes.Keys + pods.Keys
      ensures forall p | p in pods ::
                s.nodes[p] == if p in old(s).nodes then old(s).nodes[p].(ip := pods[p].ip)
                              else Node(pods[p].ip, None, [], false)
      ensures forall p | p in old(s).nodes && p !in pods :: s.nodes[p] == old(s).nodes[p]
    {
      hide Valid, RoleTrue;
      Take(Refresh(map p | p in pods :: pods[p].ip));
    }

    /** The dual-main check: is any pod but the target cached as main? Unknown roles are queried, and
        pods whose role cannot be read are skipped. */
    method NonTargetMainKnown(t: Pod) returns (found: bool)
      requires Valid()
      modifies this
      ensures Valid() && RolesKept(old(s), s) && Filled(old(s), s) && faults >= old(faults)
      ensures found <==> exists k | k in s.nodes && k != t :: s.nodes[k].role == Some(Main)
      ensures RolesTrue(old(s)) && OthersReplicas(old(s), t) ==> !found
    {
      hide Valid, RoleTrue, Filled, ModesRight, Routed, ConfirmedTrue, Undisturbed;
      assert Filled(s, s) by { FilledReflexive(s); }
      var todo := s.nodes.Keys;
      found := false;
      assert s.nodes.Keys == old(s).nodes.Keys by { FilledKeys(old(s), s); }
      while todo != {}
        invariant Valid() && RolesKept(old(s), s) && Filled(old(s), s) && faults >= old(faults)
        invariant todo <= s.nodes.Keys == old(s).nodes.Keys
        invariant found <==> exists k | k in s.nodes && k !in todo && k != t :: s.nodes[k].role == Some(Main)
        decreases |todo|
      {
        var k :| k in todo;
        ghost var before := s;
        Interfere();
        FilledUndisturbed(old(s), before, s);
        ghost var s1 := s;
        Facts();
        if k != t {
          var role, ok := GetReplicationRole(k, false);
          FillOne(old(s), s1, s, k);
          found := found || (ok && role == Some(Main));
        }
        todo := todo - {k};
      }
      if RolesTrue(old(s)) && OthersReplicas(old(s), t) {
        NoneFound(old(s), s, t);
      }
    }

    /** A pod other than the target is read as replica, or demoted. */
    method EnsureReplicaRole(t: Pod, p: Pod) returns (ok: bool)
      requires Valid() && s.mem == Some(t) && t in s.nodes && p in s.nodes && p != t && s.relisted
      modifies this
      ensures Valid() && PassFrame(old(s), s, t)
      ensures ok ==> faults == old(faults) && p in s.confirmed && RolesKept(old(s), s) && RoleTrue(s, p)
      ensures !ok ==> faults > old(faults)
      ensures t in old(s).dbs && t in s.dbs && s.dbs[t].regs == old(s).dbs[t].regs
    {
      hide Valid, RoleTrue, Enabled, Apply, PassFrame, ConfirmedTrue;
      Facts();
      Interfere();
      PassFrameUndisturbed(old(s), s, t);
      Facts();
      ghost var s1 := s;
      var role;
      role, ok := GetReplicationRole(p, true);
      PassFrameRead(s1, p, t);
      PassFrameTransitive(old(s), s1, s, t);
      if ok && role != Some(Replica) {
        ghost var s2 := s;
        Interfere();
        PassFrameUndisturbed(s2, s, t);
        PassFrameTransitive(old(s), s2, s, t);
        Facts();
        ghost var s3 := s;
        ok := SetToReplicaRole(p);
        PassFrameDemote(s3, p, t);
        PassFrameTransitive(old(s), s3, s, t);
      }
    }

    /** REGISTER REPLICA; a refused registration is dropped, unless the data has diverged. */
    method RegisterOrDrop(t: Pod, p: Pod, mode: Mode, diverged: bool)
      requires Valid() && s.mem == Some(t) && MayRegister(s, t, p) && mode == ModeFor(t, p)
      requires p !in Names(s.nodes[t].replicas)
      modifies this
      ensures Valid() && PassFrame(old(s), s, t) && faults >= old(faults)
      ensures t in old(s).dbs && t in s.dbs
      ensures faults == old(faults) ==> s.dbs[t].regs == old(s).dbs[t].regs[p := mode]
      ensures faults == old(faults) + 1 ==>
                if diverged then s.dbs[t].regs == old(s).dbs[t].regs || s.dbs[t].regs == old(s).dbs[t].regs[p := mode]
                else p !in s.dbs[t].regs
      ensures faults == old(faults) ==> RolesKept(old(s), s)
    {
      hide Valid, RoleTrue, Enabled, Apply, PassFrame, ConfirmedTrue, Undisturbed, RolesKept;
      var ok := RegisterReplica(t, p, mode);
      PassFrameRegister(old(s), t, p, mode);
      if !ok && !diverged {
        ghost var s1 := s;
        DropRefused(t, p);
        PassFrameTransitive(old(s), s1, s, t);
      }
    }

    /** A registration that was refused is dropped. */
    method DropRefused(t: Pod, p: Pod)
      requires Valid() && s.mem == Some(t) && t in s.nodes && t in s.dbs && p !in Names(s.nodes[t].replicas)
      modifies this
      ensures Valid() && PassFrame(old(s), s, t) && t in s.dbs && faults >= old(faults)
      ensures faults == old(faults) ==> p !in s.dbs[t].regs
    {
      hide Valid, RoleTrue, Enabled, Apply, PassFrame, ConfirmedTrue, RolesKept;
      Interfere();
      PassFrameUndisturbed(old(s), s, t);
      ghost var s1 := s;
      var _ := DropReplica(t, p);
      PassFrameDrop(s1, t, p);
      PassFrameTransitive(old(s), s1, s, t);
    }

    /** The two safety checks: no other main is known and no pod is unaccounted for. */
    method SafeToRegister(t: Pod, p: Pod, pods: Pods) returns (safe: bool)
      requires Valid() && s.mem == Some(t) && t <= 1 && t in s.nodes && p in s.nodes && p != t
      requires p in s.confirmed && Other(t) in s.nodes && pods.Keys == s.known && pods.Keys <= s.nodes.Keys
      modifies this
      ensures Valid() && PassFrame(old(s), s, t) && RolesKept(old(s), s) && faults >= old(faults)
      ensures t in old(s).dbs && t in s.dbs && s.dbs[t].regs == old(s).dbs[t].regs
      ensures safe ==> MayRegister(s, t, p)
      ensures RolesTrue(old(s)) && OthersReplicas(old(s), t) && pods.Keys == s.nodes.Keys ==> safe
    {
      hide Valid, RoleTrue, Enabled, Apply, PassFrame, ConfirmedTrue, Filled, Undisturbed, ModesRight, Routed,
           OthersReplicas, RolesTrue, RolesKept;
      Facts();
      var found := NonTargetMainKnown(t);
      Facts();
      PassFrameFilled(old(s), s, t);
      safe := !found && |pods| == |s.nodes|;
      if safe {
        SameSize(pods.Keys, s.nodes.Keys);
      }
    }

    /** Registers a missing replica, unless another main is known or a pod is unaccounted for. */
    method RegisterMissing(t: Pod, p: Pod, pods: Pods)
      requires Valid() && s.mem == Some(t) && t <= 1 && t in s.nodes && p in s.nodes && p != t
      requires p in s.confirmed && p !in Names(s.nodes[t].replicas)
      requires pods.Keys == s.known && pods.Keys <= s.nodes.Keys
      modifies this
      ensures Valid() && PassFrame(old(s), s, t) && faults >= old(faults)
      ensures t in old(s).dbs && t in s.dbs
      ensures faults == old(faults) ==> old(s).dbs[t].regs.Keys <= s.dbs[t].regs.Keys
      ensures faults == old(faults) ==> RolesKept(old(s), s)
      ensures faults == old(faults) && RolesTrue(old(s)) && OthersReplicas(old(s), t)
              && Other(t) in s.nodes && pods.Keys == s.nodes.Keys
              ==> p in s.dbs[t].regs
    {
      hide Valid, RoleTrue, Enabled, Apply, PassFrame, ConfirmedTrue, Filled, ModesRight, Routed, Names,
           OthersReplicas, RolesKept, RolesTrue, MayRegister, Undisturbed;
      Facts();
      ShapeCovers(s, t);
      assert PassFrame(s, s, t) by { PassFrameReflexive(s, t); }
      assert RolesKept(s, s) by { RolesKeptReflexive(s); }
      if Other(t) !in s.nodes {
        return;   // no sync replica node, so the mode cannot be chosen
      }
      var mode := if p == Other(t) then StrictSync else Async;
      var safe := SafeToRegister(t, p, pods);
      PassFrameParts(old(s), s, t);
      if !safe {
        return;
      }
      ghost var s1 := s;
      Interfere();
      RegistrationUndisturbed(s1, s, t, p);
      RolesKeptTransitive(old(s), s1, s);
      PassFrameTransitive(old(s), s1, s, t);
      ghost var s2 := s;
      var diverged: bool := *;   // whether a refusal says so
      RegisterOrDrop(t, p, mode, diverged);
      PassFrameTransitive(old(s), s2, s, t);
      if faults == old(faults) {
        RolesKeptTransitive(old(s), s2, s);
      }
      PassFrameParts(s2, s, t);
    }

    /** One iteration of the reconciliation loop. */
    method ReconcileReplica(t: Pod, listed: set<Pod>, p: Pod, pods: Pods) returns (ready: bool)
      requires Valid() && s.mem == Some(t) && t <= 1 && t in s.nodes && p in s.nodes && p != t && s.relisted
      requires listed == Names(s.nodes[t].replicas) && pods.Keys == s.known && pods.Keys <= s.nodes.Keys
      modifies this
      ensures Valid() && PassFrame(old(s), s, t) && faults >= old(faults)
      ensures t in old(s).dbs && t in s.dbs
      ensures faults == old(faults) ==> old(s).dbs[t].regs.Keys <= s.dbs[t].regs.Keys
      ensures faults == old(faults) ==> RolesKept(old(s), s)
      ensures ready <==> p in pods && (PodReady(pods[p]) || pods[p].terminating)
      ensures faults == old(faults) && p in pods && PodReady(pods[p]) ==>
                p in s.dbs && s.dbs[p].role == Replica && RoleTrue(s, p)
      ensures faults == old(faults) && RolesTrue(old(s)) && OthersReplicas(old(s), t)
              && p in pods && PodReady(pods[p]) && Other(t) in s.nodes && pods.Keys == s.nodes.Keys
              ==> p in listed || p in s.dbs[t].regs
    {
      hide Valid, RoleTrue, Enabled, Apply, PassFrame, ConfirmedTrue;
      Facts();
      assert PassFrame(s, s, t) by { PassFrameReflexive(s, t); }
      if p !in pods || (!PodReady(pods[p]) && !pods[p].terminating) {
        return false;
      }
      ready := true;
      var ok := EnsureReplicaRole(t, p);
      ghost var s1 := s;
      Facts();
      PassFrameParts(old(s), s, t);
      ConfirmedIsReplica(s, p);
      if ok && p !in listed && !pods[p].terminating {
        RegisterMissing(t, p, pods);
        PassFrameTransitive(old(s), s1, s, t);
        PassFrameParts(s1, s, t);
      }
    }

    /** The reconciliation loop over all pods but the target, in whatever order the map yields them. */
    method ReconcileReplicas(t: Pod, pods: Pods) returns (allReady: bool)
      requires Valid() && s.mem == Some(t) && t <= 1 && t in s.nodes && s.relisted
      requires pods.Keys == s.known && pods.Keys <= s.nodes.Keys
      modifies this
      ensures Valid() && PassFrame(old(s), s, t) && faults >= old(faults)
      ensures t in old(s).dbs && t in s.dbs
      ensures allReady <==> ReplicasUp(s.nodes.Keys, t, pods)
      ensures faults == old(faults) ==> RolesKept(old(s), s)
      ensures faults == old(faults) ==> Reconciled(old(s), s, t, pods, s.nodes.Keys)
    {
      hide Valid, RoleTrue, Enabled, Apply, PassFrame, ConfirmedTrue, Reconciled, LoopInv, Names, PodReady,
           OthersReplicas, Shape, Routed, ModesRight;
      ghost var s0, f0 := s, faults;
      Facts();
      ShapeCovers(s0, t);
      LoopStarts(s0, t, pods);
      var listed := Names(s.nodes[t].replicas);
      var todo := s.nodes.Keys - {t};
      ghost var done := {t};
      allReady := true;
      while todo != {}
        invariant Valid() && faults >= f0 && todo + done == s0.nodes.Keys && t !in todo
        invariant LoopInv(s0, s, t, pods, done, faults == f0)
        invariant allReady <==> ReplicasUp(done, t, pods)
        decreases |todo|
      {
        var p :| p in todo;
        LoopFacts(s0, s, t, pods, done, faults == f0);
        ghost var s1, f1 := s, faults;
        var ready := ReconcileReplica(t, listed, p, pods);
        LoopStep(s0, s1, s, t, pods, done, p, f1 == f0, faults == f0, faults == f1);
        allReady := allReady && ready;
        todo := todo - {p};
        done := done + {p};
      }
      assert done == s0.nodes.Keys;
      LoopFacts(s0, s, t, pods, done, faults == f0);
    }

    /** reconcileGateway: open on the target if it is ready, has an address and the cluster is healthy. */
    method ReconcileGateway(t: Pod, pods: Pods) returns (ok: bool)
      requires Valid() && s.mem == Some(t) && t in s.nodes && !s.failing
      modifies this
      ensures Valid() && RolesKept(old(s), s) && faults >= old(faults)
      ensures Observed(old(s).(gateway := s.gateway), s, t)
      ensures s.gateway == old(s.gateway) || s.gateway.None? || s.gateway == Some(t)
      ensures ok ==> s.gateway == Some(t) && t in pods && PodReady(pods[t]) && s.nodes[t].ip != ""
                     && CachedRole(s, t) == Some(Main) && ClusterHealthy(s.nodes[t].replicas)
      ensures !ok && faults == old(faults) && t in pods && PodReady(pods[t]) && s.nodes[t].ip != "" ==>
                CachedRole(s, t) == Some(Replica) || !ClusterHealthy(s.nodes[t].replicas)
    {
      hide Valid, RoleTrue, Observed, Enabled, Apply, ClusterHealthy;
      SelfObserved(s, t);
      Interfere();
      ObservedTransitive(old(s), old(s), s, t);
      ObservedAnyGateway(old(s), s, s.gateway, t);
      if t !in pods || !PodReady(pods[t]) || s.nodes[t].ip == "" {
        return false;
      }
      ghost var s0 := s;
      var replicas;
      replicas, ok := GetReplicas(t, false);
      ObservedTransitive(old(s), s0, s, t);
      ObservedAnyGateway(old(s), s, s.gateway, t);
      if ok {
        ok := CheckHealth(replicas);
      }
      if ok {
        ghost var s1 := s;
        Interfere();
        ObservedTransitive(old(s), s1, s, t);
        ObservedAnyGateway(old(s), s, Some(t), t);
        OpenFor(t);
      }
    }

    method OpenFor(t: Pod)
      requires Valid() && s.mem == Some(t) && !s.failing
      modifies this
      ensures Valid() && RolesKept(old(s), s) && faults == old(faults)
      ensures s == old(s).(gateway := Some(t))
    {
      hide Valid, RoleTrue;
      Take(OpenGateway(t));
    }

    method StartPass(pods: Pods)
      requires Valid() && pods.Keys <= s.dbs.Keys
      modifies this
      ensures Valid() && RolesKept(old(s), s) && faults == old(faults)
      ensures s == AfterRefresh(old(s), map p | p in pods :: pods[p].ip).(confirmed := {})
    {
      hide Valid, RoleTrue;
      RefreshNodes(pods);
      Take(BeginPass);
    }

    /** The pass once the target's replicas are listed: reconcile each, then open the gateway. */
    method ReconcileListed(t: Pod, pods: Pods) returns (ok: bool)
      requires Valid() && s.mem == Some(t) && t <= 1 && t in s.nodes && s.relisted && !s.failing && t in pods
      requires pods.Keys == s.known && pods.Keys <= s.nodes.Keys
      modifies this
      ensures old(s).dbs.Keys <= s.dbs.Keys
      ensures Valid() && !s.failing && faults >= old(faults)
      ensures s.gateway == old(s.gateway) || s.gateway.None? || s.gateway == s.mem
      ensures s.mem == old(s.mem) && s.nodes.Keys == old(s.nodes).Keys
      ensures faults == old(faults) ==> RolesKept(old(s), s)
      ensures s.nodes[t].ip == old(s).nodes[t].ip
      ensures !AllUp(s, t, pods) ==> s.gateway == old(s.gateway) || s.gateway.None?
      ensures AllUp(s, t, pods) && ok ==> s.gateway == Some(t)
      ensures faults == old(faults) && t in pods && !ok ==> GatewayRefused(s, t)
      ensures t in old(s).dbs && t in s.dbs && s.dbs[t].role == old(s).dbs[t].role
      ensures faults == old(faults) ==> Reconciled(old(s), s, t, pods, s.nodes.Keys)
    {
      hide Valid, RoleTrue, Enabled, Apply, Observed, PassFrame, Reconciled, ClusterHealthy, PodReady;
      ghost var s0, f0 := s, faults;
      var ready := ReconcileReplicas(t, pods);
      PassFrameParts(s0, s, t);
      ghost var s1 := s;
      ok := true;
      if ready && PodReady(pods[t]) {
        ok := ReconcileGateway(t, pods);
      } else {
        SelfObserved(s, t);
      }
      ObservedAnyGateway(s1.(gateway := s.gateway), s, s.gateway, t);
      ObservedKnown(s1.(gateway := s.gateway), s, t);
      if faults == f0 {
        ReconciledObserved(s0, s1, s, t, pods, s.nodes.Keys);
      }
    }

    /** The pass once the target is settled. */
    method ReconcileAround(t: Pod, pods: Pods) returns (ok: bool)
      requires Valid() && s.mem == Some(t) && t <= 1 && t in s.nodes && !s.failing
      requires pods.Keys == s.known && pods.Keys <= s.nodes.Keys
      modifies this
      ensures old(s).dbs.Keys <= s.dbs.Keys
      ensures Valid() && !s.failing && faults >= old(faults)
      ensures s.gateway == old(s.gateway) || s.gateway.None? || s.gateway == s.mem
      ensures s.mem == old(s.mem) && s.nodes.Keys == old(s.nodes).Keys
      ensures s.nodes[t].ip == old(s).nodes[t].ip
      ensures !AllUp(s, t, pods) ==> s.gateway == old(s.gateway) || s.gateway.None?
      ensures AllUp(s, t, pods) && ok ==> s.gateway == Some(t)
      ensures faults == old(faults) && t in pods && !ok ==> GatewayRefused(s, t)
      ensures faults == old(faults) && MayConverge(old(s), t, pods) ==> Converged(old(s), s, t, pods)
    {
      hide Valid, RoleTrue, Enabled, Apply, Observed, Reconciled, Truthful, Converged, MayConverge,
           ConfirmedTrue, ModesRight;
      ghost var s0, f0 := s, faults;
      Facts();
      var replicas;
      replicas, ok := GetReplicas(t, true);
      ObservedAnyGateway(s0, s, s.gateway, t);
      ObservedKnown(s0, s, t);
      if MayConverge(s0, t, pods) && faults == f0 {
        MayConvergeParts(s0, t, pods);
        assert RoleTrue(s, t) && s.dbs[t].role == Main && t in s.nodes;
        assert CachedRole(s, t) != Some(Replica) by { TrueMain(s, t); }
      }
      if !ok || t !in pods {
        return false;
      }
      ghost var s1 := s;
      ok := ReconcileListed(t, pods);
      Facts();
      if MayConverge(s0, t, pods) && faults == f0 {
        ConvergedBy(s0, s1, s, t, pods);
      }
    }

    /** The start of a pass: the target is known and the pods are refreshed. */
    method OpenPass(pods: Pods) returns (ok: bool)
      requires Valid() && !s.failing && pods.Keys <= s.dbs.Keys
      modifies this
      ensures Valid() && !s.failing && faults >= old(faults) && old(s).dbs.Keys <= s.dbs.Keys
      ensures s.gateway == old(s.gateway) || s.gateway.None?
      ensures RolesKept(old(s), s)
      ensures !ok ==> s == old(s) && (Target(old(s)).Some? ==> faults > old(faults))
      ensures ok ==> && Target(old(s)).Some? && s.mem == Target(old(s))
                     && s.known == pods.Keys && pods.Keys <= s.nodes.Keys
                     && var t := s.mem.value;
                     && (Settleable(old(s), t, pods) ==> MainReady(s, pods) && MayConverge(s, t, pods))
                     && (PodsReplicas(old(s), t, pods) ==> PodsReplicas(s, t, pods))
    {
      hide Valid, RoleTrue, MainReady, MayConverge, Settleable, PodsReplicas, AfterRefresh, Undisturbed;
      ghost var s0 := s;
      var t;
      t, ok := GetTargetMainIndex();
      if !ok {
        return;
      }
      ghost var loaded := s;
      Interfere();
      UndisturbedNodes(loaded, s);
      ghost var s1 := s;
      StartPass(pods);
      PassBegins(s0, s1, s, t, pods);
    }

    /** The rest of a pass: fail over if the target is not healthy, then reconcile around the target. */
    method ContinuePass(pods: Pods) returns (ok: bool)
      requires Valid() && !s.failing && s.mem.Some? && s.known == pods.Keys && pods.Keys <= s.nodes.Keys
      modifies this
      ensures Valid() && !s.failing && faults >= old(faults) && old(s).dbs.Keys <= s.dbs.Keys
      ensures s.gateway == old(s.gateway) || s.gateway.None? || s.gateway == s.mem
      ensures Target(s).Some?
      ensures faults == old(faults) && MainReady(old(s), pods) && MayConverge(old(s), old(s.mem).value, pods)
              ==> s.mem == old(s.mem) && Converged(old(s), s, s.mem.value, pods) && GatewayDecided(s, ok)
    {
      hide Valid, RoleTrue, Surveyed, Converged, MayConverge, MainReady, PodsReplicas, RolesKept, Undisturbed;
      ghost var s0, f0, t0 := s, faults, s.mem.value;
      ok := PerformFailoverCheck(None, pods);
      Facts();
      ghost var s1 := s;
      if MainReady(s0, pods) && MayConverge(s0, t0, pods) && faults == f0 {
        SelfUndisturbed(s1);
        ConvergenceCarried(s0, s1, s1, t0, pods);
      }
      if s.mem.None? || s.mem.value !in s.nodes {
        return;
      }
      var t := s.mem.value;
      Interfere();
      UndisturbedNodes(s1, s);
      ghost var s2 := s;
      if MainReady(s0, pods) && MayConverge(s0, t0, pods) && faults == f0 {
        ConvergenceCarried(s0, s1, s2, t, pods);
        RolesKeptTransitive(s0, s1, s2);
      }
      ok := ReconcileAround(t, pods);
      if MainReady(s0, pods) && MayConverge(s0, t0, pods) && faults == f0 {
        DecidedByPass(s0, s1, s2, s, t, pods, ok);
        ConvergedFrom(s0, s2, s, t, pods);
      }
    }

    /** One reconciliation pass over a snapshot of the informer cache. An error-free pass that starts
        from a target that really is main ends converged, whatever is cached. */
    method PerformReconciliationActions(pods: Pods) returns (ok: bool)
      requires Valid() && !s.failing && pods.Keys <= s.dbs.Keys
      modifies this
      ensures old(s).dbs.Keys <= s.dbs.Keys
      ensures Valid() && !s.failing && faults >= old(faults)
      ensures s.gateway == old(s.gateway) || s.gateway.None? || s.gateway == s.mem
      ensures if Target(old(s)).None? then s == old(s) else Target(s).Some?
      ensures faults == old(faults) && Target(old(s)).Some? && Settleable(old(s), Target(old(s)).value, pods)
              ==> && s.mem == Target(old(s)) && Converged(old(s), s, s.mem.value, pods)
                  && GatewayDecided(s, ok)
    {
      hide Valid, RoleTrue, Converged, MayConverge, Settleable, MainReady, PodsReplicas, RolesKept;
      ghost var s0, f0 := s, faults;
      ok := OpenPass(pods);
      if !ok {
        return;
      }
      ghost var s1, t := s, s.mem.value;
      ok := ContinuePass(pods);
      if Settleable(s0, t, pods) && faults == f0 {
        ConvergedFrom(s0, s1, s, t, pods);
      }
    }

    /** Whatever mains there were beside the target, two error-free passes leave the target as the only
        main, every other pod a registered replica, and exactly the complement STRICT_SYNC. */
    method ReconcileTwice(pods: Pods)
      requires Valid() && !s.failing && pods.Keys <= s.dbs.Keys
      requires Target(s).Some? && Settleable(s, Target(s).value, pods)
      modifies this
      ensures Valid() && !s.failing && faults >= old(faults)
      ensures faults == old(faults) ==>
                && s.mem == Target(old(s)) && s.mem.value <= 1 && s.mem.value in s.dbs
                && var t := s.mem.value;
                && s.dbs[t].role == Main
                && forall p | p in pods && p != t ::
                     && p in s.dbs && s.dbs[p].role == Replica
                     && p in s.dbs[t].regs && (s.dbs[t].regs[p] == StrictSync <==> p == Other(t))
      ensures faults == old(faults) && s.mem.value in s.nodes && ClusterHealthy(s.nodes[s.mem.value].replicas) ==>
                s.gateway == s.mem
    {
      hide Valid, RoleTrue, Converged, Settleable;
      ghost var s0, f0 := s, faults;
      var _ := PerformReconciliationActions(pods);
      ghost var s1 := s;
      if faults == f0 {
        SettledAgain(s0, s1, pods);
      }
      var _ := PerformReconciliationActions(pods);
      if faults == f0 {
        SettledFinally(s1, s, pods);
      }
    }

    // -- memgraph_cluster.go: discovery and initialisation ---------------------------------------

    /** Reads both eligible pods' roles, pod-0 first. */
    method ReadBothRoles() returns (role0: Option<Role>, role1: Option<Role>, ok: bool)
      requires Valid() && Starting(s)
      modifies this
      ensures Valid() && Starting(s) && SameInstances(old(s), s) && s.persisted == old(s.persisted)
      ensures s.nodes.Keys == old(s).nodes.Keys
      ensures if ok then faults == old(faults) else faults > old(faults)
      ensures ok ==> role0.Some? && role1.Some? && role0 == CachedRole(s, 0) && role1 == CachedRole(s, 1)
      ensures ok ==> 0 in s.dbs && 1 in s.dbs && role0.value == s.dbs[0].role && role1.value == s.dbs[1].role
    {
      hide Valid, RoleTrue, Enabled, Apply;
      Facts();
      role0, ok := GetReplicationRole(0, true);
      role1 := None;
      if ok {
        Interfere();
        Facts();
        role1, ok := GetReplicationRole(1, true);
        Facts();
      }
    }

    /** The first STRICT_SYNC row of pod-1 is ready and has no lag. */
    method SeesLevelReplica(replicas: seq<ReplicaInfo>) returns (ok: bool)
      ensures ok <==> ListsLevel(replicas)
    {
      var k := 0;
      while k < |replicas| && !(replicas[k].name == 1 && replicas[k].mode == StrictSync)
        invariant 0 <= k <= |replicas|
        invariant forall j | 0 <= j < k :: !(replicas[j].name == 1 && replicas[j].mode == StrictSync)
      {
        k := k + 1;
      }
      if k == |replicas| {
        return false;
      }
      var info := replicas[k].info;
      ok := info.Some? && info.value.status == "ready" && info.value.behind == 0;
    }

    /** initializeCluster: demote pod-1, register it STRICT_SYNC on pod-0, and see it ready and level. */
    method InitializeCluster() returns (ok: bool)
      requires Valid() && Starting(s)
      modifies this
      ensures Valid() && Starting(s) && old(s).dbs.Keys <= s.dbs.Keys && faults >= old(faults)
      ensures s.persisted == old(s.persisted)
      ensures ok ==> GateOpen(s, 0) && LevelSeen(s, 0) && 1 in s.confirmed
      ensures ok ==> exists r | r in s.nodes[0].replicas :: StrictReady(r, 1) && r.info.value.behind == 0
      ensures faults == old(faults) ==> PairedUp(s)
      ensures faults == old(faults) && 0 in old(s).dbs && old(s).dbs[0].role == Main ==>
                (ok <==> ListsLevel(s.nodes[0].replicas))
    {
      hide Valid, RoleTrue, Enabled, Apply, Truthful, Observed, PairedUp, Undisturbed, ListsLevel;
      ghost var s0 := s;
      ok := PairPods();
      if !ok {
        return;
      }
      ghost var s1 := s;
      Interfere();
      PairUndisturbed(s1, s);
      ghost var s2 := s;
      var replicas;
      replicas, ok := GetReplicas(0, true);
      StartingObserved(s2, s);
      if faults == old(faults) && 0 in s0.dbs && s0.dbs[0].role == Main {
        TrueMain(s, 0);
      }
      if ok {
        ok := SeesLevelReplica(replicas);
        SeenLevel(s, replicas);
      }
    }

    /** Its first two steps: pod-1 is demoted and registered. */
    method PairPods() returns (ok: bool)
      requires Valid() && Starting(s)
      modifies this
      ensures Valid() && Starting(s) && old(s).dbs.Keys <= s.dbs.Keys && s.persisted == old(s.persisted)
      ensures if ok then faults == old(faults) && PairedUp(s) && 1 in s.confirmed else faults > old(faults)
      ensures 0 in old(s).dbs && old(s).dbs[0].role == Main ==> 0 in s.dbs && s.dbs[0].role == Main
    {
      hide Valid, RoleTrue, Enabled, Apply;
      Interfere();
      Facts();
      ok := SetToReplicaRole(1);
      if !ok {
        return;
      }
      Interfere();
      Facts();
      ok := RegisterReplica(0, 1, StrictSync);
      Facts();
    }

    /** Steps 2 to 4 of discoverClusterState, once both eligible pods are known to be ready. */
    method DiscoverByRoles(storage: Storages) returns (index: Option<Pod>)
      requires Valid() && Starting(s)
      modifies this
      ensures Valid() && Starting(s) && old(s).dbs.Keys <= s.dbs.Keys && faults >= old(faults)
      ensures s.persisted == old(s.persisted)
      ensures index.Some? ==> index.value <= 1
      ensures index.Some? ==>
                || SeenBesideReplica(s, index.value)
                || (Initialised(old(s), s, storage, index.value) && LevelSeen(s, index.value))
      ensures OneMain(old(s)).Some? ==> SameInstances(old(s), s) && s.nodes.Keys == old(s).nodes.Keys
      ensures faults == old(faults) && OneMain(old(s)).Some? ==> index == OneMain(old(s))
      ensures faults == old(faults) && NewCluster(old(s), storage) ==>
                && PairedUp(s) && 0 in s.nodes
                && index == if ListsLevel(s.nodes[0].replicas) then Some(0) else None
    {
      hide Valid, RoleTrue, Enabled, Apply, GateOpen;
      ghost var s0 := s;
      Facts();
      var role0, role1, ok := ReadBothRoles();
      if !ok {
        return None;
      }
      if role0 == Some(Main) && role1 == Some(Main) {
        if 0 !in storage || (Empty(storage[0]) && 1 !in storage) {
          return None;
        }
        if Empty(storage[0]) && Empty(storage[1]) {
          assert s0.dbs[0].role == Main && s0.dbs[1].role == Main;
          ok := InitializeCluster();
          if !ok {
            return None;
          }
          assert Initialised(s0, s, storage, 0);
          return Some(0);
        }
      }
      Interfere();
      role0, role1, ok := ReadBothRoles();
      if ok && role0 == Some(Main) && role1 == Some(Replica) {
        return Some(0);
      }
      if ok && role0 == Some(Replica) && role1 == Some(Main) {
        return Some(1);
      }
      return None;
    }

    /** discoverClusterState: an index is found only if both eligible pods are ready, and the pod was
        last seen as main beside a replica, or both were mains and reported empty, and pod-1 was then
        demoted and seen as a ready strict replica with no lag. Every other state finds none. Without
        faults a single main among two ready pods is found. */
    method DiscoverClusterState(pods: Pods, storage: Storages) returns (index: Option<Pod>)
      requires Valid() && s.mem.None? && !s.failing && pods.Keys <= s.dbs.Keys
      modifies this
      ensures Valid() && s.mem.None? && !s.failing && old(s).dbs.Keys <= s.dbs.Keys && faults >= old(faults)
      ensures s.persisted == old(s.persisted)
      ensures index.Some? ==> index.value <= 1
      ensures index.Some? ==> 0 in pods && PodReady(pods[0]) && 1 in pods && PodReady(pods[1])
      ensures index.Some? ==>
                || SeenBesideReplica(s, index.value)
                || (Initialised(old(s), s, storage, index.value) && LevelSeen(s, index.value))
      ensures faults == old(faults) && OneMain(old(s)).Some?
              && 0 in pods && PodReady(pods[0]) && 1 in pods && PodReady(pods[1])
              ==> index == OneMain(old(s))
      ensures OneMain(old(s)).Some? ==> SameInstances(old(s), s) && s.nodes.Keys == old(s).nodes.Keys + pods.Keys
      ensures faults == old(faults) && NewCluster(old(s), storage)
              && 0 in pods && PodReady(pods[0]) && 1 in pods && PodReady(pods[1]) ==>
                && PairedUp(s) && 0 in s.nodes
                && index == if ListsLevel(s.nodes[0].replicas) then Some(0) else None
    {
      hide Valid, RoleTrue, Enabled, Apply, LevelSeen;
      RefreshNodes(pods);
      if 0 !in pods || !PodReady(pods[0]) || 1 !in pods || !PodReady(pods[1]) {
        return None;
      }
      index := DiscoverByRoles(storage);
    }

    /** Discovery's SetTargetMainIndex. The code does not look at what it overwrites: if that is not Safe
        and the write takes effect, the history is a safe run followed by this one step. */
    method StoreDiscovered(i: Pod) returns (ok: bool, strayed: bool)
      requires Valid() && i <= 1
      modifies this
      ensures if strayed then Strayed() && faults >= old(faults) && !MayAdopt(old(s), i, Acknowledged) else Valid()
      ensures strayed ==>
                s == AfterTarget(old(s), i, if ok then Acknowledged else Lost) && (ok <==> faults == old(faults))
      ensures !strayed && ok ==> s == AfterTarget(old(s), i, Acknowledged) && faults == old(faults)
      ensures !strayed && !ok ==> faults > old(faults) && (s == old(s) || s == AfterTarget(old(s), i, Lost))
    {
      hide Inv, RoleTrue, ConfirmedTrue, Run, SafeRun, Next, LevelSeen, GateList;
      var effect: bool, reported: bool := *, *;
      ok, strayed := effect && reported, false;
      if effect {
        var step := Adopt(i, if reported then Acknowledged else Lost);
        if Safe(s, step) {
          Take(step);
        } else {
          strayed := true;
          s := Apply(s, step);
          RunExtends(states, steps, step, s);
          states := states + [s];
          steps := steps + [step];
          assert states[..|steps|] == old(states) && steps[..|steps| - 1] == old(steps);
        }
      }
      faults := if ok then faults else faults + 1;
    }

    /** The history is a safe run up to its last step, an adoption that was not Safe. */
    ghost predicate Strayed()
      reads `s, `states, `steps
    {
      && Recorded() && |steps| > 0
      && SafeRun(states[..|steps|], steps[..|steps| - 1])
      && steps[|steps| - 1].Adopt? && !Safe(states[|steps| - 1], steps[|steps| - 1])
    }

    /** Any number of whole operations of the other goroutines: passes, failover events, status requests,
        and bursts of outside activity, with any informer snapshots. */
    method OtherOperations(rounds: nat)
      requires Valid() && !s.failing
      modifies this
      ensures Valid() && !s.failing && faults >= old(faults) && old(s).dbs.Keys <= s.dbs.Keys
      ensures Target(old(s)).None? <==> Target(s).None?
      ensures rounds == 0 ==> s == old(s)
    {
      hide Valid, RoleTrue, Observed;
      for i := 0 to rounds
        invariant Valid() && !s.failing && faults >= old(faults) && old(s).dbs.Keys <= s.dbs.Keys
        invariant Target(old(s)).None? <==> Target(s).None?
        invariant i == 0 ==> s == old(s)
      {
        var pods: Pods, p: Pod := *, *;
        var choice: int := *;
        if choice == 0 {
          Interfere();
        } else if choice == 1 && p in s.nodes {
          ghost var before := s;
          QueryStatus(p);
          ObservedKnown(before, s, p);
        } else if choice == 2 && pods.Keys <= s.dbs.Keys {
          var _ := PerformReconciliationActions(pods);
        } else {
          var reason: string := *;
          var _ := PerformFailoverCheck(Some(reason), pods);
        }
      }
    }

    /** The discovery branch of a tick. It holds no lock, so other operations, `overlap` of them, may come
        between discovery and the write of what it found. Without faults the single main of two ready
        pods is stored, and so is pod-0 of a new cluster once it lists pod-1 level; until then nothing is. */
    method DiscoverAndStore(pods: Pods, storage: Storages, overlap: nat) returns (ok: bool, strayed: bool)
      requires Valid() && s.mem.None? && !s.failing && pods.Keys <= s.dbs.Keys
      modifies this
      ensures if strayed then Strayed() else Valid() && !s.failing
      ensures faults >= old(faults) && (!strayed ==> old(s).dbs.Keys <= s.dbs.Keys)
      ensures ok || strayed ==> 0 in pods && PodReady(pods[0]) && 1 in pods && PodReady(pods[1])
      ensures !strayed && ok ==> s.mem == s.persisted && s.mem.Some? && s.mem.value <= 1
      ensures !strayed && !ok && Target(old(s)).None? ==> s.mem.None?
      ensures faults == old(faults) && OneMain(old(s)).Some?
              && 0 in pods && PodReady(pods[0]) && 1 in pods && PodReady(pods[1])
              ==> ok && s.mem == s.persisted == OneMain(old(s))
      ensures ok && overlap == 0 && OneMain(old(s)).Some? ==>
                SameInstances(old(s), s) && s.nodes.Keys == old(s).nodes.Keys + pods.Keys
      ensures faults == old(faults) && NewCluster(old(s), storage)
              && 0 in pods && PodReady(pods[0]) && 1 in pods && PodReady(pods[1]) ==>
                if ok then s.mem == s.persisted == Some(0)
                else !strayed && PairedUp(s) && 0 in s.nodes && !ListsLevel(s.nodes[0].replicas)
    {
      hide Valid, RoleTrue, Enabled, Apply, MayAdopt, LevelSeen, Strayed, NewCluster, PairedUp, ListsLevel;
      ok, strayed := false, false;
      var index := DiscoverClusterState(pods, storage);
      if index.Some? {
        OtherOperations(overlap);
        ok, strayed := StoreDiscovered(index.value);
      }
    }

    /** One tick of the reconciliation loop: discover a target if none can be read, then reconcile. A
        target appears only if both eligible pods are ready; an error-free tick with a target that is
        main converges; and only an unsafe adoption leaves the safe runs. */
    method Tick(pods: Pods, storage: Storages, overlap: nat) returns (strayed: bool)
      requires Valid() && !s.failing && pods.Keys <= s.dbs.Keys
      modifies this
      ensures if strayed then Strayed() else Valid() && !s.failing
      ensures strayed && Target(old(s)).Some? ==> faults > old(faults)
      ensures Target(old(s)).None? && (strayed || s.mem.Some?) ==>
                0 in pods && PodReady(pods[0]) && 1 in pods && PodReady(pods[1])
      ensures faults == old(faults) && Target(old(s)).Some? && Settleable(old(s), Target(old(s)).value, pods)
              ==> && s.mem == Target(old(s)) && Converged(old(s), s, s.mem.value, pods)
                  && (GatewayDecided(s, true) || GatewayDecided(s, false))
      ensures faults == old(faults) && Target(old(s)).None? && OneMain(old(s)).Some?
              && 0 in pods && PodReady(pods[0]) && 1 in pods && PodReady(pods[1])
              ==> strayed || s.persisted.Some?
      ensures faults == old(faults) && overlap == 0 && Target(old(s)).None? && OneMain(old(s)).Some? && !strayed
              && Settleable(old(s), OneMain(old(s)).value, pods)
              ==> && s.mem == OneMain(old(s)) && Settled(s, s.mem.value, pods)
                  && (GatewayDecided(s, true) || GatewayDecided(s, false))
      ensures faults == old(faults) && Target(old(s)).None? && NewCluster(old(s), storage)
              && 0 in pods && PodReady(pods[0]) && 1 in pods && PodReady(pods[1])
              ==> strayed || s.persisted.Some? || (PairedUp(s) && 0 in s.nodes && !ListsLevel(s.nodes[0].replicas))
    {
      hide Valid, RoleTrue, Enabled, Apply, MayAdopt, Converged, Settled, LevelSeen, Strayed;
      strayed := false;
      var t, ok := GetTargetMainIndex();
      if !ok {
        ok, strayed := DiscoverAndStore(pods, storage, overlap);
        if !ok || strayed {
          return;
        }
      }
      ghost var s1 := s;
      var _ := PerformReconciliationActions(pods);
      Facts();
      if s.mem.Some? && Converged(s1, s, s.mem.value, pods) {
        assert Settled(s, s.mem.value, pods) by { ConvergedIsSettled(s1, s, s.mem.value, pods); }
      }
      if s1.dbs == old(s).dbs && s.mem.Some? && RolesKept(old(s), s1) && Converged(s1, s, s.mem.value, pods) {
        ConvergedSameDbs(old(s), s1, s, s.mem.value, pods);
      }
    }

    /** A status request or a callback outside operationMu: it reads what is not cached yet. */
    method QueryStatus(p: Pod)
      requires Valid() && p in s.nodes
      modifies this
      ensures Valid() && Observed(old(s), s, p) && RolesKept(old(s), s) && faults >= old(faults)
    {
      hide Valid, RoleTrue, Observed;
      var _, _ := GetReplicas(p, false);
    }

    /** A controller process dies and another one starts. */
    method RestartProcess()
      requires Valid()
      modifies this
      ensures Valid() && !s.failing && s.dbs == old(s.dbs) && s.persisted == old(s.persisted) && s.mem.None?
    {
      hide Valid, RoleTrue;
      Take(Restart);
    }

    /** Any number of ticks, failover events, status requests, restarts and bursts of outside activity,
        in any order, with any informer snapshots: a safe run of the step machine, up to an unsafe
        adoption if one comes. */
    method Operate(rounds: nat) returns (strayed: bool)
      requires Valid() && !s.failing
      modifies this
      ensures if strayed then Strayed() else Valid() && !s.failing
    {
      hide Valid, RoleTrue, Strayed;
      strayed := false;
      for i := 0 to rounds
        invariant !strayed && Valid() && !s.failing
      {
        var pods: Pods, storage: Storages := *, *;
        var choice: int := *;
        if choice == 0 {
          RestartProcess();
        } else if choice == 1 && pods.Keys <= s.dbs.Keys {
          var overlap: nat := *;
          strayed := Tick(pods, storage, overlap);
          if strayed {
            return;
          }
        } else {
          OtherOperations(1);
        }
      }
    }
  }

  /** No target yet, and both eligible pods are known. */
  predicate Starting(s: System) {
    s.mem.None? && !s.failing && 0 in s.nodes && 1 in s.nodes
  }

  /** The eligible pod that is a main while the other one is a replica. */
  function OneMain(s: System): Option<Pod> {
    if 0 !in s.dbs || 1 !in s.dbs || s.dbs[0].role == s.dbs[1].role then None
    else if s.dbs[0].role == Main then Some(0) else Some(1)
  }

  predicate SeenBesideReplica(s: System, i: Pod)
    requires i <= 1
  {
    CachedRole(s, i) == Some(Main) && CachedRole(s, Other(i)) == Some(Replica)
  }

  /** The first STRICT_SYNC row of pod-1 is ready and has no lag. */
  predicate ListsLevel(list: seq<ReplicaInfo>) {
    exists k | 0 <= k < |list| ::
      && StrictReady(list[k], 1) && list[k].info.value.behind == 0
      && forall j | 0 <= j < k :: !(list[j].name == 1 && list[j].mode == StrictSync)
  }

  /** Pod-1 is a replica, registered STRICT_SYNC on pod-0. */
  predicate PairedUp(s: System) {
    && 0 in s.dbs && 1 in s.dbs && s.dbs[1].role == Replica
    && 1 in s.dbs[0].regs && s.dbs[0].regs[1] == StrictSync
  }

  /** A new cluster: both eligible pods are mains and report nothing stored. */
  predicate NewCluster(s: System, storage: Storages) {
    && 0 in s.dbs && 1 in s.dbs && s.dbs[0].role == Main && s.dbs[1].role == Main
    && 0 in storage && Empty(storage[0]) && 1 in storage && Empty(storage[1])
  }

  /** Both eligible pods were mains and reported empty; pod-1 was demoted and is listed strict, ready and level. */
  predicate Initialised(s: System, s': System, storage: Storages, i: Pod) {
    && 0 in storage && Empty(storage[0]) && 1 in storage && Empty(storage[1])
    && i == 0 && 0 in s.dbs && s.dbs[0].role == Main && 1 in s.dbs && s.dbs[1].role == Main
    && 1 in s'.confirmed && 0 in s'.nodes
    && exists r | r in s'.nodes[0].replicas :: StrictReady(r, 1) && r.info.value.behind == 0
  }

  lemma StartingObserved(s: System, s': System)
    requires Starting(s) && Observed(s, s', 0)
    ensures s'.persisted == s.persisted && Starting(s') && s.dbs.Keys <= s'.dbs.Keys
    ensures (PairedUp(s) ==> PairedUp(s')) && (0 in s.dbs ==> s'.dbs[0].role == s.dbs[0].role)
    ensures 1 in s.confirmed ==> 1 in s'.confirmed
  {
    assert 1 in s.confirmed - {0} <==> 1 in s.confirmed;
    assert 1 in s'.confirmed - {0} <==> 1 in s'.confirmed;
  }

  lemma PairUndisturbed(s: System, s': System)
    requires Undisturbed(s, s') && Starting(s)
    ensures Starting(s') && (PairedUp(s) ==> PairedUp(s')) && s'.confirmed == s.confirmed
    ensures s.dbs.Keys <= s'.dbs.Keys && s'.persisted == s.persisted
    ensures 0 in s.dbs ==> s'.dbs[0].role == s.dbs[0].role
  {
  }

  /** A list that shows pod-1 level opens the gate of pod-0. */
  lemma SeenLevel(s: System, list: seq<ReplicaInfo>)
    requires 0 in s.nodes && s.nodes[0].hasReplicas && list == s.nodes[0].replicas
    requires CachedRole(s, 0) == Some(Main) && s.mem.None?
    ensures ListsLevel(list) ==> GateOpen(s, 0) && LevelSeen(s, 0)
    ensures ListsLevel(list) ==> exists r | r in list :: StrictReady(r, 1) && r.info.value.behind == 0
  {
    if ListsLevel(list) {
      var k :| 0 <= k < |list| && StrictReady(list[k], 1) && list[k].info.value.behind == 0;
      assert list[k] in list;
    }
  }

  predicate SameInstances(s: System, s': System) {
    s.dbs.Keys <= s'.dbs.Keys && forall p | p in s.dbs :: s'.dbs[p].role == s.dbs[p].role
  }

  /** Error-free reconciliation of this state settles the topology: the target is a main, every pod
      is ready and has an address, and both eligible pods exist. */
  predicate MayConverge(s: System, t: Pod, pods: Pods) {
    && t <= 1 && t in s.dbs && s.dbs[t].role == Main
    && 0 in pods && 1 in pods && s.nodes.Keys == pods.Keys
    && forall p | p in pods :: PodReady(pods[p]) && pods[p].ip != ""
  }

  /** The same before a pass, which may still have to learn about some of the pods. */
  predicate Settleable(s: System, t: Pod, pods: Pods) {
    && t <= 1 && t in s.dbs && s.dbs[t].role == Main
    && 0 in pods && 1 in pods && s.nodes.Keys <= pods.Keys
    && forall p | p in pods :: PodReady(pods[p]) && pods[p].ip != ""
  }

  lemma PassBegins(s0: System, s1: System, s2: System, t: Pod, pods: Pods)
    requires Undisturbed(s0.(mem := Some(t)), s1) && Target(s0) == Some(t)
    requires s2 == AfterRefresh(s1, map p | p in pods :: pods[p].ip).(confirmed := {})
    ensures s2.known == pods.Keys && pods.Keys <= s2.nodes.Keys && s0.dbs.Keys <= s2.dbs.Keys
    ensures s2.mem == Some(t) && s2.failing == s0.failing && (s2.gateway == s0.gateway || s2.gateway.None?)
    ensures Settleable(s0, t, pods) ==> MainReady(s2, pods) && MayConverge(s2, t, pods)
    ensures PodsReplicas(s0, t, pods) ==> PodsReplicas(s2, t, pods)
  {
    hide RoleTrue;
  }

  lemma ConvergenceCarried(s2: System, s3: System, s4: System, t: Pod, pods: Pods)
    requires MayConverge(s2, t, pods) && Surveyed(s2, s3) && Undisturbed(s3, s4) && s2.mem == Some(t)
    ensures s3.mem == Some(t) && t in s3.nodes && MayConverge(s4, t, pods)
    ensures PodsReplicas(s2, t, pods) ==> PodsReplicas(s4, t, pods)
  {
    hide RoleTrue;
  }

  lemma DecidedByPass(s0: System, s1: System, s2: System, s3: System, t: Pod, pods: Pods, ok: bool)
    requires MainReady(s0, pods) && s0.mem == Some(t) && Surveyed(s0, s1) && Undisturbed(s1, s2)
    requires Converged(s2, s3, t, pods) && s3.mem == Some(t) && t in s3.nodes && t in s2.nodes
    requires s3.nodes[t].ip == s2.nodes[t].ip
    requires AllUp(s3, t, pods) && ok ==> s3.gateway == Some(t)
    requires t in pods && !ok ==> GatewayRefused(s3, t)
    ensures GatewayDecided(s3, ok)
  {
    hide PodReady, ClusterHealthy;
    assert RoleTrue(s3, t);
  }

  lemma SettledAgain(s: System, s': System, pods: Pods)
    requires s'.mem.Some? && Converged(s, s', s'.mem.value, pods)
    ensures Target(s') == s'.mem && Settleable(s', s'.mem.value, pods)
    ensures PodsReplicas(s', s'.mem.value, pods) && RolesTrue(s')
  {
    hide RoleTrue;
  }

  lemma SettledFinally(s: System, s': System, pods: Pods)
    requires s'.mem.Some? && Converged(s, s', s'.mem.value, pods)
    requires RolesTrue(s) && PodsReplicas(s, s'.mem.value, pods)
    ensures s'.mem.value <= 1 && s'.mem.value in s'.dbs
    ensures var t := s'.mem.value;
            && s'.dbs[t].role == Main
            && forall p | p in pods && p != t ::
                 && p in s'.dbs && s'.dbs[p].role == Replica
                 && p in s'.dbs[t].regs && (s'.dbs[t].regs[p] == StrictSync <==> p == Other(t))
  {
    hide RoleTrue;
  }

  lemma ConvergedFrom(s0: System, s1: System, s2: System, t: Pod, pods: Pods)
    requires Converged(s1, s2, t, pods) && RolesKept(s0, s1)
    requires PodsReplicas(s0, t, pods) ==> PodsReplicas(s1, t, pods)
    ensures Converged(s0, s2, t, pods)
  {
    hide RoleTrue, MayConverge, PodsReplicas;
  }

  /** The target is the only main, and all cached roles are true. */
  ghost predicate Settled(s: System, t: Pod, pods: Pods) {
    MayConverge(s, t, pods) && PodsReplicas(s, t, pods) && RolesTrue(s)
  }

  /** After an error-free pass: the target is the only main and all cached roles are true; and if that
      was so before, every other pod is registered on it, the complement STRICT_SYNC and the others
      ASYNC. */
  ghost predicate Converged(s: System, s': System, t: Pod, pods: Pods) {
    && Settled(s', t, pods)
    && (RolesTrue(s) && PodsReplicas(s, t, pods) ==>
          forall p | p in pods && p != t :: p in s'.dbs[t].regs && s'.dbs[t].regs[p] == ModeFor(t, p))
  }

  lemma ConvergedIsSettled(s: System, s': System, t: Pod, pods: Pods)
    requires Converged(s, s', t, pods)
    ensures Settled(s', t, pods)
  {
    hide Settled;
  }

  lemma ConvergedSameDbs(s: System, s1: System, s': System, t: Pod, pods: Pods)
    requires s1.dbs == s.dbs && RolesKept(s, s1) && Converged(s1, s', t, pods)
    ensures Converged(s, s', t, pods)
  {
    hide RoleTrue, MayConverge;
  }

  lemma MayConvergeParts(s: System, t: Pod, pods: Pods)
    requires MayConverge(s, t, pods)
    ensures t in s.dbs && s.dbs[t].role == Main && t in pods && t in s.nodes && s.nodes.Keys == pods.Keys
  {
  }

  lemma ReconciledObserved(s: System, s1: System, s2: System, t: Pod, pods: Pods, done: set<Pod>)
    requires t <= 1 && t in s.dbs && t in s1.dbs && t in s2.dbs && Reconciled(s, s1, t, pods, done)
    requires forall p | p in s1.dbs ::
               p in s2.dbs && s2.dbs[p].role == s1.dbs[p].role && s2.dbs[p].regs == s1.dbs[p].regs
    requires RolesKept(s1, s2)
    ensures Reconciled(s, s2, t, pods, done)
  {
    hide RoleTrue;
  }

  lemma RolesSettled(s: System, s1: System, s2: System, t: Pod, pods: Pods)
    requires MayConverge(s, t, pods) && RoleTrue(s2, t) && s2.nodes.Keys == s.nodes.Keys
    requires t in s1.dbs && t in s2.dbs && s2.dbs[t].role == Main
    requires Reconciled(s1, s2, t, pods, s2.nodes.Keys)
    ensures MayConverge(s2, t, pods) && PodsReplicas(s2, t, pods) && RolesTrue(s2)
  {
    forall p
      ensures RoleTrue(s2, p)
    {
    }
  }

  lemma RegistrationsSettled(s: System, s1: System, s2: System, t: Pod, pods: Pods)
    requires MayConverge(s, t, pods) && RolesTrue(s1) && s1.nodes.Keys == s.nodes.Keys == s2.nodes.Keys
    requires PodsReplicas(s1, t, pods) && ModesRight(s2)
    requires t in s1.nodes && t in s1.dbs && t in s2.dbs && Names(s1.nodes[t].replicas) <= s1.dbs[t].regs.Keys
    requires Reconciled(s1, s2, t, pods, s2.nodes.Keys)
    ensures forall p | p in pods && p != t :: p in s2.dbs[t].regs && s2.dbs[t].regs[p] == ModeFor(t, p)
  {
    hide RoleTrue, Names;
    assert OthersReplicas(s1, t);
  }

  lemma ConvergedBy(s: System, s1: System, s2: System, t: Pod, pods: Pods)
    requires MayConverge(s, t, pods) && RolesKept(s, s1) && s1.nodes.Keys == s.nodes.Keys == s2.nodes.Keys
    requires forall p | p in s.dbs :: p in s1.dbs && s1.dbs[p].role == s.dbs[p].role
    requires t in s1.nodes && t in s1.dbs && t in s2.dbs && Truthful(s1, t, s1.nodes[t].replicas)
    requires s2.dbs[t].role == s1.dbs[t].role && Reconciled(s1, s2, t, pods, s2.nodes.Keys)
    requires RoleTrue(s1, t) && RolesKept(s1, s2) && ModesRight(s2)
    ensures Converged(s, s2, t, pods)
  {
    hide RoleTrue, Truthful, Names, Reconciled, MayConverge, ModesRight;
    MayConvergeParts(s, t, pods);
    RolesSettled(s, s1, s2, t, pods);
    if RolesTrue(s) && PodsReplicas(s, t, pods) {
      assert PodsReplicas(s1, t, pods);
      TruthfulNames(s1, t, s1.nodes[t].replicas);
      RegistrationsSettled(s, s1, s2, t, pods);
    }
  }

  lemma TrueMain(s: System, t: Pod)
    requires RoleTrue(s, t) && t in s.dbs && s.dbs[t].role == Main
    ensures CachedRole(s, t) != Some(Replica)
  {
  }

  lemma TruthfulNames(s: System, p: Pod, list: seq<ReplicaInfo>)
    requires p in s.dbs && Truthful(s, p, list)
    ensures Names(list) == s.dbs[p].regs.Keys
  {
  }

  lemma ObservedKnown(s: System, s': System, t: Pod)
    requires Observed(s, s', t)
    ensures s'.known == s.known && s'.persisted == s.persisted && s'.mem == s.mem && s'.failing == s.failing
    ensures s.dbs.Keys <= s'.dbs.Keys
    ensures forall p | p in s.dbs :: p in s'.dbs && s'.dbs[p].role == s.dbs[p].role && s'.dbs[p].regs == s.dbs[p].regs
  {
  }

  /** The target is a main, ready in Kubernetes and known to the controller. */
  predicate MainReady(s: System, pods: Pods) {
    && Target(s).Some?
    && var t := Target(s).value;
    && t in pods && PodReady(pods[t]) && pods[t].ip != ""
    && t <= 1 && t in s.nodes && s.nodes[t].ip != "" && t in s.dbs && s.dbs[t].role == Main
  }

  /** What an error-free loop from s to s' has done about the pods in `done`: each ready one is a
      replica, and registered on the target unless another main was in the way. */
  ghost predicate Reconciled(s: System, s': System, t: Pod, pods: Pods, done: set<Pod>)
    requires t in s.dbs && t in s'.dbs && t <= 1
  {
    && s.dbs[t].regs.Keys <= s'.dbs[t].regs.Keys
    && forall p | p in done && p != t && p in pods && PodReady(pods[p]) ::
         && p in s'.dbs && s'.dbs[p].role == Replica && RoleTrue(s', p)
         && (RolesTrue(s) && OthersReplicas(s, t) && Other(t) in s.nodes && pods.Keys == s.nodes.Keys
             && t in s.nodes && Names(s.nodes[t].replicas) <= s.dbs[t].regs.Keys
             ==> p in s'.dbs[t].regs)
  }

  lemma ReconciledMore(s: System, s1: System, s2: System, t: Pod, pods: Pods, done: set<Pod>, p: Pod)
    requires t in s.dbs && t in s1.dbs && t in s2.dbs && t <= 1 && t in s.nodes && p != t
    requires PassFrame(s, s1, t) && PassFrame(s1, s2, t)
    requires Reconciled(s, s1, t, pods, done)
    requires s1.dbs[t].regs.Keys <= s2.dbs[t].regs.Keys
    requires RolesKept(s, s1) && RolesKept(s1, s2)
    requires p in pods && PodReady(pods[p]) ==> p in s2.dbs && s2.dbs[p].role == Replica && RoleTrue(s2, p)
    requires RolesTrue(s1) && OthersReplicas(s1, t) && p in pods && PodReady(pods[p])
             && Other(t) in s2.nodes && pods.Keys == s2.nodes.Keys
             ==> p in Names(s.nodes[t].replicas) || p in s2.dbs[t].regs
    ensures Reconciled(s, s2, t, pods, done + {p})
  {
    hide RoleTrue;
  }

  lemma ObservedAnyGateway(s: System, s': System, g: Option<Pod>, t: Pod)
    requires Observed(s, s', t)
    ensures Observed(s.(gateway := g), s'.(gateway := g), t)
    ensures s'.gateway == s.gateway || s'.gateway.None?
    ensures s'.mem == s.mem && s'.failing == s.failing && s'.nodes.Keys == s.nodes.Keys
    ensures t in s.nodes ==> s'.nodes[t].ip == s.nodes[t].ip
  {
  }

  /** The loop invariant of a pass that started in s0. */
  ghost predicate LoopInv(s0: System, s: System, t: Pod, pods: Pods, done: set<Pod>, clean: bool) {
    && t <= 1 && t in s0.dbs && t in s.dbs && PassFrame(s0, s, t)
    && (clean ==> RolesKept(s0, s) && Reconciled(s0, s, t, pods, done))
  }

  lemma LoopStarts(s: System, t: Pod, pods: Pods)
    requires t <= 1 && t in s.dbs
    ensures LoopInv(s, s, t, pods, {t}, true)
  {
    hide RoleTrue;
  }

  lemma LoopFacts(s0: System, s: System, t: Pod, pods: Pods, done: set<Pod>, clean: bool)
    requires LoopInv(s0, s, t, pods, done, clean)
    ensures t in s0.dbs && t in s.dbs && PassFrame(s0, s, t)
    ensures clean ==> RolesKept(s0, s)
    ensures clean ==> Reconciled(s0, s, t, pods, done)
    ensures s.mem == s0.mem && s.known == s0.known && s.nodes.Keys == s0.nodes.Keys && s.relisted == s0.relisted
    ensures t in s0.nodes ==> s.nodes[t].replicas == s0.nodes[t].replicas
  {
    hide RoleTrue, Reconciled;
  }

  lemma LoopStep(s0: System, s1: System, s2: System, t: Pod, pods: Pods, done: set<Pod>, p: Pod,
                 cleanBefore: bool, cleanAfter: bool, cleanStep: bool)
    requires LoopInv(s0, s1, t, pods, done, cleanBefore) && t in s0.nodes && p != t
    requires cleanAfter ==> cleanBefore && cleanStep
    requires t in s2.dbs && PassFrame(s1, s2, t)
    requires cleanStep ==> s1.dbs[t].regs.Keys <= s2.dbs[t].regs.Keys
    requires cleanStep ==> RolesKept(s1, s2)
    requires cleanStep && p in pods && PodReady(pods[p]) ==>
               p in s2.dbs && s2.dbs[p].role == Replica && RoleTrue(s2, p)
    requires cleanStep && RolesTrue(s1) && OthersReplicas(s1, t) && p in pods && PodReady(pods[p])
             && Other(t) in s2.nodes && pods.Keys == s2.nodes.Keys
             ==> p in Names(s0.nodes[t].replicas) || p in s2.dbs[t].regs
    ensures LoopInv(s0, s2, t, pods, done + {p}, cleanAfter)
  {
    hide RoleTrue;
    PassFrameTransitive(s0, s1, s2, t);
    if cleanAfter {
      ReconciledMore(s0, s1, s2, t, pods, done, p);
    }
  }

  lemma ShapeCovers(s: System, p: Pod)
    requires Shape(s)
    ensures p in s.nodes ==> p in s.dbs
  {
  }

  lemma ConfirmedIsReplica(s: System, p: Pod)
    requires ConfirmedTrue(s)
    ensures p in s.confirmed ==> p in s.dbs && s.dbs[p].role == Replica
  {
  }

  lemma SameSize(a: set<Pod>, b: set<Pod>)
    requires a <= b && |a| == |b|
    ensures a == b
  {
    if a != b {
      var x :| x in b && x !in a;
      assert a <= b - {x};
      SubsetSize(a, b - {x});
    }
  }

  lemma {:induction false} SubsetSize(a: set<Pod>, b: set<Pod>)
    requires a <= b
    ensures |a| <= |b|
  {
    if a != {} {
      var x :| x in a;
      SubsetSize(a - {x}, b - {x});
    }
  }

  /** What a reconciliation loop leaves alone: the target and its list, the pods it knows, and every
      replica stays one. */
  predicate PassFrame(s: System, s': System, t: Pod) {
    && s' == s.(dbs := s'.dbs, pending := s'.pending, nodes := s'.nodes, gateway := s'.gateway,
                confirmed := s'.confirmed)
    && (s'.gateway == s.gateway || s'.gateway.None?)
    && s'.nodes.Keys == s.nodes.Keys && s.dbs.Keys <= s'.dbs.Keys
    && (forall p | p in s.nodes :: s'.nodes[p].ip == s.nodes[p].ip)
    && (t in s.nodes ==> s'.nodes[t].replicas == s.nodes[t].replicas)
    && (t in s.dbs ==> s'.dbs[t].role == s.dbs[t].role)
    && (forall p | p in s.dbs && s.dbs[p].role == Replica :: s'.dbs[p].role == Replica)
  }

  lemma PassFrameReflexive(s: System, t: Pod)
    ensures PassFrame(s, s, t)
  {
  }

  lemma PassFrameUndisturbed(s: System, s': System, t: Pod)
    requires Undisturbed(s, s')
    ensures PassFrame(s, s', t) && s'.nodes == s.nodes && s'.mem == s.mem && s'.known == s.known
    ensures s'.confirmed == s.confirmed && s'.relisted == s.relisted
    ensures forall p | p in s.dbs :: p in s'.dbs && s'.dbs[p].regs == s.dbs[p].regs
  {
  }

  lemma RegistrationUndisturbed(s: System, s': System, t: Pod, p: Pod)
    requires Undisturbed(s, s')
    ensures PassFrame(s, s', t) && s'.nodes == s.nodes && s'.mem == s.mem
    ensures MayRegister(s, t, p) ==> MayRegister(s', t, p)
    ensures t in s.dbs ==> t in s'.dbs && s'.dbs[t].regs == s.dbs[t].regs
  {
  }

  lemma PassFrameRead(s: System, p: Pod, t: Pod)
    requires p in s.nodes && p in s.dbs && p != t
    ensures PassFrame(s, s, t) && PassFrame(s, AfterReadRole(s, p), t)
  {
  }

  lemma PassFrameDemote(s: System, p: Pod, t: Pod)
    requires p in s.nodes && p in s.dbs && p != t
    ensures PassFrame(s, AfterDemote(s, p, Acknowledged), t) && PassFrame(s, AfterDemote(s, p, Lost), t)
    ensures PassFrame(s, s, t)
  {
  }

  lemma PassFrameFilled(s: System, s': System, t: Pod)
    requires Filled(s, s')
    ensures PassFrame(s, s', t) && s.confirmed <= s'.confirmed
    ensures forall p | p in s.dbs :: p in s'.dbs && s'.dbs[p].regs == s.dbs[p].regs
    ensures s'.mem == s.mem && s'.known == s.known && s'.nodes.Keys == s.nodes.Keys
    ensures t in s.nodes ==> s'.nodes[t].replicas == s.nodes[t].replicas
  {
  }

  lemma PassFrameRegister(s: System, t: Pod, p: Pod, mode: Mode)
    requires t in s.nodes && t in s.dbs
    ensures PassFrame(s, AfterRegister(s, t, p, mode, Acknowledged), t)
    ensures PassFrame(s, AfterRegister(s, t, p, mode, Lost), t) && PassFrame(s, s, t)
  {
  }

  lemma PassFrameDrop(s: System, t: Pod, p: Pod)
    requires t in s.nodes && t in s.dbs && p !in Names(s.nodes[t].replicas)
    ensures PassFrame(s, AfterDrop(s, t, p, Acknowledged), t)
    ensures PassFrame(s, AfterDrop(s, t, p, Lost), t) && PassFrame(s, s, t)
  {
    WithoutAbsent(s.nodes[t].replicas, p);
  }

  lemma PassFrameTransitive(s: System, s': System, s'': System, t: Pod)
    requires PassFrame(s, s', t) && PassFrame(s', s'', t)
    ensures PassFrame(s, s'', t)
  {
  }

  lemma PassFrameParts(s: System, s': System, t: Pod)
    requires PassFrame(s, s', t)
    ensures s'.failing == s.failing && (s'.gateway == s.gateway || s'.gateway.None?)
    ensures s.dbs.Keys <= s'.dbs.Keys
    ensures s'.mem == s.mem && s'.known == s.known && s'.nodes.Keys == s.nodes.Keys && s'.relisted == s.relisted
    ensures t in s.nodes ==> s'.nodes[t].replicas == s.nodes[t].replicas && s'.nodes[t].ip == s.nodes[t].ip
    ensures t in s.dbs ==> t in s'.dbs && s'.dbs[t].role == s.dbs[t].role
    ensures OthersReplicas(s, t) ==> OthersReplicas(s', t)
    ensures forall p | p in s.dbs && s.dbs[p].role == Replica :: p in s'.dbs && s'.dbs[p].role == Replica
  {
  }

  /** Reading unknown roles: the caches gain roles and nothing else changes. */
  predicate Filled(s: System, s': System) {
    && Undisturbed(s.(nodes := s'.nodes, confirmed := s'.confirmed), s')
    && s'.nodes.Keys == s.nodes.Keys && s.confirmed <= s'.confirmed
    && forall p | p in s.nodes ::
         s'.nodes[p] == s.nodes[p].(role := s'.nodes[p].role)
         && (s.nodes[p].role.Some? ==> s'.nodes[p].role == s.nodes[p].role)
  }

  predicate PodsReplicas(s: System, t: Pod, pods: Pods) {
    forall p | p in pods && p != t :: p in s.dbs && s.dbs[p].role == Replica
  }

  predicate OthersReplicas(s: System, t: Pod) {
    forall k | k in s.nodes && k != t :: k in s.dbs && s.dbs[k].role == Replica
  }

  lemma FilledReflexive(s: System)
    ensures Filled(s, s)
  {
  }

  lemma FilledKeys(s: System, s': System)
    requires Filled(s, s')
    ensures s'.nodes.Keys == s.nodes.Keys
  {
  }

  lemma FilledUndisturbed(s0: System, s: System, s': System)
    requires Filled(s0, s) && Undisturbed(s, s')
    ensures Filled(s0, s') && s'.nodes == s.nodes
  {
  }

  lemma FillOne(s0: System, s: System, s': System, k: Pod)
    requires Filled(s0, s) && ConfirmedTrue(s) && k in s.nodes && k in s.dbs
    requires s' == s || (s' == AfterReadRole(s, k) && s.nodes[k].role.None?)
    ensures Filled(s0, s') && s'.nodes.Keys == s.nodes.Keys
    ensures forall q | q in s.nodes && q != k :: s'.nodes[q] == s.nodes[q]
  {
  }

  lemma NoneFound(s: System, s': System, t: Pod)
    requires Filled(s, s') && RolesTrue(s') && OthersReplicas(s, t)
    ensures forall k | k in s'.nodes && k != t :: s'.nodes[k].role != Some(Main)
  {
    forall k | k in s'.nodes && k != t
      ensures s'.nodes[k].role != Some(Main)
    {
      assert RoleTrue(s', k);
    }
  }

  /** The gate depends on the target's own cache only. */
  lemma GateFrame(s: System, s': System, t: Pod)
    requires t in s.nodes ==> t in s'.nodes && s'.nodes[t] == s.nodes[t]
    ensures GateOpen(s, t) ==> GateOpen(s', t)
  {
  }

  lemma UndisturbedNodes(s: System, s': System)
    requires Undisturbed(s, s')
    ensures s'.nodes == s.nodes && s'.mem == s.mem && s'.relisted == s.relisted && s.dbs.Keys <= s'.dbs.Keys
    ensures s'.known == s.known && s'.failing == s.failing && (s'.gateway == s.gateway || s'.gateway.None?)
  {
  }

  /** A run, safe or not, goes on with one more step. */
  lemma RunExtends(states: seq<System>, steps: seq<Step>, st: Step, s': System)
    requires Run(states, steps) && Enabled(states[|steps|], st) && s' == Apply(states[|steps|], st)
    ensures |states| == |steps| + 1 && Run(states + [s'], steps + [st])
    ensures SafeRun(states, steps) && Safe(states[|steps|], st) ==> SafeRun(states + [s'], steps + [st])
  {
    hide Enabled, Apply, Init, Safe;
  }

  lemma UndisturbedRoles(s: System, s': System, t: Pod)
    requires Undisturbed(s, s') && t <= 1
    ensures GateOpen(s, t) ==> GateOpen(s', t)
    ensures CachedRole(s', Other(t)) == CachedRole(s, Other(t))
  {
    GateFrame(s, s', t);
  }

  lemma SelfUndisturbed(s: System)
    ensures Undisturbed(s, s)
  {
  }

  lemma SelfObserved(s: System, p: Pod)
    ensures Observed(s, s, p)
  {
  }

  lemma NextOf(s: System, st: Step, s': System)
    requires Enabled(s, st) && s' == Apply(s, st)
    ensures Next(s, st, s')
  {
  }
}

/** No committed write is ever lost: over every run of the step machine the target main's log only
    grows, across failovers that complete, fail half-way or whose ConfigMap write is reported lost,
    and every other log stays a prefix of it. */
module LogSafety {
  import opened Common
  import opened ReplicaStatus
  import opened Topology

  /** The complement holds the target's whole log, and the target cannot commit without it:
      either it is registered (so strict) on the target, or the target is not a main at all. */
  predicate Paired(s: System, t: Pod) {
    && t <= 1 && t in s.dbs && Other(t) in s.dbs
    && s.dbs[Other(t)].log == s.dbs[t].log
    && (Other(t) in s.dbs[t].regs || s.dbs[t].role == Replica)
  }

  predicate Shape(s: System) {
    && 0 in s.dbs && 1 in s.dbs && s.nodes.Keys <= s.dbs.Keys
    && (s.persisted.Some? ==> s.persisted.value <= 1)
    && (s.mem.Some? ==> s.mem.value <= 1 && s.persisted.Some?)
    && (forall p | p in s.nodes && s.nodes[p].role.None? :: !s.nodes[p].hasReplicas)
  }

  /** The read/write gateway is closed or leads to the target in memory; a failover keeps it closed. */
  predicate Routed(s: System) {
    && (s.gateway.Some? ==> s.gateway == s.mem)
    && (s.failing ==> s.gateway.None?)
  }

  /** A cached list that lets a failover through is still true. */
  predicate GateSound(s: System, t: Pod) {
    GateList(s, t) ==> Paired(s, t)
  }

  /** If the complement could be made target without a promotion, its own cached list is true. */
  predicate SuccessorSound(s: System, t: Pod)
    requires t <= 1
  {
    var o := Other(t);
    GateList(s, t) && o in s.nodes && s.nodes[o].role == Some(Main) && s.nodes[o].hasReplicas
      && t in Names(s.nodes[o].replicas)
    ==> o in s.dbs && (t in s.dbs[o].regs || s.dbs[o].role == Replica)
  }

  /** Right after the list was read, a complement listed as ready is a replica. */
  predicate RelistedSound(s: System, t: Pod)
    requires t <= 1
  {
    s.relisted && GateList(s, t) ==> Other(t) in s.dbs && s.dbs[Other(t)].role == Replica
  }

  /** Before a target is loaded, no cached list outlived the registrations it names. */
  predicate StartupSound(s: System) {
    s.mem.None? ==>
      forall p | p in s.nodes && p in s.dbs && s.nodes[p].hasReplicas ::
        Names(s.nodes[p].replicas) <= s.dbs[p].regs.Keys || s.dbs[p].role == Replica
  }

  /** A lost ConfigMap write leaves memory and ConfigMap on two pods that hold the same log. */
  predicate SplitSound(s: System) {
    s.mem.Some? && s.mem != s.persisted ==>
      && s.mem.value <= 1 && s.persisted == Some(Other(s.mem.value))
      && Paired(s, s.mem.value)
      && s.mem.value in s.nodes && Other(s.mem.value) in Names(s.nodes[s.mem.value].replicas)
  }

  /** A transaction still open on a main that is no longer the target cannot commit behind the
      target's back: the target is that main's strict replica. */
  predicate PendingSound(s: System) {
    forall u | u in s.pending ::
      && u <= 1 && u in s.dbs && s.dbs[u].role == Main && Target(s).Some?
      && (Target(s) == Some(u) || Other(u) in s.dbs[u].regs)
  }

  /** Before a target is loaded, a cached list that shows a strict replica ready shows two eligible pods
      with the same log, and one of them is a replica. */
  predicate ListedLevel(s: System) {
    s.mem.None? ==>
      forall p | p <= 1 && GateList(s, p) ::
        && 0 in s.dbs && 1 in s.dbs && s.dbs[0].log == s.dbs[1].log && s.dbs[Other(p)].role == Replica
  }

  predicate CachesSound(s: System) {
    Target(s).Some? && Target(s).value <= 1 ==>
      && GateSound(s, Target(s).value)
      && SuccessorSound(s, Target(s).value)
      && RelistedSound(s, Target(s).value)
  }

  predicate Structured(s: System) {
    Shape(s) && Routed(s) && ModesRight(s) && Ordered(s)
  }

  predicate Sound(s: System) {
    CachesSound(s) && StartupSound(s) && SplitSound(s) && PendingSound(s) && ListedLevel(s)
  }

  predicate Inv(s: System) {
    Structured(s) && Sound(s)
  }

  /** The controller can see that pod i holds everything: it is the target, loaded or stored, or a cached
      list shows the two eligible pods level. */
  predicate LevelSeen(s: System, i: Pod) {
    || s.persisted == Some(i) || s.mem == Some(i)
    || if s.mem.Some? then GateList(s, s.mem.value) else GateList(s, 0) || GateList(s, 1)
  }

  /** Discovery, which holds no lock, may store pod i. If another target has been loaded meanwhile, the
      gateway has to be closed, and pod i's own cached list must not have outlived its registrations. */
  predicate MayAdopt(s: System, i: Pod, out: Outcome) {
    && LevelSeen(s, i)
    && (s.mem.Some? && s.mem != Some(i) && out == Acknowledged ==>
          && s.gateway.None?
          && (GateList(s, i) ==> GateList(s, s.mem.value) && (s.relisted || CachedRole(s, i) == Some(Main))))
  }

  predicate Safe(s: System, st: Step) {
    st.Adopt? ==> MayAdopt(s, st.i, st.out)
  }

  /** Whoever commits, the target's log is what it commits onto, and the target takes part. */
  lemma CommitReachesTarget(s: System, st: Step, s': System)
    requires Inv(s) && Next(s, st, s') && st.ClientCommit?
    ensures st.u in s.dbs && Target(s).Some? && Target(s').Some? && Target(s').value == Target(s).value
    ensures LogOf(s, st.u) == TargetLog(s) && LogOf(s', Target(s).value) == TargetLog(s) + [st.w]
  {
    hide CachesSound, StartupSound, SplitSound, ListsReady, WithoutFirst, Truthful, RefreshedNodes;
    var u := st.u;
    assert u <= 1 && (Target(s) == Some(u) || Target(s) == Some(Other(u)));
    if Target(s) != Some(u) {
      assert StrictOn(s.dbs[u], Other(u)) && Confirms(s, u, Other(u));
    }
  }

  /** A commit, on the target or on an earlier target, extends the target's log. */
  lemma CommitStructured(s: System, st: Step, s': System)
    requires Inv(s) && Next(s, st, s') && st.ClientCommit?
    ensures Structured(s') && TargetLog(s') == TargetLog(s) + [st.w]
  {
    hide Sound, ListsReady, WithoutFirst, Truthful, RefreshedNodes;
    CommitReachesTarget(s, st, s');
    forall p | p in s'.dbs
      ensures s'.dbs[p].log <= TargetLog(s')
    {
      assert StrictOn(s.dbs[st.u], p) ==> Confirms(s, st.u, p);
    }
  }

  lemma CommitCachesSound(s: System, st: Step, s': System)
    requires Inv(s) && Next(s, st, s') && st.ClientCommit?
    ensures CachesSound(s') && StartupSound(s')
  {
    hide SplitSound, ListedLevel, ListsReady, Ordered, Routed, RefreshedNodes, WithoutFirst, Truthful;
  }

  lemma CommitSound(s: System, st: Step, s': System)
    requires Inv(s) && Next(s, st, s') && st.ClientCommit?
    ensures Sound(s')
  {
    hide CachesSound, StartupSound, Ordered, Routed, RefreshedNodes, WithoutFirst, Truthful;
    CommitCachesSound(s, st, s');
    assert ListedLevel(s') by { CommitListedLevel(s, st, s'); }
  }

  lemma CommitListedLevel(s: System, st: Step, s': System)
    requires Inv(s) && Next(s, st, s') && st.ClientCommit?
    ensures ListedLevel(s')
  {
    hide SplitSound, StartupSound, ListsReady, Ordered, Routed, RefreshedNodes, WithoutFirst, Truthful;
  }

  lemma BeginKeeps(s: System, st: Step, s': System)
    requires Inv(s) && Next(s, st, s') && st.ClientBegin?
    ensures Inv(s') && TargetLog(s') == TargetLog(s)
  {
  }

  lemma CatchUpKeeps(s: System, st: Step, s': System)
    requires Inv(s) && Next(s, st, s') && st.CatchUp?
    ensures Inv(s') && TargetLog(s') == TargetLog(s)
  {
    hide Committed, RefreshedNodes, WithoutFirst, Truthful, ListsReady, GateOpen;
    CatchUpStructured(s, st, s');
    hide Structured;
    CatchUpSound(s, st, s');
  }

  lemma CatchUpSound(s: System, st: Step, s': System)
    requires Inv(s) && Next(s, st, s') && st.CatchUp?
    ensures Sound(s')
  {
    hide Committed, RefreshedNodes, WithoutFirst, Truthful, ListsReady, GateOpen, Ordered, ModesRight, Routed;
    CatchUpStaysBehind(s, st, s');
  }

  lemma CatchUpStructured(s: System, st: Step, s': System)
    requires Inv(s) && Next(s, st, s') && st.CatchUp?
    ensures Structured(s') && TargetLog(s') == TargetLog(s)
  {
    hide Sound, Committed, RefreshedNodes, WithoutFirst, Truthful, ListsReady, GateList, GateOpen;
    CatchUpStaysBehind(s, st, s');
  }

  /** A replica only gets what its source has; one that holds everything already gets nothing. */
  lemma CatchUpStaysBehind(s: System, st: Step, s': System)
    requires Inv(s) && Next(s, st, s') && st.CatchUp?
    ensures st.replica in s.dbs && s.dbs[st.replica].log <= s'.dbs[st.replica].log <= TargetLog(s)
    ensures s.dbs[st.replica].log == TargetLog(s) ==> s' == s
  {
    hide Sound, Committed, RefreshedNodes, WithoutFirst, Truthful, ListsReady, GateOpen;
    var j, m := st.replica, st.source;
    assert s.dbs[j].log <= s.dbs[m].log[..st.upTo] <= s.dbs[m].log <= TargetLog(s);
    if s.dbs[j].log == TargetLog(s) {
      assert s'.dbs[j] == s.dbs[j];
      assert s'.dbs == s.dbs;
    }
  }

  lemma EnvironmentStructured(s: System, st: Step, s': System)
    requires Inv(s) && Next(s, st, s')
    requires st.PodJoins? || st.PreStop? || st.Restart?
    ensures Structured(s') && TargetLog(s') == TargetLog(s)
  {
    hide Committed, RefreshedNodes, WithoutFirst, Truthful, ListsReady, GateList, GateOpen;
  }

  lemma EnvironmentSound(s: System, st: Step, s': System)
    requires Inv(s) && Next(s, st, s')
    requires st.PodJoins? || st.PreStop? || st.Restart?
    ensures Sound(s')
  {
    hide Committed, RefreshedNodes, WithoutFirst, Truthful, ListsReady, Ordered, ModesRight;
    if st.Restart? {
      RestartSound(s, st, s');
    }
  }

  lemma RestartSound(s: System, st: Step, s': System)
    requires Inv(s) && Next(s, st, s') && st.Restart?
    ensures Sound(s')
  {
    hide Committed, RefreshedNodes, WithoutFirst, Truthful, ListsReady, Ordered, ModesRight;
  }

  lemma LoadStructured(s: System, st: Step, s': System)
    requires Inv(s) && Next(s, st, s') && st.LoadTarget?
    ensures Structured(s') && TargetLog(s') == TargetLog(s)
  {
    hide Sound, ListsReady, GateList;
  }

  lemma AdoptStructured(s: System, st: Step, s': System)
    requires Inv(s) && Next(s, st, s') && Safe(s, st) && st.Adopt?
    ensures Structured(s') && TargetLog(s') == TargetLog(s)
  {
    hide StartupSound, PendingSound, ListsReady;
  }

  lemma PersistStructured(s: System, st: Step, s': System)
    requires Inv(s) && Next(s, st, s') && st.PersistTarget?
    ensures Structured(s') && TargetLog(s') == TargetLog(s)
  {
    hide StartupSound, PendingSound, ListedLevel, ListsReady;
  }

  lemma LoadSound(s: System, st: Step, s': System)
    requires Inv(s) && Next(s, st, s') && st.LoadTarget?
    ensures Sound(s')
  {
    hide ListsReady, ModesRight, Ordered;
  }

  /** An adoption over a loaded target, or a lost one: the caches of that target are as sound as before,
      or those of the adopted pod are. */
  lemma AdoptCachesSound(s: System, st: Step, s': System)
    requires Inv(s) && Next(s, st, s') && Safe(s, st) && st.Adopt?
    ensures CachesSound(s')
  {
    hide PendingSound, StartupSound, ModesRight, Routed, Ordered;
    if s.mem.None? {
      AdoptUnloadedSound(s, st, s');
    }
  }

  lemma AdoptUnloadedSound(s: System, st: Step, s': System)
    requires Inv(s) && Next(s, st, s') && Safe(s, st) && st.Adopt? && s.mem.None?
    ensures CachesSound(s')
  {
    hide PendingSound, SplitSound, ModesRight, Routed, Ordered;
  }

  lemma AdoptSound(s: System, st: Step, s': System)
    requires Inv(s) && Next(s, st, s') && Safe(s, st) && st.Adopt?
    ensures Sound(s')
  {
    AdoptCachesSound(s, st, s');
    hide ModesRight, Routed, Ordered, SuccessorSound, RelistedSound, ListsReady;
    assert StartupSound(s') && ListedLevel(s');
    assert SplitSound(s');
  }

  lemma PersistSound(s: System, st: Step, s': System)
    requires Inv(s) && Next(s, st, s') && st.PersistTarget?
    ensures Sound(s')
  {
    hide ModesRight, Routed;
  }

  lemma RefreshStructured(s: System, st: Step, s': System)
    requires Structured(s) && Next(s, st, s')
    requires st.Refresh? || st.BeginPass?
    ensures Structured(s') && TargetLog(s') == TargetLog(s)
  {
    hide Committed, WithoutFirst, Truthful, ListsReady, GateList, GateOpen;
  }

  lemma RefreshSound(s: System, st: Step, s': System)
    requires Inv(s) && Next(s, st, s')
    requires st.Refresh? || st.BeginPass?
    ensures Sound(s')
  {
    hide Committed, WithoutFirst, Truthful, ListsReady, ModesRight, Ordered, Routed;
  }

  lemma ReadRoleStructured(s: System, st: Step, s': System)
    requires Structured(s) && Next(s, st, s')
    requires st.ReadRole?
    ensures Structured(s') && TargetLog(s') == TargetLog(s)
  {
  }

  lemma ReadRoleSound(s: System, st: Step, s': System)
    requires Inv(s) && Next(s, st, s')
    requires st.ReadRole?
    ensures Sound(s')
  {
  }

  lemma ListReplicasStructured(s: System, st: Step, s': System)
    requires Structured(s) && Next(s, st, s')
    requires st.ListReplicas?
    ensures Structured(s') && TargetLog(s') == TargetLog(s)
  {
  }

  lemma ListReplicasSound(s: System, st: Step, s': System)
    requires Inv(s) && Next(s, st, s')
    requires st.ListReplicas?
    ensures Sound(s')
  {
    hide Committed, RefreshedNodes, WithoutFirst, Ordered, ModesRight, Routed;
  }

  lemma PromoteStructured(s: System, st: Step, s': System)
    requires Structured(s) && Next(s, st, s')
    requires st.Promote?
    ensures Structured(s') && TargetLog(s') == TargetLog(s)
  {
  }

  lemma PromoteSound(s: System, st: Step, s': System)
    requires Inv(s) && Next(s, st, s')
    requires st.Promote?
    ensures Sound(s')
  {
  }

  lemma DemoteStructured(s: System, st: Step, s': System)
    requires Structured(s) && Next(s, st, s')
    requires st.Demote?
    ensures Structured(s') && TargetLog(s') == TargetLog(s)
  {
    hide Committed, RefreshedNodes, WithoutFirst, Truthful, ListsReady, GateList, GateOpen;
  }

  lemma DemoteSound(s: System, st: Step, s': System)
    requires Inv(s) && Next(s, st, s')
    requires st.Demote?
    ensures Sound(s')
  {
    hide Committed, RefreshedNodes, WithoutFirst, Truthful, ListsReady, Ordered, Routed, ModesRight;
  }

  lemma RegisterStructured(s: System, st: Step, s': System)
    requires Structured(s) && Next(s, st, s')
    requires st.Register?
    ensures Structured(s') && TargetLog(s') == TargetLog(s)
  {
    hide Committed, RefreshedNodes, WithoutFirst, Truthful, ListsReady, GateList, GateOpen;
  }

  lemma RegisterSound(s: System, st: Step, s': System)
    requires Inv(s) && Next(s, st, s')
    requires st.Register?
    ensures Sound(s')
  {
    hide Committed, RefreshedNodes, WithoutFirst, Truthful, ListsReady, Ordered, Routed, ModesRight;
  }

  lemma {:induction false} WithoutAbsent(list: seq<ReplicaInfo>, p: Pod)
    requires p !in Names(list)
    ensures WithoutFirst(list, p) == list
  {
    if list != [] {
      assert list[0] in list;
      assert forall r | r in list[1..] :: r in list;
      WithoutAbsent(list[1..], p);
    }
  }

  lemma DropStructured(s: System, st: Step, s': System)
    requires Structured(s) && Next(s, st, s')
    requires st.Drop?
    ensures Structured(s') && TargetLog(s') == TargetLog(s)
  {
    WithoutAbsent(s.nodes[st.source].replicas, st.replica);
    assert s'.nodes == s.nodes;
  }

  lemma ReadyIsListed(list: seq<ReplicaInfo>, p: Pod)
    ensures ListsReady(list, p) ==> p in Names(list)
  {
  }

  lemma DropSound(s: System, st: Step, s': System)
    requires Inv(s) && Next(s, st, s')
    requires st.Drop?
    ensures Sound(s')
  {
    hide Committed, RefreshedNodes, WithoutFirst, Truthful, ListsReady, Ordered, Routed;
    WithoutAbsent(s.nodes[st.source].replicas, st.replica);
    assert s'.nodes == s.nodes;
    if st.source <= 1 {
      ReadyIsListed(s.nodes[st.source].replicas, Other(st.source));
    }
  }

  lemma GatewayStructured(s: System, st: Step, s': System)
    requires Structured(s) && Next(s, st, s')
    requires st.BeginFailover? || st.EndFailover? || st.OpenGateway?
    ensures Structured(s') && TargetLog(s') == TargetLog(s)
  {
    hide Committed, RefreshedNodes, WithoutFirst, Truthful, ListsReady, GateList, GateOpen;
  }

  lemma GatewaySound(s: System, st: Step, s': System)
    requires Inv(s) && Next(s, st, s')
    requires st.BeginFailover? || st.EndFailover? || st.OpenGateway?
    ensures Sound(s')
  {
  }

  /** Every step keeps the invariant and only ever extends the target's log. */
  lemma StepKeeps(s: System, st: Step, s': System)
    requires Inv(s) && Next(s, st, s') && Safe(s, st)
    ensures Inv(s') && TargetLog(s) <= TargetLog(s')
  {
    hide Structured, Sound, Enabled, Apply, Safe, TargetLog;
    match st
    case ClientBegin => BeginKeeps(s, st, s');
    case ClientCommit(_, _) => CommitStructured(s, st, s'); CommitSound(s, st, s');
    case CatchUp(_, _, _) => CatchUpKeeps(s, st, s');
    case PodJoins(_) => EnvironmentStructured(s, st, s'); EnvironmentSound(s, st, s');
    case PreStop => EnvironmentStructured(s, st, s'); EnvironmentSound(s, st, s');
    case Restart => EnvironmentStructured(s, st, s'); EnvironmentSound(s, st, s');
    case LoadTarget => LoadStructured(s, st, s'); LoadSound(s, st, s');
    case Adopt(_, _) => AdoptStructured(s, st, s'); AdoptSound(s, st, s');
    case PersistTarget(_, _) => PersistStructured(s, st, s'); PersistSound(s, st, s');
    case Refresh(_) => RefreshStructured(s, st, s'); RefreshSound(s, st, s');
    case BeginPass => RefreshStructured(s, st, s'); RefreshSound(s, st, s');
    case ReadRole(_) => ReadRoleStructured(s, st, s'); ReadRoleSound(s, st, s');
    case ListReplicas(_, _) => ListReplicasStructured(s, st, s'); ListReplicasSound(s, st, s');
    case Promote(_, _) => PromoteStructured(s, st, s'); PromoteSound(s, st, s');
    case Demote(_, _) => DemoteStructured(s, st, s'); DemoteSound(s, st, s');
    case Register(_, _, _, _) => RegisterStructured(s, st, s'); RegisterSound(s, st, s');
    case Drop(_, _, _) => DropStructured(s, st, s'); DropSound(s, st, s');
    case BeginFailover => GatewayStructured(s, st, s'); GatewaySound(s, st, s');
    case EndFailover => GatewayStructured(s, st, s'); GatewaySound(s, st, s');
    case OpenGateway(_) => GatewayStructured(s, st, s'); GatewaySound(s, st, s');
  }

  lemma InitInv(s: System)
    requires Init(s)
    ensures Inv(s)
  {
  }

  predicate SafeRun(states: seq<System>, steps: seq<Step>) {
    && Run(states, steps)
    && forall k | 0 <= k < |steps| :: Safe(states[k], steps[k])
  }

  lemma {:induction false} RunKeeps(states: seq<System>, steps: seq<Step>, k: nat)
    requires SafeRun(states, steps) && k < |states|
    ensures Inv(states[k])
  {
    hide Inv, Next, Safe;
    if k == 0 {
      InitInv(states[0]);
    } else {
      RunKeeps(states, steps, k - 1);
      StepKeeps(states[k - 1], steps[k - 1], states[k]);
    }
  }

  /** In every run, whatever was in the target main's log stays there, at the same position,
      whichever pod is the target later. */
  lemma {:induction false} LogOnlyGrows(states: seq<System>, steps: seq<Step>, k: nat, n: nat)
    requires SafeRun(states, steps) && k <= n < |states|
    ensures TargetLog(states[k]) <= TargetLog(states[n])
    decreases n - k
  {
    hide Inv, Next, Safe, TargetLog;
    if k < n {
      LogOnlyGrows(states, steps, k, n - 1);
      RunKeeps(states, steps, n - 1);
      StepKeeps(states[n - 1], steps[n - 1], states[n]);
    }
  }

  /** A write a client commits at step k, even one that was under way when the gateway closed, is in the
      target's log ever after, at the position where it was committed, and every instance's log is a
      prefix of that log. */
  lemma CommittedWritesSurvive(states: seq<System>, steps: seq<Step>, k: nat, n: nat)
    requires SafeRun(states, steps) && k < n < |states| && steps[k].ClientCommit?
    ensures var position := |TargetLog(states[k])|;
            position < |TargetLog(states[n])| && TargetLog(states[n])[position] == steps[k].w
    ensures forall p | p in states[n].dbs :: states[n].dbs[p].log <= TargetLog(states[n])
  {
    RunKeeps(states, steps, k);
    RunKeeps(states, steps, n);
    CommitStructured(states[k], steps[k], states[k + 1]);
    LogOnlyGrows(states, steps, k + 1, n);
  }

  /** In every run the read/write gateway is closed or leads to the target in memory. */
  lemma GatewayLeadsToTarget(states: seq<System>, steps: seq<Step>, k: nat)
    requires SafeRun(states, steps) && k < |states|
    ensures states[k].gateway.None? || states[k].gateway == states[k].mem
  {
    RunKeeps(states, steps, k);
  }

  lemma FailingUntilEnd(s: System, st: Step, s': System)
    requires Inv(s) && Next(s, st, s')
    requires st.BeginFailover? || (s.failing && !st.EndFailover? && !st.Restart?)
    ensures s'.failing && s'.gateway.None?
  {
  }

  /** Once a failover has closed the gateway it stays closed until that failover ends: through the
      promotion and up to the persisted target, whatever preStop hooks and clients do meanwhile. */
  lemma {:induction false} ClosedDuringFailover(states: seq<System>, steps: seq<Step>, k: nat, n: nat)
    requires SafeRun(states, steps) && k < n < |states| && steps[k].BeginFailover?
    requires forall i | k < i < n :: !steps[i].EndFailover? && !steps[i].Restart?
    ensures states[n].failing && states[n].gateway.None?
    decreases n - k
  {
    hide Next, Safe, Inv;
    if k < n - 1 {
      ClosedDuringFailover(states, steps, k, n - 1);
    }
    RunKeeps(states, steps, n - 1);
    FailingUntilEnd(states[n - 1], steps[n - 1], states[n]);
  }

  /** Promotions, and the ConfigMap writes that follow them, happen only inside such a window. */
  lemma PromotionsBehindClosedGateway(states: seq<System>, steps: seq<Step>, k: nat)
    requires SafeRun(states, steps) && k < |steps| && (steps[k].Promote? || steps[k].PersistTarget?)
    ensures states[k].failing && states[k].gateway.None?
  {
    assert Next(states[k], steps[k], states[k + 1]);
    RunKeeps(states, steps, k);
  }
}

/** The replication topology as a step machine.

    The state holds the real Memgraph instances (role, registrations, log) next to what the
    controller believes about them (node caches, target index, gateway upstream). Each step is
    one atomic effect: a client's commit, replication progress, one Memgraph command, one cache
    update, one ConfigMap write. Controller commands that are reported as failed either have no
    effect (no step at all) or are `Lost`: they took effect and the controller saw an error.

    `Enabled` is the discipline under which the controller issues each command. The methods of
    class Controller are proved to respect it, whatever happens between two of their commands. */
module Topology {
  import opened Common
  import opened ReplicaStatus

  type Write = nat

  /** A real Memgraph instance. */
  datatype Db = Db(role: Role, regs: map<Pod, Mode>, log: seq<Write>)

  /** What the controller caches about a pod (memgraph_node.go). */
  datatype Node = Node(ip: string, role: Option<Role>, replicas: seq<ReplicaInfo>, hasReplicas: bool)

  datatype System = System(
    dbs: map<Pod, Db>,
    pending: set<Pod>,        // mains that have received client transactions and not ended them
    nodes: map<Pod, Node>,
    known: set<Pod>,          // pods in the informer cache at the last refresh
    mem: Option<Pod>,         // target main index in memory, None for -1
    persisted: Option<Pod>,   // target main index in the ConfigMap
    gateway: Option<Pod>,     // pod behind the read/write gateway, None for ""
    failing: bool,            // between closing the gateway for a failover and its end
    relisted: bool,           // the target's replica list was read after the last promotion
    confirmed: set<Pod>)      // pods read as replica, or demoted, since the pass began

  datatype Outcome = Acknowledged | Lost

  datatype Step =
    | ClientBegin
    | ClientCommit(u: Pod, w: Write)
    | CatchUp(source: Pod, replica: Pod, upTo: nat)
    | PodJoins(p: Pod)
    | PreStop
    | Restart
    | LoadTarget
    | Adopt(i: Pod, out: Outcome)
    | Refresh(ips: map<Pod, string>)
    | BeginPass
    | ReadRole(p: Pod)
    | ListReplicas(p: Pod, list: seq<ReplicaInfo>)
    | Promote(p: Pod, out: Outcome)
    | Demote(p: Pod, out: Outcome)
    | Register(source: Pod, replica: Pod, mode: Mode, out: Outcome)
    | Drop(source: Pod, replica: Pod, out: Outcome)
    | BeginFailover
    | PersistTarget(i: Pod, out: Outcome)
    | EndFailover
    | OpenGateway(p: Pod)

  /** The other eligible pod: only pod-0 and pod-1 may be main or strict replica. */
  function Other(t: Pod): (o: Pod)
    requires t <= 1
    ensures o <= 1 && o != t
  {
    1 - t
  }

  /** STRICT_SYNC for the complement of an eligible main, ASYNC for everyone else. */
  function ModeFor(source: Pod, replica: Pod): Mode {
    if source <= 1 && replica == Other(source) then StrictSync else Async
  }

  function CachedRole(s: System, p: Pod): Option<Role> {
    if p in s.nodes then s.nodes[p].role else None
  }

  predicate StrictReady(r: ReplicaInfo, p: Pod) {
    r.name == p && r.mode == StrictSync && Ready(r)
  }

  predicate ListsReady(list: seq<ReplicaInfo>, p: Pod) {
    exists r | r in list :: StrictReady(r, p)
  }

  /** The cached list of t names its complement as a ready strict replica. */
  predicate GateList(s: System, t: Pod) {
    t <= 1 && t in s.nodes && s.nodes[t].hasReplicas && ListsReady(s.nodes[t].replicas, Other(t))
  }

  /** The failover gate of executeFailoverInternal, evaluated on the caches. */
  predicate GateOpen(s: System, t: Pod) {
    GateList(s, t) && CachedRole(s, t) == Some(Main)
  }

  /** A STRICT_SYNC replica can confirm a commit of u: it is a replica and holds u's whole log. */
  predicate Confirms(s: System, u: Pod, j: Pod)
    requires u in s.dbs
  {
    j in s.dbs && s.dbs[j].role == Replica && s.dbs[j].log == s.dbs[u].log
  }

  predicate StrictOn(db: Db, j: Pod) {
    j in db.regs && db.regs[j] == StrictSync
  }

  /** What SHOW REPLICAS may answer: one row per registration, and a strict replica is reported
      ready only while it is a caught-up replica. Other status values are unconstrained. */
  predicate Truthful(s: System, p: Pod, list: seq<ReplicaInfo>)
    requires p in s.dbs
  {
    && Names(list) == s.dbs[p].regs.Keys
    && (forall r | r in list :: s.dbs[p].regs[r.name] == r.mode)
    && (forall i, j | 0 <= i < j < |list| :: list[i].name != list[j].name)
    && (forall r | r in list && r.mode == StrictSync && Ready(r) :: Confirms(s, p, r.name))
  }

  // -- When the controller issues a command --------------------------------------------------

  /** A role is read again only when the replica list has been read since the last promotion. */
  predicate MayReadRole(s: System, p: Pod) {
    && p in s.nodes && p in s.dbs
    && (s.mem.Some? && s.mem.value <= 1 && p == Other(s.mem.value)
        ==> s.nodes[p].role.None? || s.relisted)
  }

  /** Only the complement of the target is promoted, inside a failover, if it is cached as replica. */
  predicate MayPromote(s: System, p: Pod) {
    && s.failing && s.mem.Some? && s.mem.value <= 1 && p == Other(s.mem.value)
    && p in s.dbs && CachedRole(s, p) == Some(Replica)
  }

  /** The target is never demoted; without a target only pod-1 is. */
  predicate MayDemote(s: System, p: Pod) {
    p in s.nodes && p in s.dbs && s.mem != Some(p) && (s.mem.None? ==> p == 1)
  }

  /** Registrations go to the target, for a pod confirmed as replica in this pass, when no other
      known pod was last seen as main and the informer knows no further pod. */
  predicate MayRegister(s: System, i: Pod, j: Pod) {
    && i in s.nodes && i in s.dbs && i != j && i <= 1 && j in s.confirmed
    && match s.mem {
      case Some(t) =>
        && t == i && j in s.nodes && Other(i) in s.nodes && s.known == s.nodes.Keys
        && forall k | k in s.nodes && k != i :: s.nodes[k].role != Some(Main)
      case None => i == 0 && j == 1
    }
  }

  /** Only a name missing from the last list read is dropped. */
  predicate MayDrop(s: System, i: Pod, j: Pod) {
    s.mem == Some(i) && i in s.nodes && i in s.dbs && j !in Names(s.nodes[i].replicas)
  }

  /** The target moves to the complement when the gate is open and it is known to be main. */
  predicate MayPersist(s: System, i: Pod) {
    && s.failing && s.mem.Some? && s.mem.value <= 1 && i == Other(s.mem.value)
    && GateOpen(s, s.mem.value) && CachedRole(s, i) == Some(Main)
  }

  predicate Enabled(s: System, st: Step) {
    match st
    case ClientBegin => s.gateway.Some? && s.gateway.value in s.dbs && s.dbs[s.gateway.value].role == Main
    case ClientCommit(u, _) =>
      && u in s.pending && u in s.dbs && s.dbs[u].role == Main
      && forall j | j in s.dbs[u].regs && StrictOn(s.dbs[u], j) :: Confirms(s, u, j)
    case CatchUp(m, j, n) =>
      && m in s.dbs && j in s.dbs && m != j
      && s.dbs[m].role == Main && s.dbs[j].role == Replica && j in s.dbs[m].regs
      && s.dbs[j].log <= s.dbs[m].log && |s.dbs[j].log| <= n <= |s.dbs[m].log|
    case PodJoins(p) => p !in s.dbs
    case PreStop => true
    case Restart => true
    case LoadTarget => s.mem.None? && s.persisted.Some?
    case Adopt(i, _) => i <= 1   // discovery holds no lock: its finding may be out of date
    case Refresh(ips) => ips.Keys <= s.dbs.Keys
    case BeginPass => true
    case ReadRole(p) => MayReadRole(s, p)
    case ListReplicas(p, list) =>
      && p in s.nodes && p in s.dbs
      && s.nodes[p].role == Some(Main) && s.dbs[p].role == Main && Truthful(s, p, list)
    case Promote(p, _) => MayPromote(s, p)
    case Demote(p, _) => MayDemote(s, p)
    case Register(i, j, mode, _) => MayRegister(s, i, j) && mode == ModeFor(i, j)
    case Drop(i, j, _) => MayDrop(s, i, j)
    case BeginFailover => s.mem.Some? && GateOpen(s, s.mem.value)
    case PersistTarget(i, _) => MayPersist(s, i)
    case EndFailover => true
    case OpenGateway(p) => s.mem == Some(p) && !s.failing
  }

  // -- Effects on the real instances ---------------------------------------------------------

  function Committed(dbs: map<Pod, Db>, u: Pod, w: Write): map<Pod, Db>
    requires u in dbs
  {
    map p | p in dbs ::
      if p == u || StrictOn(dbs[u], p) then dbs[p].(log := dbs[p].log + [w]) else dbs[p]
  }

  /** SET REPLICATION ROLE TO MAIN: a former replica starts with no registrations. */
  function Promoted(db: Db): Db {
    if db.role == Main then db else db.(role := Main, regs := map[])
  }

  /** SET REPLICATION ROLE TO REPLICA: a replica holds no registrations. */
  function Demoted(db: Db): Db {
    if db.role == Replica then db else db.(role := Replica, regs := map[])
  }

  // -- Effects on the caches -----------------------------------------------------------------

  /** Both role commands clear the cached role and invalidate the cached list. */
  function Cleared(n: Node): Node {
    n.(role := None, hasReplicas := false)
  }

  /** DropReplica removes the first cached row of that name. */
  function WithoutFirst(list: seq<ReplicaInfo>, p: Pod): seq<ReplicaInfo> {
    if list == [] then []
    else if list[0].name == p then list[1..]
    else [list[0]] + WithoutFirst(list[1..], p)
  }

  function ClearedIf(s: System, p: Pod, out: Outcome): map<Pod, Node> {
    if out == Acknowledged && p in s.nodes then s.nodes[p := Cleared(s.nodes[p])] else s.nodes
  }

  /** Refresh keeps the cached role and list of pods it already knows, and never forgets a pod. */
  function RefreshedNode(s: System, p: Pod, ip: string): Node {
    if p in s.nodes then s.nodes[p].(ip := ip) else Node(ip, None, [], false)
  }

  function RefreshedNodes(s: System, ips: map<Pod, string>): map<Pod, Node> {
    map p | p in s.nodes.Keys + ips.Keys ::
      if p in ips then RefreshedNode(s, p, ips[p]) else s.nodes[p]
  }

  function AfterRefresh(s: System, ips: map<Pod, string>): System {
    s.(nodes := RefreshedNodes(s, ips), known := ips.Keys)
  }

  function AfterReadRole(s: System, p: Pod): System
    requires p in s.nodes && p in s.dbs
  {
    var role := s.dbs[p].role;
    s.(nodes := s.nodes[p := s.nodes[p].(role := Some(role))],
       confirmed := if role == Replica then s.confirmed + {p} else s.confirmed - {p})
  }

  function AfterList(s: System, p: Pod, list: seq<ReplicaInfo>): System
    requires p in s.nodes
  {
    s.(nodes := s.nodes[p := s.nodes[p].(replicas := list, hasReplicas := true)],
       relisted := s.relisted || s.mem == Some(p))
  }

  function AfterPromote(s: System, p: Pod, out: Outcome): System
    requires p in s.dbs
  {
    s.(dbs := s.dbs[p := Promoted(s.dbs[p])], nodes := ClearedIf(s, p, out), relisted := false,
       confirmed := s.confirmed - {p})
  }

  function AfterDemote(s: System, p: Pod, out: Outcome): System
    requires p in s.dbs
  {
    s.(dbs := s.dbs[p := Demoted(s.dbs[p])], pending := s.pending - {p}, nodes := ClearedIf(s, p, out),
       confirmed := if out == Acknowledged then s.confirmed + {p} else s.confirmed)
  }

  function AfterRegister(s: System, i: Pod, j: Pod, mode: Mode, out: Outcome): System
    requires i in s.dbs && i in s.nodes
  {
    s.(dbs := s.dbs[i := s.dbs[i].(regs := s.dbs[i].regs[j := mode])],
       nodes := if out == Acknowledged then s.nodes[i := s.nodes[i].(hasReplicas := false)] else s.nodes)
  }

  function AfterDrop(s: System, i: Pod, j: Pod, out: Outcome): System
    requires i in s.dbs && i in s.nodes
  {
    s.(dbs := s.dbs[i := s.dbs[i].(regs := s.dbs[i].regs - {j})],
       nodes := if out == Acknowledged
                then s.nodes[i := s.nodes[i].(replicas := WithoutFirst(s.nodes[i].replicas, j))]
                else s.nodes)
  }

  function AfterTarget(s: System, i: Pod, out: Outcome): System {
    s.(persisted := Some(i), mem := if out == Acknowledged then Some(i) else s.mem, relisted := false)
  }

  function Apply(s: System, st: Step): System
    requires Enabled(s, st)
  {
    match st
    case ClientBegin => s.(pending := s.pending + {s.gateway.value})
    case ClientCommit(u, w) => s.(dbs := Committed(s.dbs, u, w))
    case CatchUp(m, j, n) => s.(dbs := s.dbs[j := s.dbs[j].(log := s.dbs[m].log[..n])])
    case PodJoins(p) => s.(dbs := s.dbs[p := Db(Main, map[], [])])
    case PreStop => s.(gateway := None)
    case Restart =>
      s.(nodes := map[], known := {}, mem := None, gateway := None, failing := false, relisted := false,
         confirmed := {})
    case LoadTarget => s.(mem := s.persisted)
    case Adopt(i, out) => AfterTarget(s, i, out)
    case Refresh(ips) => AfterRefresh(s, ips)
    case BeginPass => s.(confirmed := {})
    case ReadRole(p) => AfterReadRole(s, p)
    case ListReplicas(p, list) => AfterList(s, p, list)
    case Promote(p, out) => AfterPromote(s, p, out)
    case Demote(p, out) => AfterDemote(s, p, out)
    case Register(i, j, mode, out) => AfterRegister(s, i, j, mode, out)
    case Drop(i, j, out) => AfterDrop(s, i, j, out)
    case BeginFailover => s.(gateway := None, failing := true)
    case PersistTarget(i, out) => AfterTarget(s, i, out)
    case EndFailover => s.(failing := false)
    case OpenGateway(p) => s.(gateway := Some(p))
  }

  predicate Next(s: System, st: Step, s': System) {
    Enabled(s, st) && s' == Apply(s, st)
  }

  // -- Starting states -----------------------------------------------------------------------

  /** The index the cluster is run for: the one in memory, else the one a controller would load. */
  function Target(s: System): Option<Pod> {
    if s.mem.Some? then s.mem else s.persisted
  }

  function LogOf(s: System, t: Pod): seq<Write> {
    if t in s.dbs then s.dbs[t].log else []
  }

  function Longer(a: seq<Write>, b: seq<Write>): seq<Write> {
    if |a| >= |b| then a else b
  }

  /** Everything the cluster has promised to keep: the log of the target main. While there is no target,
      because the cluster is new or its ConfigMap is gone, it is the longer log of the eligible pods. */
  function TargetLog(s: System): seq<Write> {
    if Target(s).Some? then LogOf(s, Target(s).value) else Longer(LogOf(s, 0), LogOf(s, 1))
  }

  /** A strict registration is made exactly for the complement, and only eligible pods hold any. */
  predicate ModesRight(s: System) {
    forall i, j | i in s.dbs && j in s.dbs[i].regs ::
      i <= 1 && (s.dbs[i].regs[j] == StrictSync <==> j == Other(i))
  }

  /** Every log is a prefix of what was promised. */
  predicate Ordered(s: System) {
    forall p | p in s.dbs :: s.dbs[p].log <= TargetLog(s)
  }

  /** A controller process has just started, on a new cluster or on one left in any safe state. */
  predicate Init(s: System) {
    && s.pending == {} && s.nodes == map[] && s.known == {} && s.mem.None? && s.gateway.None?
    && !s.failing && !s.relisted && s.confirmed == {}
    && 0 in s.dbs && 1 in s.dbs
    && (s.persisted.Some? ==> s.persisted.value <= 1)
    && ModesRight(s) && Ordered(s)
  }

  // -- Runs ----------------------------------------------------------------------------------

  /** A run: the states it goes through and the step taken between each two. */
  predicate Run(states: seq<System>, steps: seq<Step>) {
    && |states| == |steps| + 1
    && Init(states[0])
    && forall k | 0 <= k < |steps| :: Next(states[k], steps[k], states[k + 1])
  }
}
